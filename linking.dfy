/**
 * The per-field rules of the link pass: a list of names is turned into the
 * resources the registry holds for them, in order, with one diagnostic for
 * every name that is rejected.
 */
module Linking {

  import opened Wrappers
  import opened Resources

  /** The name fields of a race that the link pass resolves. */
  datatype Field =
    | MaleUnitProfileName
    | FemaleUnitProfileName
    | OnHitEffectNames
    | DefaultHitEffectNames
    | EquipmentNames
    | PowerResourceNames

  datatype Problem = NotFound(requested: Name) | BlankName

  /** What one Debug.LogError call reports: the asset, the field, the problem. */
  datatype Diagnostic = Diagnostic(owner: string, field: Field, problem: Problem)

  /**
   * How one list field is linked: the owner named in diagnostics, the field,
   * the resources its names are looked up in, and whether a null or empty
   * name is reported before any lookup.
   */
  datatype Rule<T> = Rule(owner: string, field: Field, lookup: map<string, T>, rejectBlank: bool)

  /** The resolved references of a pass over names, and its diagnostics. */
  datatype Linked<T> = Linked(refs: seq<T>, diags: seq<Diagnostic>)
  {
    function Then(next: Linked<T>): Linked<T>
    {
      Linked(refs + next.refs, diags + next.diags)
    }
  }

  /** One iteration of a foreach over a name list. */
  function LinkName<T>(rule: Rule<T>, n: Name): Linked<T>
  {
    if rule.rejectBlank && IsBlank(n) then
      Linked([], [Diagnostic(rule.owner, rule.field, BlankName)])
    else
      match Lookup(rule.lookup, n)
      case Some(x) => Linked([x], [])
      case None => Linked([], [Diagnostic(rule.owner, rule.field, NotFound(n))])
  }

  /** The whole foreach: each name contributes a reference or a diagnostic. */
  function LinkAll<T>(rule: Rule<T>, names: seq<Name>): (r: Linked<T>)
    ensures |r.refs| + |r.diags| == |names|
    ensures forall d :: d in r.diags ==> d.owner == rule.owner && d.field == rule.field
    decreases |names|
  {
    if names == [] then Linked([], [])
    else LinkName(rule, names[0]).Then(LinkAll(rule, names[1..]))
  }

  /** A list field that may be null: a null list is skipped. */
  function LinkList<T>(rule: Rule<T>, names: Option<seq<Name>>): Linked<T>
  {
    match names
    case None => Linked([], [])
    case Some(ns) => LinkAll(rule, ns)
  }

  /** The name is accepted and the registry holds x for it. */
  ghost predicate Resolves<T>(rule: Rule<T>, n: Name, x: T)
  {
    !(rule.rejectBlank && IsBlank(n)) && n.Some? && n.value in rule.lookup && rule.lookup[n.value] == x
  }

  /** The name is rejected: blank where that is refused, or not registered. */
  ghost predicate Rejected<T>(rule: Rule<T>, n: Name)
  {
    (rule.rejectBlank && IsBlank(n)) || n == None || n.value !in rule.lookup
  }

  /** Linking is a homomorphism from name lists to results: no state is carried between names. */
  lemma {:induction false} LinkAllAppend<T>(rule: Rule<T>, a: seq<Name>, b: seq<Name>)
    ensures LinkAll(rule, a + b) == LinkAll(rule, a).Then(LinkAll(rule, b))
    decreases |a|
  {
    if a == [] {
      assert a + b == b;
    } else {
      assert (a + b)[0] == a[0];
      assert (a + b)[1..] == a[1..] + b;
      LinkAllAppend(rule, a[1..], b);
      var h, ta, tb := LinkName(rule, a[0]), LinkAll(rule, a[1..]), LinkAll(rule, b);
      assert LinkAll(rule, a + b) == h.Then(ta.Then(tb));
      ThenAssociative(h, ta, tb);
    }
  }

  lemma ThenAssociative<T>(x: Linked<T>, y: Linked<T>, z: Linked<T>)
    ensures x.Then(y.Then(z)) == x.Then(y).Then(z)
  {
  }

  /** The loop step: linking one more name appends that name's outcome. */
  lemma LinkAllSnoc<T>(rule: Rule<T>, names: seq<Name>, n: Name)
    ensures LinkAll(rule, names + [n]) == LinkAll(rule, names).Then(LinkName(rule, n))
  {
    LinkAllAppend(rule, names, [n]);
    assert [n][1..] == [];
  }

  /** Names are not de-duplicated: a list given twice resolves to its references twice. */
  lemma LinkAllKeepsDuplicates<T>(rule: Rule<T>, names: seq<Name>)
    ensures LinkAll(rule, names + names).refs == LinkAll(rule, names).refs + LinkAll(rule, names).refs
    ensures LinkAll(rule, names + names).diags == LinkAll(rule, names).diags + LinkAll(rule, names).diags
  {
    LinkAllAppend(rule, names, names);
  }

  /** A resource is among the references exactly when some name resolves to it. */
  lemma {:induction false} LinkAllResolved<T>(rule: Rule<T>, names: seq<Name>, x: T)
    ensures x in LinkAll(rule, names).refs <==> exists i :: 0 <= i < |names| && Resolves(rule, names[i], x)
    decreases |names|
  {
    if names != [] {
      LinkAllResolved(rule, names[1..], x);
      if exists i :: 0 <= i < |names| && Resolves(rule, names[i], x) {
        var i :| 0 <= i < |names| && Resolves(rule, names[i], x);
        if i > 0 {
          assert names[1..][i - 1] == names[i];
        }
      }
      if exists j :: 0 <= j < |names| - 1 && Resolves(rule, names[1..][j], x) {
        var j :| 0 <= j < |names| - 1 && Resolves(rule, names[1..][j], x);
        assert names[j + 1] == names[1..][j];
      }
    }
  }

  /** The diagnostic a rejected name gets: blank where blanks are refused, otherwise the name not found. */
  function Rejection<T>(rule: Rule<T>, n: Name): Diagnostic
  {
    Diagnostic(rule.owner, rule.field, if rule.rejectBlank && IsBlank(n) then BlankName else NotFound(n))
  }

  /** One name gives its rejection as its only diagnostic if rejected, and none otherwise. */
  lemma LinkNameDiags<T>(rule: Rule<T>, n: Name)
    ensures LinkName(rule, n).diags == if Rejected(rule, n) then [Rejection(rule, n)] else []
  {
  }

  /** A diagnostic is reported exactly when some name is rejected, and it is that name's rejection. */
  lemma {:induction false} LinkAllDiags<T>(rule: Rule<T>, names: seq<Name>, d: Diagnostic)
    ensures d in LinkAll(rule, names).diags
            <==> exists i :: 0 <= i < |names| && Rejected(rule, names[i]) && d == Rejection(rule, names[i])
    decreases |names|
  {
    if names != [] {
      LinkAllDiags(rule, names[1..], d);
      LinkNameDiags(rule, names[0]);
      assert LinkAll(rule, names).diags == LinkName(rule, names[0]).diags + LinkAll(rule, names[1..]).diags;
      if exists i :: 0 <= i < |names| && Rejected(rule, names[i]) && d == Rejection(rule, names[i]) {
        var i :| 0 <= i < |names| && Rejected(rule, names[i]) && d == Rejection(rule, names[i]);
        if i > 0 {
          assert names[1..][i - 1] == names[i];
        }
      }
      if exists j :: 0 <= j < |names| - 1 && Rejected(rule, names[1..][j]) && d == Rejection(rule, names[1..][j]) {
        var j :| 0 <= j < |names| - 1 && Rejected(rule, names[1..][j]) && d == Rejection(rule, names[1..][j]);
        assert names[j + 1] == names[1..][j];
      }
    }
  }

  /**
   * A pass reports nothing exactly when no name is rejected, and then the
   * references are the names' resources one for one, in order.
   */
  lemma {:induction false} LinkAllClean<T>(rule: Rule<T>, names: seq<Name>)
    ensures LinkAll(rule, names).diags == [] <==> forall i :: 0 <= i < |names| ==> !Rejected(rule, names[i])
    ensures LinkAll(rule, names).diags == [] ==>
              |LinkAll(rule, names).refs| == |names| &&
              forall i :: 0 <= i < |names| ==> Resolves(rule, names[i], LinkAll(rule, names).refs[i])
    decreases |names|
  {
    if names != [] {
      var tail := names[1..];
      LinkAllClean(rule, tail);
      assert forall i :: 1 <= i < |names| ==> names[i] == tail[i - 1];
      var r := LinkAll(rule, names);
      if r.diags == [] {
        assert !Rejected(rule, names[0]);
        assert r.refs == [rule.lookup[names[0].value]] + LinkAll(rule, tail).refs;
      }
    }
  }

  /**
   * An optional single reference (a unit profile): an empty name is skipped
   * and leaves the current reference; any other name overwrites it with what
   * the registry holds, reporting the name when that is nothing.
   */
  datatype SingleLink<T> = SingleLink(ref: Option<T>, diags: seq<Diagnostic>)

  function LinkSingle<T>(owner: string, field: Field, lookup: map<string, T>, n: Name, current: Option<T>): SingleLink<T>
  {
    if n == Some("") then SingleLink(current, [])
    else
      match Lookup(lookup, n)
      case Some(x) => SingleLink(Some(x), [])
      case None => SingleLink(None, [Diagnostic(owner, field, NotFound(n))])
  }

  /** The diagnostics of a log that concern one field, in log order. */
  function OfField(log: seq<Diagnostic>, f: Field): seq<Diagnostic>
    decreases |log|
  {
    if log == [] then []
    else (if log[0].field == f then [log[0]] else []) + OfField(log[1..], f)
  }

  lemma {:induction false} OfFieldAppend(a: seq<Diagnostic>, b: seq<Diagnostic>, f: Field)
    ensures OfField(a + b, f) == OfField(a, f) + OfField(b, f)
    decreases |a|
  {
    if a == [] {
      assert a + b == b;
    } else {
      assert (a + b)[0] == a[0];
      assert (a + b)[1..] == a[1..] + b;
      OfFieldAppend(a[1..], b, f);
    }
  }

  /** The fields' diagnostics of a log made of one block per field, in the link pass's field order. */
  lemma OfFieldBlocks(m: seq<Diagnostic>, w: seq<Diagnostic>, o: seq<Diagnostic>,
                      d: seq<Diagnostic>, e: seq<Diagnostic>, p: seq<Diagnostic>, f: Field)
    requires forall x :: x in m ==> x.field == MaleUnitProfileName
    requires forall x :: x in w ==> x.field == FemaleUnitProfileName
    requires forall x :: x in o ==> x.field == OnHitEffectNames
    requires forall x :: x in d ==> x.field == DefaultHitEffectNames
    requires forall x :: x in e ==> x.field == EquipmentNames
    requires forall x :: x in p ==> x.field == PowerResourceNames
    ensures OfField(m + w + o + d + e + p, f) ==
      match f
      case MaleUnitProfileName => m
      case FemaleUnitProfileName => w
      case OnHitEffectNames => o
      case DefaultHitEffectNames => d
      case EquipmentNames => e
      case PowerResourceNames => p
  {
    OfFieldAppend(m + w + o + d + e, p, f);
    OfFieldAppend(m + w + o + d, e, f);
    OfFieldAppend(m + w + o, d, f);
    OfFieldAppend(m + w, o, f);
    OfFieldAppend(m, w, f);
    OfFieldUniform(m, MaleUnitProfileName, f);
    OfFieldUniform(w, FemaleUnitProfileName, f);
    OfFieldUniform(o, OnHitEffectNames, f);
    OfFieldUniform(d, DefaultHitEffectNames, f);
    OfFieldUniform(e, EquipmentNames, f);
    OfFieldUniform(p, PowerResourceNames, f);
  }

  /** A log whose entries all concern field g keeps all of them for g and none for any other field. */
  lemma {:induction false} OfFieldUniform(log: seq<Diagnostic>, g: Field, f: Field)
    requires forall d :: d in log ==> d.field == g
    ensures OfField(log, f) == if f == g then log else []
    decreases |log|
  {
    if log != [] {
      assert log[0] in log;
      assert forall d :: d in log[1..] ==> d in log;
      OfFieldUniform(log[1..], g, f);
    }
  }

}
