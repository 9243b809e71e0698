/**
 * A character race: a data asset that names its unit profiles, hit effects,
 * start equipment and power resources, and resolves those names against the
 * registry in a link pass (SetupScriptableObjects).
 */
module CharacterRaces {

  import opened Wrappers
  import opened Resources
  import opened Linking

  /** A race's capabilities; their own setup is not part of this model. */
  class CapabilityProps {
    constructor () {}
  }

  /** A stat of the race; its own setup is not part of this model. */
  class StatScalingNode {
    constructor () {}
  }

  /** Whoever asks a race for its capabilities. */
  class CapabilityConsumer {
    constructor () {}
  }

  /** The names a race declares; the link pass reads them and never writes them. */
  datatype RaceNames = RaceNames(
    maleUnitProfile: Name,
    femaleUnitProfile: Name,
    onHitEffects: Option<seq<Name>>,
    defaultHitEffects: Option<seq<Name>>,
    equipmentNames: Option<seq<Name>>,
    powerResources: Option<seq<Name>>)

  /** The references the link pass writes. */
  datatype Resolved = Resolved(
    maleUnitProfileRef: Option<UnitProfile>,
    femaleUnitProfileRef: Option<UnitProfile>,
    onHitEffectList: seq<AbilityEffect>,
    defaultHitEffectList: seq<AbilityEffect>,
    equipmentList: seq<Equipment>,
    powerResourceList: seq<PowerResource>)

  /** A race as loaded: no reference resolved yet. */
  const Unlinked := Resolved(None, None, [], [], [], [])

  datatype LinkReport = LinkReport(state: Resolved, log: seq<Diagnostic>)

  function OnHitRule(owner: string, reg: Registry): Rule<AbilityEffect>
  {
    Rule(owner, OnHitEffectNames, reg.abilityEffects, true)
  }

  function DefaultHitRule(owner: string, reg: Registry): Rule<AbilityEffect>
  {
    Rule(owner, DefaultHitEffectNames, reg.abilityEffects, true)
  }

  /** Equipment names are looked up as items without a blank check; only equipment is kept. */
  function EquipmentRule(owner: string, reg: Registry): Rule<Equipment>
  {
    Rule(owner, EquipmentNames, EquipmentOf(reg.items), false)
  }

  function PowerResourceRule(owner: string, reg: Registry): Rule<PowerResource>
  {
    Rule(owner, PowerResourceNames, reg.powerResources, false)
  }

  function MaleLink(owner: string, names: RaceNames, reg: Registry, before: Resolved): SingleLink<UnitProfile>
  {
    LinkSingle(owner, MaleUnitProfileName, reg.unitProfiles, names.maleUnitProfile, before.maleUnitProfileRef)
  }

  function FemaleLink(owner: string, names: RaceNames, reg: Registry, before: Resolved): SingleLink<UnitProfile>
  {
    LinkSingle(owner, FemaleUnitProfileName, reg.unitProfiles, names.femaleUnitProfile, before.femaleUnitProfileRef)
  }

  /**
   * The link pass as a function of the declared names, the registry and the
   * references before the pass: the unit profiles, then the on-hit effects,
   * default-hit effects, equipment and power resources, each field's
   * diagnostics in that order. The three first lists are appended to; the
   * power resources start afresh.
   */
  function Link(owner: string, names: RaceNames, reg: Registry, before: Resolved): LinkReport
  {
    var male := MaleLink(owner, names, reg, before);
    var female := FemaleLink(owner, names, reg, before);
    var onHit := LinkList(OnHitRule(owner, reg), names.onHitEffects);
    var defaultHit := LinkList(DefaultHitRule(owner, reg), names.defaultHitEffects);
    var equipment := LinkList(EquipmentRule(owner, reg), names.equipmentNames);
    var power := LinkList(PowerResourceRule(owner, reg), names.powerResources);
    LinkReport(
      Resolved(
        male.ref,
        female.ref,
        before.onHitEffectList + onHit.refs,
        before.defaultHitEffectList + defaultHit.refs,
        before.equipmentList + equipment.refs,
        power.refs),
      male.diags + female.diags + onHit.diags + defaultHit.diags + equipment.diags + power.diags)
  }

  /** A null name list counts as no names. */
  function NamesOf(names: Option<seq<Name>>): seq<Name>
  {
    match names
    case None => []
    case Some(ns) => ns
  }

  // ----- the per-field rules, stated against the registry -----

  /** The rule for an optional unit profile, with `after` and `diags` the field's outcome. */
  ghost predicate ProfileRule(owner: string, field: Field, reg: Registry, n: Name,
                              before: Option<UnitProfile>, after: Option<UnitProfile>, diags: seq<Diagnostic>)
  {
    && (n == Some("") ==> after == before && diags == [])
    && (n != Some("") && n.Some? && n.value in reg.unitProfiles ==>
          after == Some(reg.unitProfiles[n.value]) && diags == [])
    && (n != Some("") && (n == None || n.value !in reg.unitProfiles) ==>
          after == None && diags == [Diagnostic(owner, field, NotFound(n))])
  }

  ghost predicate NamesEffect(reg: Registry, n: Name, x: AbilityEffect)
  {
    n.Some? && n.value != "" && n.value in reg.abilityEffects && reg.abilityEffects[n.value] == x
  }

  ghost predicate NamesEquipment(reg: Registry, n: Name, x: Equipment)
  {
    n.Some? && n.value in reg.items && reg.items[n.value] == EquipmentItem(x)
  }

  ghost predicate NamesPowerResource(reg: Registry, n: Name, x: PowerResource)
  {
    n.Some? && n.value in reg.powerResources && reg.powerResources[n.value] == x
  }

  /** An ability-effect rule accepts exactly the non-blank names registered as effects. */
  lemma {:induction false} EffectRuleResolves(owner: string, field: Field, reg: Registry, ns: seq<Name>, x: AbilityEffect)
    ensures x in LinkAll(Rule(owner, field, reg.abilityEffects, true), ns).refs
            <==> exists i :: 0 <= i < |ns| && NamesEffect(reg, ns[i], x)
  {
    var rule := Rule(owner, field, reg.abilityEffects, true);
    LinkAllResolved(rule, ns, x);
    assert forall i :: 0 <= i < |ns| ==> (NamesEffect(reg, ns[i], x) <==> Resolves(rule, ns[i], x));
  }

  lemma {:induction false} EquipmentRuleResolves(owner: string, reg: Registry, ns: seq<Name>, x: Equipment)
    ensures x in LinkAll(EquipmentRule(owner, reg), ns).refs
            <==> exists i :: 0 <= i < |ns| && NamesEquipment(reg, ns[i], x)
  {
    var rule := EquipmentRule(owner, reg);
    LinkAllResolved(rule, ns, x);
    assert forall i :: 0 <= i < |ns| ==> (NamesEquipment(reg, ns[i], x) <==> Resolves(rule, ns[i], x));
  }

  lemma {:induction false} PowerResourceRuleResolves(owner: string, reg: Registry, ns: seq<Name>, x: PowerResource)
    ensures x in LinkAll(PowerResourceRule(owner, reg), ns).refs
            <==> exists i :: 0 <= i < |ns| && NamesPowerResource(reg, ns[i], x)
  {
    var rule := PowerResourceRule(owner, reg);
    LinkAllResolved(rule, ns, x);
    assert forall i :: 0 <= i < |ns| ==> (NamesPowerResource(reg, ns[i], x) <==> Resolves(rule, ns[i], x));
  }

  /** The log splits by field into the diagnostics of each field's own rule. */
  lemma LinkLogOfField(owner: string, names: RaceNames, reg: Registry, before: Resolved, f: Field)
    ensures OfField(Link(owner, names, reg, before).log, f) ==
      match f
      case MaleUnitProfileName => MaleLink(owner, names, reg, before).diags
      case FemaleUnitProfileName => FemaleLink(owner, names, reg, before).diags
      case OnHitEffectNames => LinkList(OnHitRule(owner, reg), names.onHitEffects).diags
      case DefaultHitEffectNames => LinkList(DefaultHitRule(owner, reg), names.defaultHitEffects).diags
      case EquipmentNames => LinkList(EquipmentRule(owner, reg), names.equipmentNames).diags
      case PowerResourceNames => LinkList(PowerResourceRule(owner, reg), names.powerResources).diags
  {
    var m := MaleLink(owner, names, reg, before).diags;
    var w := FemaleLink(owner, names, reg, before).diags;
    var o := LinkList(OnHitRule(owner, reg), names.onHitEffects).diags;
    var d := LinkList(DefaultHitRule(owner, reg), names.defaultHitEffects).diags;
    var e := LinkList(EquipmentRule(owner, reg), names.equipmentNames).diags;
    var p := LinkList(PowerResourceRule(owner, reg), names.powerResources).diags;
    assert Link(owner, names, reg, before).log == m + w + o + d + e + p;
    OfFieldBlocks(m, w, o, d, e, p, f);
  }

  /**
   * An empty profile name is skipped and keeps the reference; any other name
   * sets it to the registered profile, or to null with exactly one diagnostic.
   */
  lemma LinkUnitProfiles(owner: string, names: RaceNames, reg: Registry, before: Resolved)
    ensures var r := Link(owner, names, reg, before);
      ProfileRule(owner, MaleUnitProfileName, reg, names.maleUnitProfile, before.maleUnitProfileRef,
                  r.state.maleUnitProfileRef, OfField(r.log, MaleUnitProfileName))
    ensures var r := Link(owner, names, reg, before);
      ProfileRule(owner, FemaleUnitProfileName, reg, names.femaleUnitProfile, before.femaleUnitProfileRef,
                  r.state.femaleUnitProfileRef, OfField(r.log, FemaleUnitProfileName))
  {
    LinkLogOfField(owner, names, reg, before, MaleUnitProfileName);
    LinkLogOfField(owner, names, reg, before, FemaleUnitProfileName);
  }

  /**
   * The on-hit effects are appended to the list: every name that is neither
   * null nor empty and is a registered ability effect adds it, and every other
   * name adds exactly one diagnostic.
   */
  lemma LinkOnHitEffects(owner: string, names: RaceNames, reg: Registry, before: Resolved, x: AbilityEffect)
    ensures var r := Link(owner, names, reg, before);
      var ns := NamesOf(names.onHitEffects);
      var old_ := before.onHitEffectList;
      var new_ := r.state.onHitEffectList;
      && |old_| <= |new_| && new_[..|old_|] == old_
      && (x in new_[|old_|..] <==> exists i :: 0 <= i < |ns| && NamesEffect(reg, ns[i], x))
      && |new_| - |old_| + |OfField(r.log, OnHitEffectNames)| == |ns|
  {
    var rule := OnHitRule(owner, reg);
    var ns := NamesOf(names.onHitEffects);
    var new_ := Link(owner, names, reg, before).state.onHitEffectList;
    LinkLogOfField(owner, names, reg, before, OnHitEffectNames);
    assert LinkList(rule, names.onHitEffects) == LinkAll(rule, ns);
    assert new_[|before.onHitEffectList|..] == LinkAll(rule, ns).refs;
    EffectRuleResolves(owner, OnHitEffectNames, reg, ns, x);
  }

  /** As LinkOnHitEffects, for the default-hit effects. */
  lemma LinkDefaultHitEffects(owner: string, names: RaceNames, reg: Registry, before: Resolved, x: AbilityEffect)
    ensures var r := Link(owner, names, reg, before);
      var ns := NamesOf(names.defaultHitEffects);
      var old_ := before.defaultHitEffectList;
      var new_ := r.state.defaultHitEffectList;
      && |old_| <= |new_| && new_[..|old_|] == old_
      && (x in new_[|old_|..] <==> exists i :: 0 <= i < |ns| && NamesEffect(reg, ns[i], x))
      && |new_| - |old_| + |OfField(r.log, DefaultHitEffectNames)| == |ns|
  {
    var rule := DefaultHitRule(owner, reg);
    var ns := NamesOf(names.defaultHitEffects);
    var new_ := Link(owner, names, reg, before).state.defaultHitEffectList;
    LinkLogOfField(owner, names, reg, before, DefaultHitEffectNames);
    assert LinkList(rule, names.defaultHitEffects) == LinkAll(rule, ns);
    assert new_[|before.defaultHitEffectList|..] == LinkAll(rule, ns).refs;
    EffectRuleResolves(owner, DefaultHitEffectNames, reg, ns, x);
  }

  /**
   * Equipment is appended to the list: a name adds x exactly when it is
   * registered as an item that is the equipment x; a missing name and an item
   * that is not equipment each add one diagnostic.
   */
  lemma LinkEquipment(owner: string, names: RaceNames, reg: Registry, before: Resolved, x: Equipment)
    ensures var r := Link(owner, names, reg, before);
      var ns := NamesOf(names.equipmentNames);
      var old_ := before.equipmentList;
      var new_ := r.state.equipmentList;
      && |old_| <= |new_| && new_[..|old_|] == old_
      && (x in new_[|old_|..] <==> exists i :: 0 <= i < |ns| && NamesEquipment(reg, ns[i], x))
      && |new_| - |old_| + |OfField(r.log, EquipmentNames)| == |ns|
  {
    var rule := EquipmentRule(owner, reg);
    var ns := NamesOf(names.equipmentNames);
    var new_ := Link(owner, names, reg, before).state.equipmentList;
    LinkLogOfField(owner, names, reg, before, EquipmentNames);
    assert LinkList(rule, names.equipmentNames) == LinkAll(rule, ns);
    assert new_[|before.equipmentList|..] == LinkAll(rule, ns).refs;
    EquipmentRuleResolves(owner, reg, ns, x);
  }

  /**
   * The power resources are replaced, not appended to: afterwards the list
   * holds exactly the registered power resources of the names, whatever it
   * held before, and every missing name adds one diagnostic.
   */
  lemma LinkPowerResources(owner: string, names: RaceNames, reg: Registry, before: Resolved, x: PowerResource)
    ensures var r := Link(owner, names, reg, before);
      var ns := NamesOf(names.powerResources);
      var new_ := r.state.powerResourceList;
      && (x in new_ <==> exists i :: 0 <= i < |ns| && NamesPowerResource(reg, ns[i], x))
      && |new_| + |OfField(r.log, PowerResourceNames)| == |ns|
      && forall other :: Link(owner, names, reg, other).state.powerResourceList == new_
  {
    var rule := PowerResourceRule(owner, reg);
    var ns := NamesOf(names.powerResources);
    LinkLogOfField(owner, names, reg, before, PowerResourceNames);
    assert LinkList(rule, names.powerResources) == LinkAll(rule, ns);
    PowerResourceRuleResolves(owner, reg, ns, x);
  }

  /** A null name list adds nothing and reports nothing for its field (the power resources are still cleared). */
  lemma LinkNullLists(owner: string, names: RaceNames, reg: Registry, before: Resolved)
    ensures var r := Link(owner, names, reg, before);
      && (names.onHitEffects == None ==>
            r.state.onHitEffectList == before.onHitEffectList && OfField(r.log, OnHitEffectNames) == [])
      && (names.defaultHitEffects == None ==>
            r.state.defaultHitEffectList == before.defaultHitEffectList && OfField(r.log, DefaultHitEffectNames) == [])
      && (names.equipmentNames == None ==>
            r.state.equipmentList == before.equipmentList && OfField(r.log, EquipmentNames) == [])
      && (names.powerResources == None ==>
            r.state.powerResourceList == [] && OfField(r.log, PowerResourceNames) == [])
  {
    LinkLogOfField(owner, names, reg, before, OnHitEffectNames);
    LinkLogOfField(owner, names, reg, before, DefaultHitEffectNames);
    LinkLogOfField(owner, names, reg, before, EquipmentNames);
    LinkLogOfField(owner, names, reg, before, PowerResourceNames);
  }

  /**
   * A second pass reports the same diagnostics and leaves the unit profiles
   * and the power resources as the first left them, but appends the resolved
   * effects and equipment a second time.
   */
  lemma LinkTwice(owner: string, names: RaceNames, reg: Registry, before: Resolved)
    ensures var r1 := Link(owner, names, reg, before);
      var r2 := Link(owner, names, reg, r1.state);
      && r2.log == r1.log
      && r2.state.maleUnitProfileRef == r1.state.maleUnitProfileRef
      && r2.state.femaleUnitProfileRef == r1.state.femaleUnitProfileRef
      && r2.state.powerResourceList == r1.state.powerResourceList
      && r2.state.onHitEffectList
         == r1.state.onHitEffectList + r1.state.onHitEffectList[|before.onHitEffectList|..]
      && r2.state.defaultHitEffectList
         == r1.state.defaultHitEffectList + r1.state.defaultHitEffectList[|before.defaultHitEffectList|..]
      && r2.state.equipmentList
         == r1.state.equipmentList + r1.state.equipmentList[|before.equipmentList|..]
  {
  }

  /**
   * One race's unresolved reference does not disturb another's: with only
   * "Human_Male" registered, a race naming it links cleanly, and a race naming
   * the missing "Orc_Male" gets exactly one diagnostic, for its male profile.
   */
  lemma MissingReferenceIsolated()
    ensures var reg := Registry(map["Human_Male" := UnitProfile("Human_Male")], map[], map[], map[]);
      var human := RaceNames(Some("Human_Male"), Some(""), Some([]), Some([]), Some([]), Some([]));
      var orc := RaceNames(Some("Orc_Male"), Some(""), Some([]), Some([]), Some([]), Some([]));
      && Link("Human", human, reg, Unlinked)
         == LinkReport(Unlinked.(maleUnitProfileRef := Some(UnitProfile("Human_Male"))), [])
      && Link("Orc", orc, reg, Unlinked)
         == LinkReport(Unlinked, [Diagnostic("Orc", MaleUnitProfileName, NotFound(Some("Orc_Male")))])
  {
  }

  class CharacterRace {

    /** The asset's own name (from its base class), used in diagnostics. */
    var resourceName: string

    var newGameOption: bool
    var maleUnitProfile: Name
    var maleUnitProfileRef: Option<UnitProfile>
    var femaleUnitProfile: Name
    var femaleUnitProfileRef: Option<UnitProfile>
    var equipmentNames: Option<seq<Name>>
    var equipmentList: seq<Equipment>
    var defaultHitEffects: Option<seq<Name>>
    var defaultHitEffectList: seq<AbilityEffect>
    var onHitEffects: Option<seq<Name>>
    var onHitEffectList: seq<AbilityEffect>
    var capabilities: CapabilityProps
    var primaryStats: seq<StatScalingNode>
    var powerResources: Option<seq<Name>>
    var powerResourceList: seq<PowerResource>

    function Declared(): RaceNames
      reads this
    {
      RaceNames(maleUnitProfile, femaleUnitProfile, onHitEffects, defaultHitEffects, equipmentNames, powerResources)
    }

    function Resolution(): Resolved
      reads this
    {
      Resolved(maleUnitProfileRef, femaleUnitProfileRef, onHitEffectList, defaultHitEffectList, equipmentList, powerResourceList)
    }

    /** A race as deserialised: its declared names and values, nothing resolved. */
    constructor (resourceName: string, names: RaceNames, newGameOption: bool,
                 capabilities: CapabilityProps, primaryStats: seq<StatScalingNode>)
      ensures this.resourceName == resourceName && Declared() == names
      ensures this.newGameOption == newGameOption && this.capabilities == capabilities
      ensures this.primaryStats == primaryStats
      ensures Resolution() == Unlinked
    {
      this.resourceName := resourceName;
      this.newGameOption := newGameOption;
      maleUnitProfile := names.maleUnitProfile;
      maleUnitProfileRef := None;
      femaleUnitProfile := names.femaleUnitProfile;
      femaleUnitProfileRef := None;
      equipmentNames := names.equipmentNames;
      equipmentList := [];
      defaultHitEffects := names.defaultHitEffects;
      defaultHitEffectList := [];
      onHitEffects := names.onHitEffects;
      onHitEffectList := [];
      this.capabilities := capabilities;
      this.primaryStats := primaryStats;
      powerResources := names.powerResources;
      powerResourceList := [];
    }

    function MaleUnitProfile(): Option<UnitProfile>
      reads this
    {
      maleUnitProfileRef
    }

    function FemaleUnitProfile(): Option<UnitProfile>
      reads this
    {
      femaleUnitProfileRef
    }

    method SetPowerResourceList(value: seq<PowerResource>)
      modifies this`powerResourceList
      ensures powerResourceList == value
    {
      powerResourceList := value;
    }

    method SetPrimaryStats(value: seq<StatScalingNode>)
      modifies this`primaryStats
      ensures primaryStats == value
    {
      primaryStats := value;
    }

    method SetEquipmentList(value: seq<Equipment>)
      modifies this`equipmentList
      ensures equipmentList == value
    {
      equipmentList := value;
    }

    method SetDefaultHitEffectList(value: seq<AbilityEffect>)
      modifies this`defaultHitEffectList
      ensures defaultHitEffectList == value
    {
      defaultHitEffectList := value;
    }

    method SetOnHitEffectList(value: seq<AbilityEffect>)
      modifies this`onHitEffectList
      ensures onHitEffectList == value
    {
      onHitEffectList := value;
    }

    method SetCapabilities(value: CapabilityProps)
      modifies this`capabilities
      ensures capabilities == value
    {
      capabilities := value;
    }

    method SetNewGameOption(value: bool)
      modifies this`newGameOption
      ensures newGameOption == value
    {
      newGameOption := value;
    }

    /** The race's capabilities themselves, whoever asks and whatever returnAll says. */
    function GetFilteredCapabilities(capabilityConsumer: CapabilityConsumer?, returnAll: bool := true): (r: CapabilityProps)
      reads this
      ensures r == capabilities
    {
      capabilities
    }

    /**
     * The link pass. It writes only the resolved references, as Link says,
     * and returns the diagnostics it reports, in order.
     */
    method SetupScriptableObjects(reg: Registry) returns (log: seq<Diagnostic>)
      modifies this`maleUnitProfileRef, this`femaleUnitProfileRef, this`onHitEffectList,
               this`defaultHitEffectList, this`equipmentList, this`powerResourceList
      ensures Resolution() == Link(resourceName, Declared(), reg, old(Resolution())).state
      ensures log == Link(resourceName, Declared(), reg, old(Resolution())).log
      ensures Declared() == old(Declared()) && resourceName == old(resourceName)
      ensures newGameOption == old(newGameOption) && capabilities == old(capabilities)
      ensures primaryStats == old(primaryStats)
    {
      ghost var names, before := Declared(), Resolution();
      var profileLog := SetupUnitProfiles(reg);
      var onHitLog := SetupOnHitEffects(reg);
      var defaultHitLog := SetupDefaultHitEffects(reg);
      var equipmentLog := SetupEquipment(reg);
      var powerLog := SetupPowerResources(reg);
      log := profileLog + onHitLog + defaultHitLog + equipmentLog + powerLog;
      ghost var male := MaleLink(resourceName, names, reg, before);
      ghost var female := FemaleLink(resourceName, names, reg, before);
      assert profileLog == male.diags + female.diags;
      assert log == Link(resourceName, names, reg, before).log;
      assert Resolution() == Link(resourceName, names, reg, before).state;
    }

    /** The two optional unit profiles. */
    method SetupUnitProfiles(reg: Registry) returns (log: seq<Diagnostic>)
      modifies this`maleUnitProfileRef, this`femaleUnitProfileRef
      ensures var male := MaleLink(resourceName, Declared(), reg, old(Resolution()));
              var female := FemaleLink(resourceName, Declared(), reg, old(Resolution()));
              maleUnitProfileRef == male.ref && femaleUnitProfileRef == female.ref &&
              log == male.diags + female.diags
    {
      log := [];
      if maleUnitProfile != Some("") {
        maleUnitProfileRef := Lookup(reg.unitProfiles, maleUnitProfile);
        if maleUnitProfileRef == None {
          log := log + [Diagnostic(resourceName, MaleUnitProfileName, NotFound(maleUnitProfile))];
        }
      }
      if femaleUnitProfile != Some("") {
        femaleUnitProfileRef := Lookup(reg.unitProfiles, femaleUnitProfile);
        if femaleUnitProfileRef == None {
          log := log + [Diagnostic(resourceName, FemaleUnitProfileName, NotFound(femaleUnitProfile))];
        }
      }
    }

    /** The on-hit effect names, appended to onHitEffectList. */
    method SetupOnHitEffects(reg: Registry) returns (log: seq<Diagnostic>)
      modifies this`onHitEffectList
      ensures onHitEffectList == old(onHitEffectList) + LinkList(OnHitRule(resourceName, reg), onHitEffects).refs
      ensures log == LinkList(OnHitRule(resourceName, reg), onHitEffects).diags
    {
      log := [];
      if onHitEffects != None {
        var names := onHitEffects.value;
        ghost var rule := OnHitRule(resourceName, reg);
        var i := 0;
        while i < |names|
          invariant 0 <= i <= |names|
          invariant onHitEffectList == old(onHitEffectList) + LinkAll(rule, names[..i]).refs
          invariant log == LinkAll(rule, names[..i]).diags
        {
          var onHitEffectName := names[i];
          if onHitEffectName != None && onHitEffectName != Some("") {
            var abilityEffect := Lookup(reg.abilityEffects, onHitEffectName);
            if abilityEffect != None {
              onHitEffectList := onHitEffectList + [abilityEffect.value];
            } else {
              log := log + [Diagnostic(resourceName, OnHitEffectNames, NotFound(onHitEffectName))];
            }
          } else {
            log := log + [Diagnostic(resourceName, OnHitEffectNames, BlankName)];
          }
          LinkAllSnoc(rule, names[..i], onHitEffectName);
          assert names[..i + 1] == names[..i] + [onHitEffectName];
          i := i + 1;
        }
        assert names[..i] == names;
      }
    }

    /** The default-hit effect names, appended to defaultHitEffectList. */
    method SetupDefaultHitEffects(reg: Registry) returns (log: seq<Diagnostic>)
      modifies this`defaultHitEffectList
      ensures defaultHitEffectList
              == old(defaultHitEffectList) + LinkList(DefaultHitRule(resourceName, reg), defaultHitEffects).refs
      ensures log == LinkList(DefaultHitRule(resourceName, reg), defaultHitEffects).diags
    {
      log := [];
      if defaultHitEffects != None {
        var names := defaultHitEffects.value;
        ghost var rule := DefaultHitRule(resourceName, reg);
        var i := 0;
        while i < |names|
          invariant 0 <= i <= |names|
          invariant defaultHitEffectList == old(defaultHitEffectList) + LinkAll(rule, names[..i]).refs
          invariant log == LinkAll(rule, names[..i]).diags
        {
          var defaultHitEffectName := names[i];
          if defaultHitEffectName != None && defaultHitEffectName != Some("") {
            var abilityEffect := Lookup(reg.abilityEffects, defaultHitEffectName);
            if abilityEffect != None {
              defaultHitEffectList := defaultHitEffectList + [abilityEffect.value];
            } else {
              log := log + [Diagnostic(resourceName, DefaultHitEffectNames, NotFound(defaultHitEffectName))];
            }
          } else {
            log := log + [Diagnostic(resourceName, DefaultHitEffectNames, BlankName)];
          }
          LinkAllSnoc(rule, names[..i], defaultHitEffectName);
          assert names[..i + 1] == names[..i] + [defaultHitEffectName];
          i := i + 1;
        }
        assert names[..i] == names;
      }
    }

    /** The equipment names, looked up as items and kept when they are equipment. */
    method SetupEquipment(reg: Registry) returns (log: seq<Diagnostic>)
      modifies this`equipmentList
      ensures equipmentList == old(equipmentList) + LinkList(EquipmentRule(resourceName, reg), equipmentNames).refs
      ensures log == LinkList(EquipmentRule(resourceName, reg), equipmentNames).diags
    {
      log := [];
      if equipmentNames != None {
        var names := equipmentNames.value;
        ghost var rule := EquipmentRule(resourceName, reg);
        var i := 0;
        while i < |names|
          invariant 0 <= i <= |names|
          invariant equipmentList == old(equipmentList) + LinkAll(rule, names[..i]).refs
          invariant log == LinkAll(rule, names[..i]).diags
        {
          var equipmentName := names[i];
          var item := Lookup(reg.items, equipmentName);
          var tmpEquipment := if item == None then None else AsEquipment(item.value);
          if tmpEquipment != None {
            equipmentList := equipmentList + [tmpEquipment.value];
          } else {
            log := log + [Diagnostic(resourceName, EquipmentNames, NotFound(equipmentName))];
          }
          EquipmentLookupIsCast(reg.items, equipmentName);
          LinkAllSnoc(rule, names[..i], equipmentName);
          assert names[..i + 1] == names[..i] + [equipmentName];
          i := i + 1;
        }
        assert names[..i] == names;
      }
    }

    /** The power resource names; the list is started afresh. */
    method SetupPowerResources(reg: Registry) returns (log: seq<Diagnostic>)
      modifies this`powerResourceList
      ensures powerResourceList == LinkList(PowerResourceRule(resourceName, reg), powerResources).refs
      ensures log == LinkList(PowerResourceRule(resourceName, reg), powerResources).diags
    {
      log := [];
      powerResourceList := [];
      if powerResources != None {
        var names := powerResources.value;
        ghost var rule := PowerResourceRule(resourceName, reg);
        var i := 0;
        while i < |names|
          invariant 0 <= i <= |names|
          invariant powerResourceList == LinkAll(rule, names[..i]).refs
          invariant log == LinkAll(rule, names[..i]).diags
        {
          var powerResourceName := names[i];
          var tmpPowerResource := Lookup(reg.powerResources, powerResourceName);
          if tmpPowerResource != None {
            powerResourceList := powerResourceList + [tmpPowerResource.value];
          } else {
            log := log + [Diagnostic(resourceName, PowerResourceNames, NotFound(powerResourceName))];
          }
          LinkAllSnoc(rule, names[..i], powerResourceName);
          assert names[..i + 1] == names[..i] + [powerResourceName];
          i := i + 1;
        }
        assert names[..i] == names;
      }
    }

  }

}
