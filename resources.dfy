/**
 * The data assets a character race refers to, and the registry that the
 * link pass asks for them (the system data factory's GetResource<T>).
 *
 * A resource is reduced to its resource name: nothing in the link pass looks
 * inside one, except the check whether an Item is a piece of Equipment.
 */
module Resources {

  import opened Wrappers

  /** A name as stored on an asset; None is a null string. */
  type Name = Option<string>

  /** Null or empty: the names an ability-effect list treats as blank. */
  predicate IsBlank(n: Name)
  {
    n == None || n == Some("")
  }

  datatype UnitProfile = UnitProfile(resourceName: string)

  datatype AbilityEffect = AbilityEffect(resourceName: string)

  datatype PowerResource = PowerResource(resourceName: string)

  datatype Equipment = Equipment(resourceName: string)

  /** Equipment is the one subclass of Item the link pass distinguishes. */
  datatype Item = PlainItem(resourceName: string) | EquipmentItem(equipment: Equipment)

  /**
   * The registry, one map per resource kind, keyed by the name that is asked
   * for. Whatever normalisation the factory applies to a requested name is
   * folded into which keys a map holds.
   */
  datatype Registry = Registry(
    unitProfiles: map<string, UnitProfile>,
    abilityEffects: map<string, AbilityEffect>,
    items: map<string, Item>,
    powerResources: map<string, PowerResource>)

  /** GetResource<T>(name): the resource registered under the name, or null. */
  function Lookup<T>(m: map<string, T>, n: Name): Option<T>
  {
    if n.Some? && n.value in m then Some(m[n.value]) else None
  }

  /** The C# cast `item as Equipment`. */
  function AsEquipment(i: Item): (r: Option<Equipment>)
    ensures r.Some? <==> i.EquipmentItem?
    ensures r.Some? ==> i == EquipmentItem(r.value)
  {
    match i
    case PlainItem(_) => None
    case EquipmentItem(e) => Some(e)
  }

  /** The registered items that are equipment, under the same keys. */
  function EquipmentOf(items: map<string, Item>): (m: map<string, Equipment>)
    ensures forall k :: k in m <==> k in items && items[k].EquipmentItem?
    ensures forall k :: k in m ==> items[k] == EquipmentItem(m[k])
  {
    map k | k in items && items[k].EquipmentItem? :: items[k].equipment
  }

  /** Looking a name up among the equipment is looking it up as an Item and casting. */
  lemma EquipmentLookupIsCast(items: map<string, Item>, n: Name)
    ensures Lookup(EquipmentOf(items), n)
            == (match Lookup(items, n) case None => None case Some(i) => AsEquipment(i))
  {
  }

}
