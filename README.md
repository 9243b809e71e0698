# CharacterRace link pass

A character race in AnyRPG is a data asset that names the other assets it
depends on instead of holding them: two optional unit profiles (male and
female), lists of on-hit and default-hit ability effects, start equipment and
power resources. After all assets are loaded, `SetupScriptableObjects` runs a
link pass. It asks the system data factory for each name, keeps the resources
it finds in the race's reference fields, in declaration order, and logs an
error for each name it cannot resolve.

This project models that pass in Dafny:

- `wrappers.dfy`: `Option`, which stands for a reference that may be null.
- `resources.dfy` (module `Resources`): the referenced resources and the
  registry. The registry has one map per resource kind, keyed by the
  requested name. A name is `Option<string>`, and `None` is a null string.
  `Lookup` is `GetResource<T>`, and `AsEquipment` is the cast `as Equipment`.
- `linking.dfy` (module `Linking`): the rule one `foreach` over a name list
  follows (`LinkName`, `LinkAll`, `LinkList`), the rule for an optional
  single reference (`LinkSingle`), and structured diagnostics in place of
  `Debug.LogError`. Each diagnostic holds the owner, the field and the
  problem (blank name, or the name that is not found).
- `character_race.dfy` (module `CharacterRaces`): the class `CharacterRace`.
  It has the source's fields, its setters, `GetFilteredCapabilities` and
  `SetupScriptableObjects`. It also holds `Link`, the pure function the
  method is proved against, and the lemmas about `Link`.

The rules as the code has them:

- A unit-profile name that is exactly the empty string is skipped and leaves
  the reference as it was. Any other name, null included, overwrites the
  reference with the lookup result. If that result is null, one diagnostic
  is logged.
- An on-hit or default-hit effect name that is null or empty gives a
  "blank" diagnostic. Any other name is looked up as an ability effect: a
  hit is appended, a miss gives one diagnostic.
- An equipment name is looked up as an `Item` with no blank check. It is
  appended only if the item is an `Equipment`. A missing name and an item
  that is not equipment each give one diagnostic.
- `powerResourceList` is replaced by a fresh list before it is filled. The
  three other lists are appended to, so a second pass adds their entries
  again. The unit profiles, the power resources and the log come out the
  same on a second pass.
- A null name list is skipped: it adds no entries and no diagnostics.
- Nothing de-duplicates: a name given twice resolves twice.

Only an empty unit-profile name is skipped silently. A null or empty effect
name is reported, and a null unit-profile name is still looked up.
`GetFilteredCapabilities` ignores both its arguments (`returnAll` defaults to
true) and returns the stored capabilities; nothing merges, de-duplicates or
gates by level.

## Model

| member | source | states |
|---|---|---|
| `Resources.AsEquipment` | MMO_RPG/Assets/AnyRPG/Core/System/Scripts/GameManager/ResourceProfiles/CharacterRace.cs:148 | the cast gives a value exactly for an item that is equipment, and that value is the item's equipment |
| `Resources.EquipmentOf` | MMO_RPG/Assets/AnyRPG/Core/System/Scripts/GameManager/ResourceProfiles/CharacterRace.cs:148 | the equipment view of the item map has exactly the keys whose item is equipment, each holding that item's equipment |
| `Resources.EquipmentLookupIsCast` | MMO_RPG/Assets/AnyRPG/Core/System/Scripts/GameManager/ResourceProfiles/CharacterRace.cs:148 | looking a name up among the equipment is the same as `GetResource<Item>(name) as Equipment` |
| `Linking.LinkAll` | MMO_RPG/Assets/AnyRPG/Core/System/Scripts/GameManager/ResourceProfiles/CharacterRace.cs:115-167 | for any name list, resolved references plus diagnostics number exactly the names, and every diagnostic carries the rule's owner and field (what each diagnostic reports is in `Linking.LinkAllDiags`) |
| `Linking.LinkAllAppend` | MMO_RPG/Assets/AnyRPG/Core/System/Scripts/GameManager/ResourceProfiles/CharacterRace.cs:116-127 | linking `a + b` gives the references and the diagnostics of `a` followed by those of `b`, so order is kept and no state passes between names |
| `Linking.LinkAllSnoc` | MMO_RPG/Assets/AnyRPG/Core/System/Scripts/GameManager/ResourceProfiles/CharacterRace.cs:116-127 | one more loop iteration appends exactly that name's outcome |
| `Linking.LinkAllKeepsDuplicates` | MMO_RPG/Assets/AnyRPG/Core/System/Scripts/GameManager/ResourceProfiles/CharacterRace.cs:116-120 | a list given twice yields its references twice and its diagnostics twice; nothing is de-duplicated |
| `Linking.LinkAllResolved` | MMO_RPG/Assets/AnyRPG/Core/System/Scripts/GameManager/ResourceProfiles/CharacterRace.cs:115-167 | a resource is among the references if and only if some name in the list is accepted and registered as that resource |
| `Linking.LinkNameDiags` | MMO_RPG/Assets/AnyRPG/Core/System/Scripts/GameManager/ResourceProfiles/CharacterRace.cs:117-126 | one name gives exactly its rejection as diagnostic when it is rejected, and no diagnostic otherwise |
| `Linking.LinkAllDiags` | MMO_RPG/Assets/AnyRPG/Core/System/Scripts/GameManager/ResourceProfiles/CharacterRace.cs:116-126 | a diagnostic is reported if and only if some name is rejected, and it is that name's: a blank-name diagnostic for a null or empty name where blanks are refused, otherwise not-found carrying the requested name, with the rule's owner and field |
| `Linking.LinkAllClean` | MMO_RPG/Assets/AnyRPG/Core/System/Scripts/GameManager/ResourceProfiles/CharacterRace.cs:115-167 | no diagnostic if and only if no name is rejected; then the references are the names' resources one for one, in order |
| `CharacterRaces.EffectRuleResolves` | MMO_RPG/Assets/AnyRPG/Core/System/Scripts/GameManager/ResourceProfiles/CharacterRace.cs:117-120 | an effect-list rule resolves to an effect if and only if some name is neither null nor empty and is registered as that effect |
| `CharacterRaces.EquipmentRuleResolves` | MMO_RPG/Assets/AnyRPG/Core/System/Scripts/GameManager/ResourceProfiles/CharacterRace.cs:146-150 | the equipment rule resolves to equipment if and only if some name is registered as an item that is that equipment |
| `CharacterRaces.PowerResourceRuleResolves` | MMO_RPG/Assets/AnyRPG/Core/System/Scripts/GameManager/ResourceProfiles/CharacterRace.cs:159-162 | the power-resource rule resolves to a power resource if and only if some name is registered as it |
| `CharacterRaces.LinkLogOfField` | MMO_RPG/Assets/AnyRPG/Core/System/Scripts/GameManager/ResourceProfiles/CharacterRace.cs:98-175 | the diagnostics the pass logs for each field are exactly that field's own rule's diagnostics |
| `CharacterRaces.LinkUnitProfiles` | MMO_RPG/Assets/AnyRPG/Core/System/Scripts/GameManager/ResourceProfiles/CharacterRace.cs:101-113 | for each gender: an empty name keeps the reference and logs nothing; a registered name sets the profile and logs nothing; any other name sets null and logs exactly one not-found diagnostic naming it |
| `CharacterRaces.LinkOnHitEffects` | MMO_RPG/Assets/AnyRPG/Core/System/Scripts/GameManager/ResourceProfiles/CharacterRace.cs:115-128 | the old list is kept as a prefix; an effect is among the appended entries if and only if some non-null, non-empty on-hit name is registered as it; appended entries plus on-hit diagnostics equal the number of names |
| `CharacterRaces.LinkDefaultHitEffects` | MMO_RPG/Assets/AnyRPG/Core/System/Scripts/GameManager/ResourceProfiles/CharacterRace.cs:130-143 | the same three facts for the default-hit effects |
| `CharacterRaces.LinkEquipment` | MMO_RPG/Assets/AnyRPG/Core/System/Scripts/GameManager/ResourceProfiles/CharacterRace.cs:145-155 | the old list is kept as a prefix; equipment is appended if and only if some name is registered as an item that is that equipment; appended entries plus equipment diagnostics equal the number of names |
| `CharacterRaces.LinkPowerResources` | MMO_RPG/Assets/AnyRPG/Core/System/Scripts/GameManager/ResourceProfiles/CharacterRace.cs:157-167 | afterwards the list holds a power resource if and only if some name is registered as it; its length plus the power-resource diagnostics equals the number of names; the result does not depend on the list before the pass |
| `CharacterRaces.LinkNullLists` | MMO_RPG/Assets/AnyRPG/Core/System/Scripts/GameManager/ResourceProfiles/CharacterRace.cs:115-167 | a null name list leaves its list as it was (the power resources empty) and logs nothing for its field |
| `CharacterRaces.LinkTwice` | MMO_RPG/Assets/AnyRPG/Core/System/Scripts/GameManager/ResourceProfiles/CharacterRace.cs:98-175 | a second pass logs the same diagnostics and leaves both unit profiles and the power resources unchanged, but appends the resolved effects and equipment again |
| `CharacterRaces.MissingReferenceIsolated` | MMO_RPG/Assets/AnyRPG/Core/System/Scripts/GameManager/ResourceProfiles/CharacterRace.cs:101-106 | a race naming a registered male profile links cleanly; one naming an unregistered profile gets exactly one diagnostic, for that field and name |
| `CharacterRaces.CharacterRace.constructor` | MMO_RPG/Assets/AnyRPG/Core/System/Scripts/GameManager/ResourceProfiles/CharacterRace.cs:17-81 | a race starts with its declared names and values and with every reference null or empty |
| `CharacterRaces.CharacterRace.GetFilteredCapabilities` | MMO_RPG/Assets/AnyRPG/Core/System/Scripts/GameManager/ResourceProfiles/CharacterRace.cs:94-96 | returns the race's own capabilities object for every consumer and every `returnAll` |
| `CharacterRaces.CharacterRace.SetupScriptableObjects` | MMO_RPG/Assets/AnyRPG/Core/System/Scripts/GameManager/ResourceProfiles/CharacterRace.cs:98-175 | the new references and the returned log are those of `Link` on the old references; the names, new-game option, capabilities and stats are unchanged |
| `CharacterRaces.CharacterRace.SetupUnitProfiles` | MMO_RPG/Assets/AnyRPG/Core/System/Scripts/GameManager/ResourceProfiles/CharacterRace.cs:101-113 | both profile references and the log are those of the optional-reference rule |
| `CharacterRaces.CharacterRace.SetupOnHitEffects` | MMO_RPG/Assets/AnyRPG/Core/System/Scripts/GameManager/ResourceProfiles/CharacterRace.cs:115-128 | the on-hit list is the old list followed by the references of the on-hit rule; the log is that rule's diagnostics |
| `CharacterRaces.CharacterRace.SetupDefaultHitEffects` | MMO_RPG/Assets/AnyRPG/Core/System/Scripts/GameManager/ResourceProfiles/CharacterRace.cs:130-143 | the same for the default-hit list |
| `CharacterRaces.CharacterRace.SetupEquipment` | MMO_RPG/Assets/AnyRPG/Core/System/Scripts/GameManager/ResourceProfiles/CharacterRace.cs:145-155 | the equipment list is the old list followed by the equipment the names resolve to; the log is the equipment rule's diagnostics |
| `CharacterRaces.CharacterRace.SetupPowerResources` | MMO_RPG/Assets/AnyRPG/Core/System/Scripts/GameManager/ResourceProfiles/CharacterRace.cs:157-167 | the power-resource list is exactly the references of the power-resource rule, whatever it held before |
| `CharacterRaces.CharacterRace.SetPowerResourceList` | MMO_RPG/Assets/AnyRPG/Core/System/Scripts/GameManager/ResourceProfiles/CharacterRace.cs:83 | the setter stores the given list and changes nothing else |
| `CharacterRaces.CharacterRace.SetPrimaryStats` | MMO_RPG/Assets/AnyRPG/Core/System/Scripts/GameManager/ResourceProfiles/CharacterRace.cs:84 | the setter stores the given stats and changes nothing else |
| `CharacterRaces.CharacterRace.SetEquipmentList` | MMO_RPG/Assets/AnyRPG/Core/System/Scripts/GameManager/ResourceProfiles/CharacterRace.cs:85 | the setter stores the given list and changes nothing else |
| `CharacterRaces.CharacterRace.SetDefaultHitEffectList` | MMO_RPG/Assets/AnyRPG/Core/System/Scripts/GameManager/ResourceProfiles/CharacterRace.cs:86 | the setter stores the given list and changes nothing else |
| `CharacterRaces.CharacterRace.SetOnHitEffectList` | MMO_RPG/Assets/AnyRPG/Core/System/Scripts/GameManager/ResourceProfiles/CharacterRace.cs:87 | the setter stores the given list and changes nothing else |
| `CharacterRaces.CharacterRace.SetCapabilities` | MMO_RPG/Assets/AnyRPG/Core/System/Scripts/GameManager/ResourceProfiles/CharacterRace.cs:88 | the setter stores the given capabilities and changes nothing else |
| `CharacterRaces.CharacterRace.SetNewGameOption` | MMO_RPG/Assets/AnyRPG/Core/System/Scripts/GameManager/ResourceProfiles/CharacterRace.cs:89 | the setter stores the given flag and changes nothing else |

## Left out

- The base class's `SetupScriptableObjects` (CharacterRace.cs:99) is not part of this model: its code is not shown.
- The pass calls `SetupScriptableObjects` on each primary stat and on the capabilities object (CharacterRace.cs:169-173). What those calls do is left out, because those classes' code is not shown. `StatScalingNode` and `CapabilityProps` are classes with no modelled state.
- `GetResource<T>` is a map lookup. Any normalisation of the requested name is folded into the map's keys. A null name is assumed to find nothing rather than throw.
- Log message text is not modelled. `Debug.LogError` becomes a structured diagnostic, and the pass returns the diagnostics in order instead of writing to a global log.
- The getters (CharacterRace.cs:83-92) are plain field reads. `MaleUnitProfile` and `FemaleUnitProfile` are functions over the `*Ref` fields and have no contract of their own.
- The C# lists are shared, mutable objects, and the setters can make two owners alias one list. The model keeps each list as a sequence value, so it does not capture aliasing or in-place changes made through another reference.
- SetOnHitEffectList, SetDefaultHitEffectList, SetEquipmentList, SetPrimaryStats, SetCapabilities and SetupScriptableObjects: the model assumes the on-hit, default-hit and equipment lists, the primary stats and the capabilities are never null. In the source these setters accept null, and the pass then throws a NullReferenceException at the first resolved name of such a list (CharacterRace.cs:120, 135, 150) or at the stats or capabilities (169, 173), leaving the later fields unlinked. That abort is not modelled. A null power-resource list is harmless, since the pass replaces it first (157).
- `environmentPreview` and its accessor, and the Unity serialisation attributes and header/tooltip metadata, are left out: they carry no link-pass logic.
- Capability merging, de-duplication and level gating are left out because the code does not implement them.
- The minimap editor wizard and the faction-change panel are left out: they are editor and UI code.
