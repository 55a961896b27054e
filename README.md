# Character sheet rules engine

A Dafny model of the rules engine inside the `Character` component of a
tabletop-RPG character sheet. The component holds three pieces of state:

- an ordered list of attributes `{name, value, modifier}`;
- an ordered list of skills `{name, baseValue, modifier}`, where a skill's
  `modifier` is the NAME of its governing attribute;
- the one class whose requirement details are shown, or none.

It offers `+`/`-` buttons on attributes and skills. It derives a skill's total
and each class's eligibility on every read.

Modules:

- `AttributeStore` (`attribute_store.dfy`): the attribute record and the
  modifier rule `floor((value - 10) / 2)`. Also the initial store, the
  first-match lookup (`find`), the lenient modifier lookup, and the two
  attribute updates as functions on sequences. Lemmas cover the invariant,
  the floor at 0, inverses, and the lookup after an update.
- `SkillStore` (`skill_store.dfy`): the skill record, the initial skills, the
  two skill updates and the derived total.
- `ClassCatalog` (`class_catalog.dfy`): the eligibility check against a
  requirement map, and the one-slot class selection toggle.
- `CharacterSession` (`character_session.dfy`): class `Character`. Its
  attribute and skill arrays are updated in place by index, and
  `selectedClass` is a field. Each attribute and skill update's `ensures`
  ties the new array contents to the matching function of
  `AttributeStore`/`SkillStore`, and says the invariant `Valid()` is kept.
  The class toggle ties the new selection to `Toggled` and leaves `Valid()`
  as it was. Two client methods run through the
  Dexterity and Strength scenarios using only the method contracts.
- `Options` (`options.dfy`): the `Option` datatype.

The configuration lists are parameters: the attribute names, the skills with
their governing attributes, and each class's requirements (a
`map<string, int>`). `Math.floor((v - 10) / 2)` is written `(v - 10) / 2`.
Dafny's division is Euclidean, and with divisor 2 that equals floor division
for negative operands too. `ModifierOf` states this as
`2 * m <= v - 10 < 2 * m + 2`.

Attribute names are not assumed to be unique. Like the source's `find`, every
lookup uses the first attribute with the name. `MeetsWithUniqueNames` gives
the simpler reading for a list whose names are unique.

Facts about the code that shape the model:

- Every update takes an index. An index out of range would throw, so
  `index < length` is a precondition of each update.
- `meetsRequirements` takes the requirement object itself, so the rules
  engine looks no class up by name. The one lookup by name,
  `CLASS_LIST[selectedClass]` (src/Character.tsx:165), is in the rendering.
  It cannot miss, because `selectedClass` only ever holds a class name taken
  from `CLASS_LIST` itself (src/Character.tsx:140, 152).
- Two toggles of the same class restore the previous selection only when
  nothing, or that same class, was selected. If another class was selected,
  the first toggle selects the clicked class and the second clears the
  selection. `ToggleTwice` states the exact outcome, and
  `ToggleTwiceCanClearAnotherSelection` gives a concrete case.

## Model

| member | source | states |
|---|---|---|
| AttributeStore.ModifierOf | src/Character.tsx:46-48 | the modifier m is floor((value-10)/2): 2m <= value-10 < 2m+2 |
| AttributeStore.InitialAttributes | src/Character.tsx:7-13 | one attribute per configured name, in order, each at value 10 with modifier 0; the result satisfies the invariant |
| AttributeStore.Find | src/Character.tsx:72 | the position is the FIRST attribute with that name; None means no attribute has the name |
| AttributeStore.AttributeModifier | src/Character.tsx:71-74 | the stored modifier of the first attribute with the name, and 0 when no attribute has it |
| AttributeStore.Increased | src/Character.tsx:43-50 | value at the index +1, modifier recomputed from the new value; names, length and every other record unchanged |
| AttributeStore.Decreased | src/Character.tsx:52-61 | above 0: value -1 and modifier recomputed, others unchanged; at 0 the store is exactly the old one |
| AttributeStore.IncreasePreservesConsistency | src/Character.tsx:43-50 | `+` keeps modifier == floor((value-10)/2) and value >= 0 for every attribute |
| AttributeStore.DecreasePreservesConsistency | src/Character.tsx:52-61 | `-` keeps modifier == floor((value-10)/2) and value >= 0 for every attribute |
| AttributeStore.DecreaseAtZeroIdempotent | src/Character.tsx:54 | `-` at value 0 leaves the store unchanged, so repeating it changes nothing |
| AttributeStore.DecreaseUndoesIncrease | src/Character.tsx:43-61 | on a consistent attribute, `-` after `+` restores the store exactly |
| AttributeStore.IncreaseUndoesDecrease | src/Character.tsx:43-61 | on a consistent attribute above 0, `+` after `-` restores the store exactly |
| AttributeStore.FindSameNames | src/Character.tsx:72 | the lookup depends only on the names at each position |
| AttributeStore.ModifierAfterIncrease | src/Character.tsx:43-50 | after `+` at i, a name found at i reads the new modifier; every other name reads what it read before |
| AttributeStore.ModifierAfterDecrease | src/Character.tsx:52-61 | the same for `-`, taking the floor at 0 into account |
| AttributeStore.Apply | src/Character.tsx:43-61 | one `+` or `-` click keeps all names and the length |
| AttributeStore.ApplyAll | src/Character.tsx:43-61 | any sequence of clicks keeps all names and the length |
| AttributeStore.EditsPreserveConsistency | src/Character.tsx:43-61 | after any sequence of `+`/`-` clicks every modifier equals floor((value-10)/2) and every value is >= 0 |
| SkillStore.InitialSkills | src/Character.tsx:85-91 | one skill per configured skill, in order, base value 0, bound to its configured attribute name |
| SkillStore.SkillIncreased | src/Character.tsx:93-97 | base value at the index +1; names, governing attributes and every other skill unchanged |
| SkillStore.SkillDecreased | src/Character.tsx:100-106 | above 0: base value -1, others unchanged; at 0 the store is exactly the old one |
| SkillStore.SkillUpdatesPreserveValidity | src/Character.tsx:93-106 | both skill updates keep every base value >= 0 |
| SkillStore.SkillDecreaseAtZeroIdempotent | src/Character.tsx:102 | `-` at base value 0 leaves the skills unchanged, also when repeated |
| SkillStore.SkillIncreaseDecreaseInverse | src/Character.tsx:93-106 | `-` undoes `+`, and above 0 `+` undoes `-` |
| SkillStore.Total | src/Character.tsx:181-182 | base value plus the modifier of the first attribute named by the skill; just the base value when no attribute has that name |
| SkillStore.TotalFromValue | src/Character.tsx:181-182 | on a consistent store the total is base value + floor((value-10)/2) of the governing attribute's current value |
| SkillStore.TotalAfterIncrease | src/Character.tsx:181-182 | after `+` on an attribute, a skill governed by it totals base + the new modifier; other skills' totals are unchanged |
| SkillStore.TotalAfterDecrease | src/Character.tsx:181-182 | the same for `-` on an attribute, with the floor at 0 |
| ClassCatalog.MeetsRequirements | src/Character.tsx:76-83 | true iff for every required name the first attribute with that name exists and has value >= the minimum; true for an empty requirement set |
| ClassCatalog.MissingAttributeFails | src/Character.tsx:78-81 | a required attribute the character lacks makes the class fail |
| ClassCatalog.MeetsWithUniqueNames | src/Character.tsx:76-83 | with unique names, eligible iff each required attribute exists with value >= minimum |
| ClassCatalog.UnrequiredAttributesIrrelevant | src/Character.tsx:76-83 | stores that agree on the required attributes' values are eligible alike |
| ClassCatalog.IncreaseKeepsEligibility | src/Character.tsx:76-83 | `+` on any attribute never makes a met class unmet |
| ClassCatalog.DecreaseOfUnrequiredKeepsEligibility | src/Character.tsx:76-83 | `-` on an attribute that is not required leaves eligibility unchanged |
| ClassCatalog.Toggled | src/Character.tsx:65-69 | the new selection is the class iff it was not already selected, and empty iff it was |
| ClassCatalog.ToggleTwice | src/Character.tsx:65-69 | two toggles of the same class restore an empty or same-class selection and clear a different one |
| ClassCatalog.ToggleTwiceCanClearAnotherSelection | src/Character.tsx:65-69 | a concrete selection that two toggles do not restore |
| CharacterSession.Character.constructor | src/Character.tsx:7-13 | the arrays hold the initial attributes (and the initial skills, lines 85-91); no class selected; the invariant holds |
| CharacterSession.Character.HandleIncrease | src/Character.tsx:43-50 | the attribute array becomes Increased of the old contents; the invariant is kept |
| CharacterSession.Character.HandleDecrease | src/Character.tsx:52-61 | the attribute array becomes Decreased of the old contents, with no write at 0; the invariant is kept |
| CharacterSession.Character.ToggleClassDetails | src/Character.tsx:63-69 | the selection becomes Toggled of the old selection; the invariant is as it was |
| CharacterSession.Character.IncreaseSkill | src/Character.tsx:93-97 | the skill array becomes SkillIncreased of the old contents; attributes untouched; the invariant is kept |
| CharacterSession.Character.DecreaseSkill | src/Character.tsx:99-106 | the skill array becomes SkillDecreased of the old contents, with no write at 0; attributes untouched |
| CharacterSession.Character.Document | src/Character.tsx:19-22 | the saved document is the current attributes and skills, with no totals; from a valid sheet every saved modifier equals floor((value-10)/2) of its saved value and no saved value is negative |

## Left out

- `saveCharacter` (src/Character.tsx:18-41): the HTTP POST, JSON encoding and logging are network I/O. Only the document's shape is modelled, by `Document`.
- Loading a saved document back is not modelled: the code has no load path, so the round trip of a saved sheet is not stated.
- Rendering (src/Character.tsx:108-200) is not modelled. This includes the per-class `qualifies` flag computed while rendering, the requirement listing of the selected class, and the skill-check input and "Roll" button, which have no handlers.
- React state scheduling is not modelled. Each update is an ordinary in-place array write. The shallow copy followed by mutation of the shared element objects (a React aliasing detail) is not modelled.
- The contents of the configuration lists (`ATTRIBUTE_LIST`, `SKILL_LIST`, `CLASS_LIST`) are parameters. The `./consts` and `./types` files are not part of this model.
- src/App.tsx only renders a header and the component. Its unused `num` state is not modelled.
- Values are unbounded integers. JavaScript numbers lose integer precision only past 2^53, far beyond anything a click loop reaches, so this precision limit is not modelled.
