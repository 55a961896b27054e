/** The skill store: an ordered sequence of skills, each with a base value
    and the name of its governing attribute. A skill's total is derived from
    the attribute store on every read and never stored. */
module SkillStore {

  import opened Options
  import opened AttributeStore

  /** One configured skill: its name and the name of the attribute whose
      modifier it uses (the configuration calls that `attributeModifier`). */
  datatype SkillDef = SkillDef(name: string, attributeModifier: string)

  /** One skill record `{name, baseValue, modifier}`; the record's `modifier`
      holds the governing attribute's NAME, here called `governing`. */
  datatype Skill = Skill(name: string, baseValue: int, governing: string)

  /** The skill invariant: the base value never goes below the floor of 0. */
  predicate AllSkillsValid(skills: seq<Skill>)
  {
    forall i :: 0 <= i < |skills| ==> skills[i].baseValue >= 0
  }

  /** The two sequences hold the same skill names and governing attributes at
      the same positions. */
  predicate SameBindings(a: seq<Skill>, b: seq<Skill>)
  {
    |a| == |b| && forall i :: 0 <= i < |a| ==> a[i].name == b[i].name && a[i].governing == b[i].governing
  }

  /** The initial store: one skill per configured skill, in order, at base
      value 0 and bound to its configured attribute. */
  function InitialSkills(defs: seq<SkillDef>): (r: seq<Skill>)
    ensures |r| == |defs|
    ensures forall i :: 0 <= i < |defs| ==> r[i] == Skill(defs[i].name, 0, defs[i].attributeModifier)
    ensures AllSkillsValid(r)
  {
    if defs == [] then []
    else [Skill(defs[0].name, 0, defs[0].attributeModifier)] + InitialSkills(defs[1..])
  }

  /** The store after `+` on the skill at `index`. */
  function SkillIncreased(skills: seq<Skill>, index: nat): (r: seq<Skill>)
    requires index < |skills|
    ensures SameBindings(skills, r)
    ensures r[index].baseValue == skills[index].baseValue + 1
    ensures forall j :: 0 <= j < |skills| && j != index ==> r[j] == skills[j]
  {
    skills[index := skills[index].(baseValue := skills[index].baseValue + 1)]
  }

  /** The store after `-` on the skill at `index`: above 0 the base value goes
      down by one, at 0 or below the store is left as it was. */
  function SkillDecreased(skills: seq<Skill>, index: nat): (r: seq<Skill>)
    requires index < |skills|
    ensures SameBindings(skills, r)
    ensures skills[index].baseValue <= 0 ==> r == skills
    ensures skills[index].baseValue > 0 ==> r[index].baseValue == skills[index].baseValue - 1
    ensures forall j :: 0 <= j < |skills| && j != index ==> r[j] == skills[j]
  {
    if skills[index].baseValue > 0
    then skills[index := skills[index].(baseValue := skills[index].baseValue - 1)]
    else skills
  }

  /** Both skill updates keep every base value at or above 0. */
  lemma SkillUpdatesPreserveValidity(skills: seq<Skill>, index: nat)
    requires index < |skills| && AllSkillsValid(skills)
    ensures AllSkillsValid(SkillIncreased(skills, index))
    ensures AllSkillsValid(SkillDecreased(skills, index))
  {
  }

  /** Decreasing a skill at 0 is a no-op, so repeating it changes nothing. */
  lemma SkillDecreaseAtZeroIdempotent(skills: seq<Skill>, index: nat)
    requires index < |skills| && skills[index].baseValue == 0
    ensures SkillDecreased(skills, index) == skills
    ensures SkillDecreased(SkillDecreased(skills, index), index) == skills
  {
  }

  /** `-` undoes `+` on a skill, and `+` undoes `-` above the floor. */
  lemma SkillIncreaseDecreaseInverse(skills: seq<Skill>, index: nat)
    requires index < |skills| && skills[index].baseValue >= 0
    ensures SkillDecreased(SkillIncreased(skills, index), index) == skills
    ensures skills[index].baseValue > 0 ==> SkillIncreased(SkillDecreased(skills, index), index) == skills
  {
    assert SkillDecreased(SkillIncreased(skills, index), index)[index] == skills[index];
    if skills[index].baseValue > 0 {
      assert SkillIncreased(SkillDecreased(skills, index), index)[index] == skills[index];
    }
  }

  /** A skill's total: its base value plus the lenient modifier of its
      governing attribute, so an unknown attribute contributes 0. */
  function Total(attrs: seq<Attribute>, skill: Skill): (r: int)
    ensures NoneNamedBefore(attrs, skill.governing, |attrs|) ==> r == skill.baseValue
    ensures forall i :: 0 <= i < |attrs| && attrs[i].name == skill.governing
                        && NoneNamedBefore(attrs, skill.governing, i)
                        ==> r == skill.baseValue + attrs[i].modifier
  {
    skill.baseValue + AttributeModifier(attrs, skill.governing)
  }

  /** On a consistent attribute store the total is the base value plus
      floor((value - 10) / 2) of the governing attribute's current value. */
  lemma TotalFromValue(attrs: seq<Attribute>, skill: Skill)
    requires AllConsistent(attrs)
    ensures Total(attrs, skill)
            == skill.baseValue + match Find(attrs, skill.governing)
                                 case None => 0
                                 case Some(i) => ModifierOf(attrs[i].value)
  {
  }

  /** The total is derived on read, so `+` on an attribute shows up in the
      total of every skill it governs, and in no other total. */
  lemma TotalAfterIncrease(attrs: seq<Attribute>, index: nat, skill: Skill)
    requires index < |attrs|
    ensures Total(Increased(attrs, index), skill)
            == if Find(attrs, skill.governing) == Some(index)
               then skill.baseValue + ModifierOf(attrs[index].value + 1)
               else Total(attrs, skill)
  {
    ModifierAfterIncrease(attrs, index, skill.governing);
  }

  /** The same for `-` on an attribute. */
  lemma TotalAfterDecrease(attrs: seq<Attribute>, index: nat, skill: Skill)
    requires index < |attrs|
    ensures Total(Decreased(attrs, index), skill)
            == if Find(attrs, skill.governing) == Some(index) && attrs[index].value > 0
               then skill.baseValue + ModifierOf(attrs[index].value - 1)
               else Total(attrs, skill)
  {
    ModifierAfterDecrease(attrs, index, skill.governing);
  }

}
