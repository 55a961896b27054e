/** The character session: the one mutable character state. The attribute
    and skill records live in arrays updated in place at an index; the class
    selection is a single nullable slot. */
module CharacterSession {

  import opened Options
  import opened AttributeStore
  import opened SkillStore
  import opened ClassCatalog

  /** The document handed to persistence: the two stores as they are. Skill
      totals are derived and not part of it. */
  datatype CharacterDocument = CharacterDocument(attributes: seq<Attribute>, skills: seq<Skill>)

  class Character {
    const attributes: array<Attribute>
    const skills: array<Skill>
    var selectedClass: Option<string>

    /** The session invariant: every modifier agrees with its value, and no
        attribute value or skill base value is below 0. */
    ghost predicate Valid()
      reads this, attributes, skills
    {
      AllConsistent(attributes[..]) && AllSkillsValid(skills[..])
    }

    /** A fresh sheet: every configured attribute at 10 with modifier 0, every
        configured skill at base value 0, no class selected. */
    constructor (attributeList: seq<string>, skillList: seq<SkillDef>)
      ensures Valid()
      ensures fresh(attributes) && fresh(skills)
      ensures attributes[..] == InitialAttributes(attributeList)
      ensures skills[..] == InitialSkills(skillList)
      ensures selectedClass == None
    {
      attributes := new Attribute[|attributeList|](i requires 0 <= i < |attributeList| =>
        Attribute(attributeList[i], InitialValue, 0));
      skills := new Skill[|skillList|](i requires 0 <= i < |skillList| =>
        Skill(skillList[i].name, 0, skillList[i].attributeModifier));
      selectedClass := None;
      new;
      assert attributes[..] == InitialAttributes(attributeList);
      assert skills[..] == InitialSkills(skillList);
    }

    /** `+` on the attribute at `index`. */
    method HandleIncrease(index: nat)
      requires index < attributes.Length
      modifies attributes
      ensures old(Valid()) ==> Valid()
      ensures attributes[..] == Increased(old(attributes[..]), index)
    {
      var a := attributes[index];
      var v := a.value + 1;
      attributes[index] := Attribute(a.name, v, ModifierOf(v));
      assert attributes[..] == Increased(old(attributes[..]), index);
      if old(Valid()) { IncreasePreservesConsistency(old(attributes[..]), index); }
    }

    /** `-` on the attribute at `index`; at 0 nothing is written at all. */
    method HandleDecrease(index: nat)
      requires index < attributes.Length
      modifies attributes
      ensures old(Valid()) ==> Valid()
      ensures attributes[..] == Decreased(old(attributes[..]), index)
      ensures old(attributes[index].value) <= 0 ==> unchanged(attributes)
    {
      var a := attributes[index];
      if a.value > 0 {
        var v := a.value - 1;
        attributes[index] := Attribute(a.name, v, ModifierOf(v));
        assert attributes[..] == Decreased(old(attributes[..]), index);
        if old(Valid()) { DecreasePreservesConsistency(old(attributes[..]), index); }
      }
    }

    /** A click on the button of `className`. */
    method ToggleClassDetails(className: string)
      modifies this`selectedClass
      ensures selectedClass == Toggled(old(selectedClass), className)
      ensures Valid() == old(Valid())
    {
      selectedClass := if selectedClass == Some(className) then None else Some(className);
    }

    /** `+` on the skill at `index`; the attributes are not touched. */
    method IncreaseSkill(index: nat)
      requires index < skills.Length
      modifies skills
      ensures old(Valid()) ==> Valid()
      ensures skills[..] == SkillIncreased(old(skills[..]), index)
      ensures unchanged(attributes)
    {
      var s := skills[index];
      skills[index] := Skill(s.name, s.baseValue + 1, s.governing);
      assert skills[..] == SkillIncreased(old(skills[..]), index);
      if old(Valid()) { SkillUpdatesPreserveValidity(old(skills[..]), index); }
    }

    /** `-` on the skill at `index`; at 0 nothing is written at all. */
    method DecreaseSkill(index: nat)
      requires index < skills.Length
      modifies skills
      ensures old(Valid()) ==> Valid()
      ensures skills[..] == SkillDecreased(old(skills[..]), index)
      ensures old(skills[index].baseValue) <= 0 ==> unchanged(skills)
      ensures unchanged(attributes)
    {
      var s := skills[index];
      if s.baseValue > 0 {
        skills[index] := Skill(s.name, s.baseValue - 1, s.governing);
        assert skills[..] == SkillDecreased(old(skills[..]), index);
        if old(Valid()) { SkillUpdatesPreserveValidity(old(skills[..]), index); }
      }
    }

    /** The document that a save submits: a copy of both stores. From a valid
        sheet every saved modifier is floor((value - 10) / 2) of its saved
        value and no saved value or base value is negative, so the modifiers
        can be recomputed from the saved values alone. */
    method Document() returns (doc: CharacterDocument)
      ensures doc.attributes == attributes[..] && doc.skills == skills[..]
      ensures Valid() ==> AllConsistent(doc.attributes) && AllSkillsValid(doc.skills)
    {
      doc := CharacterDocument(attributes[..], skills[..]);
    }
  }

  /** Two `+` clicks on Dexterity take it to 12 with modifier 1, so a
      Dexterity skill with base value 3 totals 4. */
  method DexterityScenario()
  {
    var c := new Character(["Strength", "Dexterity"], [SkillDef("Acrobatics", "Dexterity")]);
    c.IncreaseSkill(0);
    c.IncreaseSkill(0);
    c.IncreaseSkill(0);
    assert Total(c.attributes[..], c.skills[0]) == 3;
    c.HandleIncrease(1);
    c.HandleIncrease(1);
    assert c.attributes[1] == Attribute("Dexterity", 12, 1);
    assert Total(c.attributes[..], c.skills[0]) == 4;
  }

  /** A class needing Strength 12 is closed at Strength 10 and open after
      three `+` clicks on Strength; a class with no requirements is always
      open. */
  method StrengthScenario()
  {
    var c := new Character(["Strength", "Dexterity"], []);
    var req := map["Strength" := 12];
    assert "Strength" in req && !Satisfies(c.attributes[..], "Strength", req["Strength"]);
    assert !MeetsRequirements(c.attributes[..], req);
    c.HandleIncrease(0);
    c.HandleIncrease(0);
    c.HandleIncrease(0);
    assert c.attributes[0].value == 13;
    assert MeetsRequirements(c.attributes[..], req);
    assert MeetsRequirements(c.attributes[..], map[]);
  }

}
