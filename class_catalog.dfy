/** Class eligibility and the one-slot class selection. A class's
    requirements map attribute names to minimum values; the catalogue itself
    is configuration and is taken as a parameter. */
module ClassCatalog {

  import opened Options
  import opened AttributeStore

  /** The minimum value per attribute name that a class demands. */
  type Requirements = map<string, int>

  /** Some attribute carries the name, and the first such attribute has at
      least the given value. A missing attribute fails. */
  predicate Satisfies(attrs: seq<Attribute>, name: string, minValue: int)
  {
    match Find(attrs, name)
    case None => false
    case Some(i) => attrs[i].value >= minValue
  }

  /** Every requirement entry is satisfied. Stated without the lookup:
      for each required name the first attribute with that name exists and
      meets the minimum. An empty requirement set is always met. */
  function MeetsRequirements(attrs: seq<Attribute>, req: Requirements): (ok: bool)
    ensures req == map[] ==> ok
    ensures ok <==> forall name :: name in req ==>
                      exists i :: 0 <= i < |attrs| && attrs[i].name == name
                                  && NoneNamedBefore(attrs, name, i) && attrs[i].value >= req[name]
  {
    forall name :: name in req ==> Satisfies(attrs, name, req[name])
  }

  /** A required attribute that the character does not have fails the class. */
  lemma MissingAttributeFails(attrs: seq<Attribute>, req: Requirements, name: string)
    requires name in req && NoneNamedBefore(attrs, name, |attrs|)
    ensures !MeetsRequirements(attrs, req)
  {
    assert !Satisfies(attrs, name, req[name]);
  }

  /** With unique attribute names (as the configured attribute list has),
      eligibility is simply: each required attribute exists with a value at
      least the minimum. */
  lemma MeetsWithUniqueNames(attrs: seq<Attribute>, req: Requirements)
    requires forall i, j :: 0 <= i < j < |attrs| ==> attrs[i].name != attrs[j].name
    ensures MeetsRequirements(attrs, req) <==>
              forall name :: name in req ==>
                exists i :: 0 <= i < |attrs| && attrs[i].name == name && attrs[i].value >= req[name]
  {
    if !MeetsRequirements(attrs, req) {
      var name :| name in req && !Satisfies(attrs, name, req[name]);
      if i :| 0 <= i < |attrs| && attrs[i].name == name && attrs[i].value >= req[name] {
        assert false;
      }
    }
  }

  /** Attributes not named in the requirements do not affect eligibility:
      two stores with the same names that agree on the values of the required
      attributes are eligible alike. */
  lemma {:induction false} UnrequiredAttributesIrrelevant(a: seq<Attribute>, b: seq<Attribute>, req: Requirements)
    requires SameNames(a, b)
    requires forall i :: 0 <= i < |a| && a[i].name in req ==> a[i].value == b[i].value
    ensures MeetsRequirements(a, req) == MeetsRequirements(b, req)
  {
    forall name | name in req
      ensures Satisfies(a, name, req[name]) == Satisfies(b, name, req[name])
    {
      FindSameNames(a, b, name);
    }
  }

  /** Raising an attribute never makes a class unavailable. */
  lemma {:induction false} IncreaseKeepsEligibility(attrs: seq<Attribute>, index: nat, req: Requirements)
    requires index < |attrs| && MeetsRequirements(attrs, req)
    ensures MeetsRequirements(Increased(attrs, index), req)
  {
    var r := Increased(attrs, index);
    forall name | name in req ensures Satisfies(r, name, req[name]) {
      FindSameNames(attrs, r, name);
      assert Satisfies(attrs, name, req[name]);
    }
  }

  /** Lowering an attribute that no requirement names leaves eligibility as
      it was. */
  lemma DecreaseOfUnrequiredKeepsEligibility(attrs: seq<Attribute>, index: nat, req: Requirements)
    requires index < |attrs| && attrs[index].name !in req
    ensures MeetsRequirements(Decreased(attrs, index), req) == MeetsRequirements(attrs, req)
  {
    UnrequiredAttributesIrrelevant(attrs, Decreased(attrs, index), req);
  }

  /** The selection after clicking the button of `className`: clicking the
      selected class clears the selection, any other click selects it. */
  function Toggled(selected: Option<string>, className: string): (r: Option<string>)
    ensures r == Some(className) <==> selected != Some(className)
    ensures r.None? <==> selected == Some(className)
  {
    if selected == Some(className) then None else Some(className)
  }

  /** Two clicks on the same class restore the selection when nothing or that
      same class was selected; when another class was selected they clear it. */
  lemma ToggleTwice(selected: Option<string>, className: string)
    ensures Toggled(Toggled(selected, className), className)
            == if selected.None? || selected == Some(className) then selected else None
  {
  }

  /** A concrete case in which two clicks do not restore the selection. */
  lemma ToggleTwiceCanClearAnotherSelection()
    ensures Toggled(Toggled(Some("Wizard"), "Barbarian"), "Barbarian") != Some("Wizard")
  {
  }

}
