/** The attribute store of the character sheet: an ordered sequence of named
    attributes, each holding a raw value and a stored modifier that is
    recomputed from the value whenever the value changes. */
module AttributeStore {

  import opened Options

  /** One attribute record `{name, value, modifier}`. */
  datatype Attribute = Attribute(name: string, value: int, modifier: int)

  /** The default value every attribute starts at. */
  const InitialValue: int := 10

  /** The modifier derived from a value: floor((value - 10) / 2). Dafny's
      division is Euclidean, which for the divisor 2 is floor division. */
  function ModifierOf(value: int): (m: int)
    ensures 2 * m <= value - 10 < 2 * m + 2
  {
    (value - 10) / 2
  }

  /** The per-attribute invariant: the stored modifier agrees with the value,
      and the value has not gone below the floor of 0. */
  predicate Consistent(a: Attribute)
  {
    a.modifier == ModifierOf(a.value) && a.value >= 0
  }

  predicate AllConsistent(attrs: seq<Attribute>)
  {
    forall i :: 0 <= i < |attrs| ==> Consistent(attrs[i])
  }

  /** The two sequences hold the same names at the same positions. */
  predicate SameNames(a: seq<Attribute>, b: seq<Attribute>)
  {
    |a| == |b| && forall i :: 0 <= i < |a| ==> a[i].name == b[i].name
  }

  /** The initial store: one attribute per configured name, in order, each at
      value 10 with modifier 0. */
  function InitialAttributes(names: seq<string>): (r: seq<Attribute>)
    ensures |r| == |names|
    ensures forall i :: 0 <= i < |names| ==> r[i] == Attribute(names[i], 10, 0)
    ensures AllConsistent(r)
  {
    if names == [] then []
    else [Attribute(names[0], InitialValue, 0)] + InitialAttributes(names[1..])
  }

  /** No attribute before position k carries the given name. */
  predicate NoneNamedBefore(attrs: seq<Attribute>, name: string, k: int)
    requires 0 <= k <= |attrs|
  {
    forall j :: 0 <= j < k ==> attrs[j].name != name
  }

  /** The position of the first attribute with the given name, if any
      (the array `find` of the source). */
  function Find(attrs: seq<Attribute>, name: string): (r: Option<nat>)
    ensures r.Some? ==> r.value < |attrs| && attrs[r.value].name == name
                        && NoneNamedBefore(attrs, name, r.value)
    ensures r.None? ==> NoneNamedBefore(attrs, name, |attrs|)
  {
    if attrs == [] then None
    else if attrs[0].name == name then Some(0)
    else match Find(attrs[1..], name)
      case None => None
      case Some(j) => Some(j + 1)
  }

  /** Lenient modifier lookup: the stored modifier of the first attribute with
      the given name, or 0 when no attribute has that name. */
  function AttributeModifier(attrs: seq<Attribute>, name: string): (r: int)
    ensures NoneNamedBefore(attrs, name, |attrs|) ==> r == 0
    ensures forall i :: 0 <= i < |attrs| && attrs[i].name == name && NoneNamedBefore(attrs, name, i)
                        ==> r == attrs[i].modifier
  {
    match Find(attrs, name)
    case None => 0
    case Some(i) => attrs[i].modifier
  }

  /** The store after the `+` button on the attribute at `index`: its value
      goes up by one and its modifier is recomputed; nothing else changes. */
  function Increased(attrs: seq<Attribute>, index: nat): (r: seq<Attribute>)
    requires index < |attrs|
    ensures SameNames(attrs, r)
    ensures r[index].value == attrs[index].value + 1
    ensures r[index].modifier == ModifierOf(attrs[index].value + 1)
    ensures forall j :: 0 <= j < |attrs| && j != index ==> r[j] == attrs[j]
  {
    var a := attrs[index];
    attrs[index := Attribute(a.name, a.value + 1, ModifierOf(a.value + 1))]
  }

  /** The store after the `-` button on the attribute at `index`: above 0 the
      value goes down by one and its modifier is recomputed; at 0 or below the
      store is left exactly as it was. */
  function Decreased(attrs: seq<Attribute>, index: nat): (r: seq<Attribute>)
    requires index < |attrs|
    ensures SameNames(attrs, r)
    ensures attrs[index].value <= 0 ==> r == attrs
    ensures attrs[index].value > 0 ==> r[index].value == attrs[index].value - 1
                                       && r[index].modifier == ModifierOf(attrs[index].value - 1)
    ensures forall j :: 0 <= j < |attrs| && j != index ==> r[j] == attrs[j]
  {
    var a := attrs[index];
    if a.value > 0 then attrs[index := Attribute(a.name, a.value - 1, ModifierOf(a.value - 1))]
    else attrs
  }

  /** Both updates keep the invariant of every attribute. */
  lemma IncreasePreservesConsistency(attrs: seq<Attribute>, index: nat)
    requires index < |attrs| && AllConsistent(attrs)
    ensures AllConsistent(Increased(attrs, index))
  {
  }

  lemma DecreasePreservesConsistency(attrs: seq<Attribute>, index: nat)
    requires index < |attrs| && AllConsistent(attrs)
    ensures AllConsistent(Decreased(attrs, index))
  {
  }

  /** Decreasing at the floor is a no-op, so repeating it changes nothing. */
  lemma DecreaseAtZeroIdempotent(attrs: seq<Attribute>, index: nat)
    requires index < |attrs| && attrs[index].value == 0
    ensures Decreased(attrs, index) == attrs
    ensures Decreased(Decreased(attrs, index), index) == Decreased(attrs, index)
  {
  }

  /** On a consistent attribute, `-` undoes `+`. */
  lemma DecreaseUndoesIncrease(attrs: seq<Attribute>, index: nat)
    requires index < |attrs| && Consistent(attrs[index])
    ensures Decreased(Increased(attrs, index), index) == attrs
  {
    var r := Decreased(Increased(attrs, index), index);
    assert r[index] == attrs[index];
  }

  /** On a consistent attribute above the floor, `+` undoes `-`. */
  lemma IncreaseUndoesDecrease(attrs: seq<Attribute>, index: nat)
    requires index < |attrs| && Consistent(attrs[index]) && attrs[index].value > 0
    ensures Increased(Decreased(attrs, index), index) == attrs
  {
    var r := Increased(Decreased(attrs, index), index);
    assert r[index] == attrs[index];
  }

  /** The lookup depends only on the names, so updates that keep the names
      keep the position every name is found at. */
  lemma {:induction false} FindSameNames(a: seq<Attribute>, b: seq<Attribute>, name: string)
    requires SameNames(a, b)
    ensures Find(a, name) == Find(b, name)
  {
    if a != [] && a[0].name != name {
      FindSameNames(a[1..], b[1..], name);
    }
  }

  /** After `+` on the attribute at `index`, the lenient lookup of a name
      reflects the new modifier when `index` is where that name is found, and
      is unchanged otherwise. */
  lemma ModifierAfterIncrease(attrs: seq<Attribute>, index: nat, name: string)
    requires index < |attrs|
    ensures AttributeModifier(Increased(attrs, index), name)
            == if Find(attrs, name) == Some(index) then ModifierOf(attrs[index].value + 1)
               else AttributeModifier(attrs, name)
  {
    FindSameNames(attrs, Increased(attrs, index), name);
  }

  /** The same for `-`. */
  lemma ModifierAfterDecrease(attrs: seq<Attribute>, index: nat, name: string)
    requires index < |attrs|
    ensures AttributeModifier(Decreased(attrs, index), name)
            == if Find(attrs, name) == Some(index) && attrs[index].value > 0
               then ModifierOf(attrs[index].value - 1)
               else AttributeModifier(attrs, name)
  {
    FindSameNames(attrs, Decreased(attrs, index), name);
  }

  /** One user edit of the attribute list: a `+` or a `-` click at an index. */
  datatype Edit = Increase(index: nat) | Decrease(index: nat)

  predicate EditsInRange(attrs: seq<Attribute>, edits: seq<Edit>)
  {
    forall k :: 0 <= k < |edits| ==> edits[k].index < |attrs|
  }

  function Apply(attrs: seq<Attribute>, e: Edit): (r: seq<Attribute>)
    requires e.index < |attrs|
    ensures SameNames(attrs, r)
  {
    match e
    case Increase(i) => Increased(attrs, i)
    case Decrease(i) => Decreased(attrs, i)
  }

  /** The store after a whole sequence of edits, applied in order. */
  function ApplyAll(attrs: seq<Attribute>, edits: seq<Edit>): (r: seq<Attribute>)
    requires EditsInRange(attrs, edits)
    ensures SameNames(attrs, r)
    decreases |edits|
  {
    if edits == [] then attrs
    else
      var next := Apply(attrs, edits[0]);
      assert EditsInRange(next, edits[1..]) by {
        forall k | 0 <= k < |edits[1..]| ensures edits[1..][k].index < |next| {
          assert edits[1..][k] == edits[k + 1];
        }
      }
      ApplyAll(next, edits[1..])
  }

  /** After any sequence of `+` and `-` clicks every modifier still equals
      floor((value - 10) / 2) of its value, and no value is negative. */
  lemma {:induction false} EditsPreserveConsistency(attrs: seq<Attribute>, edits: seq<Edit>)
    requires AllConsistent(attrs) && EditsInRange(attrs, edits)
    ensures AllConsistent(ApplyAll(attrs, edits))
    decreases |edits|
  {
    if edits != [] {
      var next := Apply(attrs, edits[0]);
      match edits[0] {
        case Increase(i) => IncreasePreservesConsistency(attrs, i);
        case Decrease(i) => DecreasePreservesConsistency(attrs, i);
      }
      assert EditsInRange(next, edits[1..]) by {
        forall k | 0 <= k < |edits[1..]| ensures edits[1..][k].index < |next| {
          assert edits[1..][k] == edits[k + 1];
        }
      }
      EditsPreserveConsistency(next, edits[1..]);
    }
  }

}
