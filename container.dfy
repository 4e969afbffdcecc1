/**
 * The records the two passes share: a collected signature (`TealFunction`)
 * and a scratch slot of the function being lowered (`Variable`).
 */
module Container {
  import opened Wrappers
  import opened PyAst

  /** One positional-only parameter and its resolved type. */
  datatype Param = Param(name: string, ptype: TealType)

  /** `TealFunction(arguments, return)`: the parameters in declaration order and the return type. */
  datatype Signature = Signature(arguments: seq<Param>, ret: TealType)

  /** Looks a parameter up by name, as a lookup in the argument dictionary does. */
  function ArgType(ps: seq<Param>, name: string): (r: Option<TealType>)
    ensures r.None? <==> forall i | 0 <= i < |ps| :: ps[i].name != name
    ensures r.Some? ==> exists i | 0 <= i < |ps| :: ps[i].name == name && ps[i].ptype == r.value
  {
    if ps == [] then None
    else if ps[0].name == name then Some(ps[0].ptype)
    else
      var r := ArgType(ps[1..], name);
      assert forall i | 1 <= i < |ps| :: ps[i] == ps[1..][i - 1];
      r
  }

  /** A scratch slot (`Variable`): the assigned name, its type, and the
      `name = ScratchVar(TealType.<type>)` declaration made for it. */
  datatype Slot = Slot(name: string, stype: TealType, decl: Node)

  /** The type of the slot called `name`, if there is one. */
  function SlotType(slots: seq<Slot>, name: string): (r: Option<TealType>)
    ensures r.None? <==> forall i | 0 <= i < |slots| :: slots[i].name != name
    ensures r.Some? ==> exists i | 0 <= i < |slots| :: slots[i].name == name && slots[i].stype == r.value
  {
    if slots == [] then None
    else if slots[0].name == name then Some(slots[0].stype)
    else
      var r := SlotType(slots[1..], name);
      assert forall i | 1 <= i < |slots| :: slots[i] == slots[1..][i - 1];
      r
  }

  /** The slot table is keyed by name: no name has two slots. */
  predicate DistinctNames(slots: seq<Slot>)
  {
    forall i, j | 0 <= i < j < |slots| :: slots[i].name != slots[j].name
  }

  /** With distinct names, the type found is the type of the one slot of that name. */
  lemma SlotTypeUnique(slots: seq<Slot>, k: nat)
    requires DistinctNames(slots) && k < |slots|
    ensures SlotType(slots, slots[k].name) == Some(slots[k].stype)
  {
    var r := SlotType(slots, slots[k].name);
    var i :| 0 <= i < |slots| && slots[i].name == slots[k].name && slots[i].stype == r.value;
    assert i == k;
  }

  /** Appending to a slot table leaves earlier slots' types as they were. */
  lemma SlotTypeExtend(slots: seq<Slot>, more: seq<Slot>, name: string)
    requires SlotType(slots, name).Some?
    ensures SlotType(slots + more, name) == SlotType(slots, name)
    decreases |slots|
  {
    if slots[0].name != name {
      assert (slots + more)[1..] == slots[1..] + more;
      SlotTypeExtend(slots[1..], more, name);
    }
  }

  /** Appending the slot of a name that has none yet: that name is then found with
      the new slot's type, and every other name is found as before. */
  lemma {:induction false} SlotTypeAppend(slots: seq<Slot>, s: Slot, name: string)
    requires SlotType(slots, s.name).None?
    ensures name == s.name ==> SlotType(slots + [s], name) == Some(s.stype)
    ensures name != s.name ==> SlotType(slots + [s], name) == SlotType(slots, name)
    decreases |slots|
  {
    if slots == [] {
      assert slots + [s] == [s];
      assert [s][1..] == [];
    } else {
      assert (slots + [s])[0] == slots[0];
      assert (slots + [s])[1..] == slots[1..] + [s];
      if slots[0].name != name {
        SlotTypeAppend(slots[1..], s, name);
      }
    }
  }

  /** A slot present in a table keeps its type in every extension of the table. */
  lemma SlotTypePrefix(slots: seq<Slot>, longer: seq<Slot>, name: string)
    requires slots <= longer && SlotType(slots, name).Some?
    ensures SlotType(longer, name) == SlotType(slots, name)
  {
    assert longer == slots + longer[|slots|..];
    SlotTypeExtend(slots, longer[|slots|..], name);
  }
}
