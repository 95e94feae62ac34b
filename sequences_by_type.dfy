/**
 * StatSequenceByInteractionType: no base of its own, one filter sequence per
 * interaction type, through which values of that type are passed (a
 * resistance per damage type, say).  Interaction type `t` is the index `t`
 * into the sequences.
 */
module SequencesByType {
  import opened Wrappers
  import opened Filters
  import opened Depletions

  class StatSequenceByInteractionType {
    const sequences: seq<FilterSequence>

    ghost function Repr(): set<object> {
      set s | s in sequences
    }

    /** The pipeline of each interaction type. */
    ghost function Snapshot(): seq<Pipeline>
      reads Repr()
    {
      Models(sequences)
    }

    ghost function TypeCount(): nat {
      |sequences|
    }

    ghost predicate Valid()
      reads Repr()
    {
      Unshared(sequences) && forall s :: s in sequences ==> s.Valid()
    }

    /** A blank sequence for each of the `typeCount` interaction types. */
    constructor(typeCount: nat)
      ensures Valid() && fresh(Repr()) && TypeCount() == typeCount
      ensures Snapshot() == seq(typeCount, _ => Empty())
    {
      var ss := NewSequences(typeCount);
      sequences := ss;
    }

    /** Passes `valueToFilter` through the sequence of its interaction type. */
    method GetStatFiltered(valueToFilter: int, t: nat) returns (filtered: int)
      requires Valid() && t < TypeCount()
      ensures filtered == Apply(Snapshot()[t], valueToFilter)
    {
      filtered := sequences[t].ApplyFilters(valueToFilter);
    }

    method GetStatFilterOrder(t: nat) returns (o: Order)
      requires Valid() && t < TypeCount()
      ensures o == Snapshot()[t].order
    {
      o := sequences[t].GetFilterOrder();
    }

    method SetStatFilterOrder(newOrder: Order, t: nat)
      requires Valid() && t < TypeCount()
      modifies sequences[t]
      ensures Valid()
      ensures Snapshot() == old(Snapshot())[t := old(Snapshot())[t].(order := newOrder)]
    {
      sequences[t].SetFilterOrder(newOrder);
    }

    method SetAfterFilterRounding(newRounding: Rounding, t: nat)
      requires Valid() && t < TypeCount()
      modifies sequences[t]
      ensures Valid()
      ensures Snapshot() == old(Snapshot())[t := old(Snapshot())[t].(rounding := newRounding)]
    {
      sequences[t].SetAfterFilterRounding(newRounding);
    }

    method GetAfterFilterRounding(t: nat) returns (r: Rounding)
      requires Valid() && t < TypeCount()
      ensures r == Snapshot()[t].rounding
    {
      r := sequences[t].GetAfterFilterRounding();
    }

    method AddStatFilter(filter: Option<Filter>, t: nat, secondsUntilRemove: real := 0.0) returns (ok: bool)
      requires Valid() && t < TypeCount()
      modifies sequences[t]
      ensures Valid()
      ensures ok <==> old(Snapshot())[t].Accepts(filter)
      ensures Snapshot() == old(Snapshot())[t := old(Snapshot())[t].AddFilter(filter)]
    {
      ghost var a := Snapshot();
      ok := sequences[t].AddFilter(filter);
      assert Snapshot() == a[t := a[t].AddFilter(filter)];
    }

    method RemoveStatFilter(name: string, t: nat) returns (ok: bool)
      requires Valid() && t < TypeCount()
      modifies sequences[t]
      ensures Valid()
      ensures ok <==> name in old(Snapshot())[t].Names()
      ensures Snapshot() == old(Snapshot())[t := old(Snapshot())[t].Remove(name)]
    {
      ghost var a := Snapshot();
      ok := sequences[t].RemoveFilter(name);
      assert Snapshot() == a[t := a[t].Remove(name)];
    }

    method HasStatFilter(name: string, t: nat) returns (b: bool)
      requires Valid() && t < TypeCount()
      ensures b <==> name in Snapshot()[t].Names()
    {
      b := sequences[t].HasFilter(name);
    }
  }
}
