/**
 * StatReference: a stat that is only read, such as a movement speed.  It
 * owns one filtered integer and passes every call through to it.
 */
module References {
  import opened Wrappers
  import opened Filters
  import opened FilteredInts

  class StatReference {
    const stat: IntFiltered

    ghost function Repr(): set<object> {
      {stat, stat.filterSequence}
    }

    /** The base and pipeline of the stat. */
    ghost function Snapshot(): FilteredValue
      reads stat, stat.filterSequence
    {
      stat.Snapshot()
    }

    ghost predicate Valid()
      reads stat, stat.filterSequence
    {
      stat.Valid()
    }

    constructor(statBase: int)
      ensures Valid() && fresh(Repr())
      ensures Snapshot() == FilteredValue(statBase, Empty())
    {
      stat := new IntFiltered(statBase);
    }

    method GetStatBase() returns (b: int)
      requires Valid()
      ensures b == Snapshot().base
    {
      b := stat.GetBaseInt();
    }

    /** Replaces the base and returns the new filtered value. */
    method SetStatBase(newBaseStat: int) returns (filtered: int)
      requires Valid()
      modifies Repr()
      ensures Valid()
      ensures Snapshot() == old(Snapshot()).(base := newBaseStat)
      ensures filtered == Snapshot().Value()
    {
      filtered := stat.SetBaseInt(newBaseStat);
    }

    method GetStatFiltered() returns (filtered: int)
      requires Valid()
      ensures filtered == Snapshot().Value()
    {
      filtered := stat.GetFilteredInt();
    }

    method GetStatFilterOrder() returns (o: Order)
      requires Valid()
      ensures o == Snapshot().pipeline.order
    {
      o := stat.GetFilterOrder();
    }

    method SetStatFilterOrder(newOrder: Order)
      requires Valid()
      modifies Repr()
      ensures Valid()
      ensures Snapshot() == old(Snapshot()).(pipeline := old(Snapshot()).pipeline.(order := newOrder))
    {
      stat.SetFilterOrder(newOrder);
    }

    method SetAfterFilterRounding(newRounding: Rounding)
      requires Valid()
      modifies Repr()
      ensures Valid()
      ensures Snapshot() == old(Snapshot()).(pipeline := old(Snapshot()).pipeline.(rounding := newRounding))
    {
      stat.SetAfterFilterRounding(newRounding);
    }

    method GetAfterFilterRounding() returns (r: Rounding)
      requires Valid()
      ensures r == Snapshot().pipeline.rounding
    {
      r := stat.GetAfterFilterRounding();
    }

    method AddStatFilter(filter: Option<Filter>, secondsUntilRemove: real := 0.0) returns (ok: bool)
      requires Valid()
      modifies Repr()
      ensures Valid()
      ensures ok <==> old(Snapshot()).pipeline.Accepts(filter)
      ensures Snapshot() == old(Snapshot()).(pipeline := old(Snapshot()).pipeline.AddFilter(filter))
    {
      ok := stat.AddFilter(filter, secondsUntilRemove);
    }

    method RemoveStatFilter(name: string) returns (ok: bool)
      requires Valid()
      modifies Repr()
      ensures Valid()
      ensures ok <==> name in old(Snapshot()).pipeline.Names()
      ensures Snapshot() == old(Snapshot()).(pipeline := old(Snapshot()).pipeline.Remove(name))
    {
      ok := stat.RemoveFilter(name);
    }

    method HasStatFilter(name: string) returns (b: bool)
      requires Valid()
      ensures b <==> name in Snapshot().pipeline.Names()
    {
      b := stat.HasFilter(name);
    }
  }
}
