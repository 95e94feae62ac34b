/**
 * IntConstFiltered and IntFiltered: an integer base, a filter sequence of its
 * own and a cached filtered value.  The sequence reports every change (a new
 * order, a new rounding, a filter added or removed) and the cache is then
 * recomputed and the observer alerted.
 */
module FilteredInts {
  import opened Wrappers
  import opened Filters

  /** What a filtered integer stands for: a base and the pipeline it is run through. */
  datatype FilteredValue = FilteredValue(base: int, pipeline: Pipeline)
  {
    function Value(): int {
      Apply(pipeline, base)
    }
  }

  /** A fresh filtered integer is worth its base, whatever the base. */
  lemma FreshValueIsBase(b: int)
    ensures FilteredValue(b, Empty()).Value() == b
  {
    EmptyIsIdentity(DEFAULT_ORDER, DEFAULT_ROUNDING, b);
  }

  /** Adding a filter and removing it again gives back the filtered value it had. */
  lemma AddThenRemoveRestoresValue(v: FilteredValue, f: Filter)
    requires v.pipeline.Valid() && v.pipeline.Accepts(Some(f))
    ensures v.(pipeline := v.pipeline.AddFilter(Some(f)).Remove(f.name)).Value() == v.Value()
  {
    AddThenRemove(v.pipeline, f);
  }

  /** A filtered integer whose base is fixed at construction. */
  class IntConstFiltered {
    const filterSequence: FilterSequence
    const baseInt: int
    var filteredInt: int
    /** The filtered values the observer has been alerted with, oldest first. */
    ghost var alerts: seq<int>

    ghost function Repr(): set<object> {
      {this, filterSequence}
    }

    ghost function Snapshot(): FilteredValue
      reads filterSequence
    {
      FilteredValue(baseInt, filterSequence.Model())
    }

    /** The cache always holds the base run through the current sequence. */
    ghost predicate Valid()
      reads this, filterSequence
    {
      filterSequence.Valid() && filteredInt == Snapshot().Value()
    }

    constructor(baseInt: int)
      ensures Valid() && fresh(Repr()) && alerts == []
      ensures this.baseInt == baseInt && filteredInt == baseInt
      ensures Snapshot() == FilteredValue(baseInt, Empty())
    {
      this.baseInt := baseInt;
      filteredInt := baseInt;
      filterSequence := new FilterSequence();
      alerts := [];
      new;
      FreshValueIsBase(baseInt);
    }

    method GetFilteredInt() returns (r: int)
      requires Valid()
      ensures r == Snapshot().Value()
    {
      r := filteredInt;
    }

    method GetBaseInt() returns (r: int)
      ensures r == baseInt
    {
      r := baseInt;
    }

    /** The sequence's change notification: recompute the cache, then alert the observer. */
    method UpdateFilteredConstInt()
      requires filterSequence.Valid()
      modifies this
      ensures Valid() && alerts == old(alerts) + [filteredInt]
    {
      filteredInt := filterSequence.ApplyFilters(baseInt);
      alerts := alerts + [filteredInt];
    }

    method SetFilterOrder(newOrder: Order)
      requires Valid()
      modifies Repr()
      ensures Valid() && alerts == old(alerts) + [filteredInt]
      ensures Snapshot() == old(Snapshot()).(pipeline := old(Snapshot()).pipeline.(order := newOrder))
    {
      filterSequence.SetFilterOrder(newOrder);
      UpdateFilteredConstInt();
    }

    method GetFilterOrder() returns (o: Order)
      requires Valid()
      ensures o == Snapshot().pipeline.order
    {
      o := filterSequence.GetFilterOrder();
    }

    method SetAfterFilterRounding(newRounding: Rounding)
      requires Valid()
      modifies Repr()
      ensures Valid() && alerts == old(alerts) + [filteredInt]
      ensures Snapshot() == old(Snapshot()).(pipeline := old(Snapshot()).pipeline.(rounding := newRounding))
    {
      filterSequence.SetAfterFilterRounding(newRounding);
      UpdateFilteredConstInt();
    }

    method GetAfterFilterRounding() returns (r: Rounding)
      requires Valid()
      ensures r == Snapshot().pipeline.rounding
    {
      r := filterSequence.GetAfterFilterRounding();
    }

    /** Returns what the sequence returns; the cache follows the sequence. */
    method AddFilter(filter: Option<Filter>, secondsUntilRemove: real := 0.0) returns (ok: bool)
      requires Valid()
      modifies Repr()
      ensures Valid()
      ensures ok <==> old(Snapshot()).pipeline.Accepts(filter)
      ensures Snapshot() == old(Snapshot()).(pipeline := old(Snapshot()).pipeline.AddFilter(filter))
      ensures ok ==> alerts == old(alerts) + [filteredInt]
      ensures !ok ==> alerts == old(alerts)
    {
      ok := filterSequence.AddFilter(filter);
      if ok {
        UpdateFilteredConstInt();
      }
    }

    method RemoveFilter(name: string) returns (ok: bool)
      requires Valid()
      modifies Repr()
      ensures Valid()
      ensures ok <==> name in old(Snapshot()).pipeline.Names()
      ensures Snapshot() == old(Snapshot()).(pipeline := old(Snapshot()).pipeline.Remove(name))
      ensures ok ==> alerts == old(alerts) + [filteredInt]
      ensures !ok ==> alerts == old(alerts)
    {
      ghost var before := Snapshot();
      ok := filterSequence.RemoveFilter(name);
      assert Snapshot() == before.(pipeline := before.pipeline.Remove(name));
      if ok {
        UpdateFilteredConstInt();
      }
    }

    method HasFilter(name: string) returns (b: bool)
      requires Valid()
      ensures b <==> name in Snapshot().pipeline.Names()
    {
      b := filterSequence.HasFilter(name);
    }
  }

  /**
   * A filtered integer whose base can be replaced.  Setting the base
   * recomputes the cache and returns the new filtered value.
   */
  class IntFiltered {
    const filterSequence: FilterSequence
    var baseInt: int
    var filteredInt: int
    /** The filtered values the observer has been alerted with, oldest first. */
    ghost var alerts: seq<int>

    ghost function Repr(): set<object> {
      {this, filterSequence}
    }

    ghost function Snapshot(): FilteredValue
      reads this, filterSequence
    {
      FilteredValue(baseInt, filterSequence.Model())
    }

    /** The cache always holds the current base run through the current sequence. */
    ghost predicate Valid()
      reads this, filterSequence
    {
      filterSequence.Valid() && filteredInt == Snapshot().Value()
    }

    constructor(baseInt: int)
      ensures Valid() && fresh(Repr()) && alerts == []
      ensures filteredInt == baseInt
      ensures Snapshot() == FilteredValue(baseInt, Empty())
    {
      this.baseInt := baseInt;
      filteredInt := baseInt;
      filterSequence := new FilterSequence();
      alerts := [];
      new;
      FreshValueIsBase(baseInt);
    }

    method GetFilteredInt() returns (r: int)
      requires Valid()
      ensures r == Snapshot().Value()
    {
      r := filteredInt;
    }

    method GetBaseInt() returns (r: int)
      requires Valid()
      ensures r == Snapshot().base
    {
      r := baseInt;
    }

    /** Replaces the base and returns the new filtered value. */
    method SetBaseInt(newBase: int) returns (filtered: int)
      requires Valid()
      modifies Repr()
      ensures Valid() && alerts == old(alerts) + [filtered]
      ensures Snapshot() == old(Snapshot()).(base := newBase)
      ensures filtered == Snapshot().Value()
    {
      baseInt := newBase;
      UpdateFilteredInt();
      filtered := filteredInt;
    }

    /** The sequence's change notification: recompute the cache, then alert the observer. */
    method UpdateFilteredInt()
      requires filterSequence.Valid()
      modifies this
      ensures Valid() && alerts == old(alerts) + [filteredInt]
      ensures baseInt == old(baseInt)
    {
      filteredInt := filterSequence.ApplyFilters(baseInt);
      alerts := alerts + [filteredInt];
    }

    method SetFilterOrder(newOrder: Order)
      requires Valid()
      modifies Repr()
      ensures Valid() && alerts == old(alerts) + [filteredInt]
      ensures Snapshot() == old(Snapshot()).(pipeline := old(Snapshot()).pipeline.(order := newOrder))
    {
      filterSequence.SetFilterOrder(newOrder);
      UpdateFilteredInt();
    }

    method GetFilterOrder() returns (o: Order)
      requires Valid()
      ensures o == Snapshot().pipeline.order
    {
      o := filterSequence.GetFilterOrder();
    }

    method SetAfterFilterRounding(newRounding: Rounding)
      requires Valid()
      modifies Repr()
      ensures Valid() && alerts == old(alerts) + [filteredInt]
      ensures Snapshot() == old(Snapshot()).(pipeline := old(Snapshot()).pipeline.(rounding := newRounding))
    {
      filterSequence.SetAfterFilterRounding(newRounding);
      UpdateFilteredInt();
    }

    method GetAfterFilterRounding() returns (r: Rounding)
      requires Valid()
      ensures r == Snapshot().pipeline.rounding
    {
      r := filterSequence.GetAfterFilterRounding();
    }

    method AddFilter(filter: Option<Filter>, secondsUntilRemove: real := 0.0) returns (ok: bool)
      requires Valid()
      modifies Repr()
      ensures Valid()
      ensures ok <==> old(Snapshot()).pipeline.Accepts(filter)
      ensures Snapshot() == old(Snapshot()).(pipeline := old(Snapshot()).pipeline.AddFilter(filter))
      ensures ok ==> alerts == old(alerts) + [filteredInt]
      ensures !ok ==> alerts == old(alerts)
    {
      ok := filterSequence.AddFilter(filter);
      if ok {
        UpdateFilteredInt();
      }
    }

    method RemoveFilter(name: string) returns (ok: bool)
      requires Valid()
      modifies Repr()
      ensures Valid()
      ensures ok <==> name in old(Snapshot()).pipeline.Names()
      ensures Snapshot() == old(Snapshot()).(pipeline := old(Snapshot()).pipeline.Remove(name))
      ensures ok ==> alerts == old(alerts) + [filteredInt]
      ensures !ok ==> alerts == old(alerts)
    {
      ghost var before := Snapshot();
      ok := filterSequence.RemoveFilter(name);
      assert Snapshot() == before.(pipeline := before.pipeline.Remove(name));
      if ok {
        UpdateFilteredInt();
      }
    }

    method HasFilter(name: string) returns (b: bool)
      requires Valid()
      ensures b <==> name in Snapshot().pipeline.Names()
    {
      b := filterSequence.HasFilter(name);
    }
  }
}
