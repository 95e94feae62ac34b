/**
 * StatDepletion: a stat that can be worn down and restored.  A filtered
 * capacity, a running total of depletion, two flags that say whether the
 * total may pass the capacity or drop below zero, and one depletion and one
 * gain filter sequence per interaction type.  The account is first given as
 * a value (Account) with its operations; the class StatDepletion is the
 * mutable object, proved against it.
 */
module Depletions {
  import opened Wrappers
  import opened Filters
  import opened FilteredInts

  /** The two filter-sequence families of an account. */
  datatype Side = DepletionSide | GainSide

  /** Interaction types index the per-type filter sequences; the default type is 0. */
  const DEFAULT_TYPE: nat := 0

  datatype Account = Account(
    capacity: FilteredValue,
    totalDepletion: int,
    canDepletePastZero: bool,
    canGainPastCeiling: bool,
    depletion: seq<Pipeline>,
    gain: seq<Pipeline>)
  {
    /** The filtered capacity of the stat. */
    function Capacity(): int {
      capacity.Value()
    }

    function Sequences(side: Side): seq<Pipeline> {
      match side
      case DepletionSide => depletion
      case GainSide => gain
    }

    function WithSequences(side: Side, ps: seq<Pipeline>): Account {
      match side
      case DepletionSide => this.(depletion := ps)
      case GainSide => this.(gain := ps)
    }

    /** One depletion and one gain sequence per interaction type, each a well-formed pipeline. */
    ghost predicate Valid() {
      && |depletion| == |gain|
      && capacity.pipeline.Valid()
      && (forall i :: 0 <= i < |depletion| ==> depletion[i].Valid())
      && (forall i :: 0 <= i < |gain| ==> gain[i].Valid())
    }

    /** The total lies within the bounds the flags impose. */
    ghost predicate InBounds() {
      && (canDepletePastZero || totalDepletion <= Capacity())
      && (canGainPastCeiling || totalDepletion >= 0)
    }
  }

  /** A new account: nothing depleted, every sequence fresh. */
  function NewAccount(statBase: int, typeCount: nat, canDepletePastZero: bool, canGainPastCeiling: bool): (a: Account)
    ensures a.Valid() && |a.depletion| == typeCount
    ensures a.totalDepletion == 0 && a.Capacity() == statBase
  {
    FreshValueIsBase(statBase);
    Account(FilteredValue(statBase, Empty()), 0, canDepletePastZero, canGainPastCeiling,
            seq(typeCount, _ => Empty()), seq(typeCount, _ => Empty()))
  }

  /**
   * ClampDepletionAmount: first lowers the total to the capacity unless it may
   * pass it, then raises it to zero unless it may drop below it.
   */
  function ClampedTotal(a: Account): (t: int)
    ensures !a.canGainPastCeiling ==> t >= 0
    ensures !a.canDepletePastZero && (a.canGainPastCeiling || a.Capacity() >= 0) ==> t <= a.Capacity()
    ensures a.InBounds() ==> t == a.totalDepletion
    ensures t == a.totalDepletion || t == a.Capacity() || t == 0
  {
    var t1 := if !a.canDepletePastZero && a.totalDepletion > a.Capacity() then a.Capacity() else a.totalDepletion;
    if !a.canGainPastCeiling && t1 < 0 then 0 else t1
  }

  function Clamp(a: Account): Account {
    a.(totalDepletion := ClampedTotal(a))
  }

  /** GetRemainingStatValue: capacity minus total, raised to zero unless it may go negative. */
  function Remaining(a: Account): (r: int)
    ensures !a.canDepletePastZero ==> r >= 0
    ensures r >= a.Capacity() - a.totalDepletion
    ensures r != a.Capacity() - a.totalDepletion ==> r == 0 && !a.canDepletePastZero
  {
    var r := a.Capacity() - a.totalDepletion;
    if !a.canDepletePastZero && r < 0 then 0 else r
  }

  /** A filtered deplete or gain amount; a negative result counts as nothing. */
  function FilteredAmount(p: Pipeline, value: int): (n: int)
    ensures n >= 0
    ensures Apply(p, value) >= 0 ==> n == Apply(p, value)
  {
    var filtered := Apply(p, value);
    if filtered < 0 then 0 else filtered
  }

  /** DepleteStat: the filtered amount is added to the total, which is then clamped. */
  function Deplete(a: Account, value: int, t: nat): Account
    requires t < |a.depletion|
  {
    Clamp(a.(totalDepletion := a.totalDepletion + FilteredAmount(a.depletion[t], value)))
  }

  /** GainStat: the filtered amount is taken off the total, which is then clamped. */
  function Gain(a: Account, value: int, t: nat): Account
    requires t < |a.gain|
  {
    Clamp(a.(totalDepletion := a.totalDepletion - FilteredAmount(a.gain[t], value)))
  }

  /** ResetDepletionAmount: the total is set to `n` forced into [0, capacity], whatever the flags. */
  function Reset(a: Account, n: int): (r: Account)
    ensures r == a.(totalDepletion := r.totalDepletion)
    ensures a.Capacity() >= 0 ==> 0 <= r.totalDepletion <= a.Capacity()
    ensures 0 <= n <= a.Capacity() ==> r.totalDepletion == n
    ensures n < 0 ==> r.totalDepletion == 0
    ensures 0 <= n && a.Capacity() < n ==> r.totalDepletion == a.Capacity()
  {
    var m := if n < 0 then 0 else if n > a.Capacity() then a.Capacity() else n;
    a.(totalDepletion := m)
  }

  /** A per-type filter operation: only the sequence of one side and one type changes. */
  function UpdateSequence(a: Account, side: Side, t: nat, p: Pipeline): (r: Account)
    requires t < |a.Sequences(side)|
  {
    a.WithSequences(side, a.Sequences(side)[t := p])
  }

  ghost function AddTypedFilter(a: Account, side: Side, t: nat, f: Option<Filter>): Account
    requires t < |a.Sequences(side)|
  {
    UpdateSequence(a, side, t, a.Sequences(side)[t].AddFilter(f))
  }

  ghost function RemoveTypedFilter(a: Account, side: Side, t: nat, name: string): Account
    requires t < |a.Sequences(side)|
  {
    UpdateSequence(a, side, t, a.Sequences(side)[t].Remove(name))
  }

  function SetTypedOrder(a: Account, side: Side, t: nat, o: Order): Account
    requires t < |a.Sequences(side)|
  {
    UpdateSequence(a, side, t, a.Sequences(side)[t].(order := o))
  }

  function SetTypedRounding(a: Account, side: Side, t: nat, mode: Rounding): Account
    requires t < |a.Sequences(side)|
  {
    UpdateSequence(a, side, t, a.Sequences(side)[t].(rounding := mode))
  }

  /** The rounding of every type of one side set at once. */
  function SetAllRoundings(a: Account, side: Side, mode: Rounding): Account {
    a.WithSequences(side, seq(|a.Sequences(side)|, i requires 0 <= i < |a.Sequences(side)| => a.Sequences(side)[i].(rounding := mode)))
  }

  /** A change to the capacity: the new filtered value counts at once, but the total is not re-clamped. */
  function UpdateCapacity(a: Account, c: FilteredValue): (r: Account) {
    a.(capacity := c)
  }

  // ---------------------------------------------------------- properties

  /** After a deplete the total respects the flags (the bound `total <= capacity` needs a capacity of at least 0 when the total may not drop below 0). */
  lemma DepleteRespectsBounds(a: Account, value: int, t: nat)
    requires t < |a.depletion|
    ensures var b := Deplete(a, value, t);
      && (!b.canGainPastCeiling ==> b.totalDepletion >= 0)
      && (!b.canDepletePastZero && (b.canGainPastCeiling || b.Capacity() >= 0) ==> b.totalDepletion <= b.Capacity())
      && (!b.canDepletePastZero ==> Remaining(b) >= 0)
  {
  }

  /** After a gain the total respects the flags (the bound `total <= capacity` needs a capacity of at least 0 when the total may not drop below 0). */
  lemma GainRespectsBounds(a: Account, value: int, t: nat)
    requires t < |a.gain|
    ensures var b := Gain(a, value, t);
      && (!b.canGainPastCeiling ==> b.totalDepletion >= 0)
      && (!b.canDepletePastZero && (b.canGainPastCeiling || b.Capacity() >= 0) ==> b.totalDepletion <= b.Capacity())
  {
  }

  /** From within bounds, a deplete never raises the remaining value, and a gain never lowers it. */
  lemma DepleteAndGainAreMonotone(a: Account, value: int, t: nat)
    requires a.InBounds() && t < |a.depletion| && t < |a.gain|
    ensures Deplete(a, value, t).totalDepletion >= a.totalDepletion
    ensures Remaining(Deplete(a, value, t)) <= Remaining(a)
    ensures Gain(a, value, t).totalDepletion <= a.totalDepletion
    ensures Remaining(Gain(a, value, t)) >= Remaining(a)
  {
  }

  /** Deplete and gain touch only the total: capacity, flags and sequences stay as they were. */
  lemma DepleteAndGainKeepTheRest(a: Account, value: int, t: nat)
    requires t < |a.depletion| && t < |a.gain|
    ensures Deplete(a, value, t) == a.(totalDepletion := Deplete(a, value, t).totalDepletion)
    ensures Gain(a, value, t) == a.(totalDepletion := Gain(a, value, t).totalDepletion)
  {
  }

  /** A pipeline with nothing stored passes values through unchanged. */
  lemma EmptyStoresPassThrough(p: Pipeline, value: int)
    requires p.constants == [] && p.scalars == [] && p.customs == []
    ensures Apply(p, value) == value
  {
    RunEmptyStores(p, Categories(p.order), value as real);
    RoundIntegers(p.rounding, value);
  }

  /**
   * Gaining back exactly what was depleted restores the account: when the
   * depletion filters turn `v` into the same amount as the gain filters turn
   * `w`, a deplete of `v` followed by a gain of `w` undoes itself, provided
   * neither step hits a bound it must respect.
   */
  lemma DepleteThenGain(a: Account, v: int, w: int, t: nat)
    requires t < |a.depletion| && t < |a.gain|
    requires FilteredAmount(a.depletion[t], v) == FilteredAmount(a.gain[t], w)
    requires a.canDepletePastZero || a.totalDepletion + FilteredAmount(a.depletion[t], v) <= a.Capacity()
    requires a.canGainPastCeiling || a.totalDepletion >= 0
    ensures Gain(Deplete(a, v, t), w, t) == a
  {
    var b := Deplete(a, v, t);
    assert b.totalDepletion == a.totalDepletion + FilteredAmount(a.depletion[t], v);
  }

  /** With no filters for the type, gaining back the amount depleted restores the account. */
  lemma DepleteThenGainUnfiltered(a: Account, value: int, t: nat)
    requires t < |a.depletion| && t < |a.gain|
    requires a.depletion[t].constants == [] && a.depletion[t].scalars == [] && a.depletion[t].customs == []
    requires a.gain[t].constants == [] && a.gain[t].scalars == [] && a.gain[t].customs == []
    requires value >= 0
    requires a.canDepletePastZero || a.totalDepletion + value <= a.Capacity()
    requires a.canGainPastCeiling || a.totalDepletion >= 0
    ensures Gain(Deplete(a, value, t), value, t) == a
  {
    EmptyStoresPassThrough(a.depletion[t], value);
    EmptyStoresPassThrough(a.gain[t], value);
    DepleteThenGain(a, value, value, t);
  }

  /** A deplete of type `t` reads only the depletion sequence of type `t`. */
  lemma DepleteReadsOneType(a: Account, b: Account, value: int, t: nat)
    requires t < |a.depletion| && t < |b.depletion|
    requires a.depletion[t] == b.depletion[t]
    requires a.capacity == b.capacity && a.totalDepletion == b.totalDepletion
    requires a.canDepletePastZero == b.canDepletePastZero && a.canGainPastCeiling == b.canGainPastCeiling
    ensures Deplete(a, value, t).totalDepletion == Deplete(b, value, t).totalDepletion
  {
  }

  /** A filter operation on one type leaves every other type's sequences as they were. */
  lemma UpdateSequenceIsolated(a: Account, side: Side, t: nat, p: Pipeline, u: nat, s: Side)
    requires t < |a.Sequences(side)| && u < |a.Sequences(s)|
    requires u != t || s != side
    ensures UpdateSequence(a, side, t, p).Sequences(s)[u] == a.Sequences(s)[u]
    ensures UpdateSequence(a, side, t, p).Sequences(side)[t] == p
    ensures UpdateSequence(a, side, t, p) == a.WithSequences(side, UpdateSequence(a, side, t, p).Sequences(side))
  {
  }

  /** Filters added under one interaction type do not change depletes of another. */
  lemma FilterUnderOtherTypeIgnored(a: Account, side: Side, u: nat, f: Option<Filter>, value: int, t: nat)
    requires u < |a.Sequences(side)| && t < |a.depletion| && t < |a.gain|
    requires u != t
    ensures Deplete(AddTypedFilter(a, side, u, f), value, t).totalDepletion == Deplete(a, value, t).totalDepletion
    ensures Gain(AddTypedFilter(a, side, u, f), value, t).totalDepletion == Gain(a, value, t).totalDepletion
  {
    UpdateSequenceIsolated(a, side, u, a.Sequences(side)[u].AddFilter(f), t, DepletionSide);
    UpdateSequenceIsolated(a, side, u, a.Sequences(side)[u].AddFilter(f), t, GainSide);
  }

  /**
   * A reset lands inside the bounds whatever the flags, as long as the
   * capacity is not negative, so the clamp a later deplete or gain runs has
   * nothing left to correct.
   */
  lemma ResetLandsInBounds(a: Account, n: int)
    requires a.Capacity() >= 0
    ensures Reset(a, n).InBounds()
    ensures Clamp(Reset(a, n)) == Reset(a, n)
  {
  }

  /**
   * A change to the capacity is not followed by a clamp: a full account
   * whose capacity shrinks is left past its bound, and its remaining value is
   * floored at 0 rather than the total being brought back.
   */
  lemma CapacityDropMayLeaveBounds()
    ensures var a := NewAccount(10, 1, false, false).(totalDepletion := 10);
      && a.InBounds()
      && !UpdateCapacity(a, FilteredValue(5, Empty())).InBounds()
      && UpdateCapacity(a, FilteredValue(5, Empty())).totalDepletion == 10
      && Remaining(UpdateCapacity(a, FilteredValue(5, Empty()))) == 0
  {
    FreshValueIsBase(10);
    FreshValueIsBase(5);
  }

  /** Clamping brings an account within bounds, and changes nothing already within them. */
  lemma ClampRestoresBounds(a: Account)
    requires a.Capacity() >= 0
    ensures Clamp(a).InBounds()
    ensures a.InBounds() <==> Clamp(a) == a
  {
  }

  /**
   * Whatever state a capacity change left behind, the next deplete or gain
   * brings the account back within bounds.
   */
  lemma NextCommandRestoresBounds(a: Account, c: FilteredValue, value: int, t: nat)
    requires c.Value() >= 0 && t < |a.depletion| && t < |a.gain|
    ensures Deplete(UpdateCapacity(a, c), value, t).InBounds()
    ensures Gain(UpdateCapacity(a, c), value, t).InBounds()
  {
    var b := UpdateCapacity(a, c);
    ClampRestoresBounds(b.(totalDepletion := b.totalDepletion + FilteredAmount(b.depletion[t], value)));
    ClampRestoresBounds(b.(totalDepletion := b.totalDepletion - FilteredAmount(b.gain[t], value)));
  }

  /** Replacing one well-formed sequence by another keeps the account well formed. */
  lemma UpdateSequenceKeepsValid(a: Account, side: Side, t: nat, p: Pipeline)
    requires a.Valid() && t < |a.Sequences(side)| && p.Valid()
    ensures UpdateSequence(a, side, t, p).Valid()
  {
    var b := UpdateSequence(a, side, t, p);
    assert forall i :: 0 <= i < |b.depletion| ==> b.depletion[i] == a.depletion[i] || b.depletion[i] == p;
    assert forall i :: 0 <= i < |b.gain| ==> b.gain[i] == a.gain[i] || b.gain[i] == p;
  }

  /** Every filter operation keeps the account well formed. */
  lemma FilterOperationsKeepValid(a: Account, side: Side, t: nat, f: Option<Filter>, name: string)
    requires a.Valid() && t < |a.Sequences(side)|
    ensures AddTypedFilter(a, side, t, f).Valid()
    ensures RemoveTypedFilter(a, side, t, name).Valid()
  {
    var p := a.Sequences(side)[t];
    if f.Some? {
      AddKeepsValid(p, f.value);
    }
    UpdateSequenceKeepsValid(a, side, t, p.AddFilter(f));
    RemoveKeepsValid(p, name);
    UpdateSequenceKeepsValid(a, side, t, p.Remove(name));
  }

  // ------------------------------------------------------------ the object

  /** The pipelines of a list of filter sequences, index by index. */
  ghost function Models(ss: seq<FilterSequence>): (ps: seq<Pipeline>)
    reads ss
    ensures |ps| == |ss| && forall i :: 0 <= i < |ss| ==> ps[i] == ss[i].Model()
  {
    seq(|ss|, i requires 0 <= i < |ss| reads ss => ss[i].Model())
  }

  /** `n` new, empty filter sequences (the constructor's fill loop). */
  method NewSequences(n: nat) returns (ss: seq<FilterSequence>)
    ensures |ss| == n && Unshared(ss)
    ensures forall s :: s in ss ==> fresh(s) && s.Valid()
    ensures Models(ss) == seq(n, _ => Empty())
  {
    ss := [];
    for i := 0 to n
      invariant |ss| == i && Unshared(ss)
      invariant forall s :: s in ss ==> fresh(s) && s.Valid() && s.Model() == Empty()
    {
      var s := new FilterSequence();
      ss := ss + [s];
    }
  }

  /** Filter sequences that were not touched still have the pipelines they had. */
  twostate lemma ModelsUnchanged(ss: seq<FilterSequence>)
    requires forall s :: s in ss ==> unchanged(s)
    ensures Models(ss) == old(Models(ss))
  {
    forall i | 0 <= i < |ss|
      ensures ss[i].Model() == old(ss[i].Model())
    {
      assert ss[i] in ss;
    }
  }

  /** No filter sequence occurs twice in `ss`. */
  ghost predicate Unshared(ss: seq<FilterSequence>) {
    forall i, j :: 0 <= i < j < |ss| ==> ss[i] != ss[j]
  }

  /** The mutable depletion stat. */
  class StatDepletion {
    const stat: IntFiltered
    var totalDepletion: int
    const canDepletePastZero: bool
    const canGainPastCeiling: bool
    const depletionFilterSequences: seq<FilterSequence>
    const gainFilterSequences: seq<FilterSequence>

    /** The objects the stat owns: its capacity and its filter sequences. */
    ghost function Parts(): set<object> {
      {stat, stat.filterSequence}
        + (set s | s in depletionFilterSequences) + (set s | s in gainFilterSequences)
    }

    ghost function Repr(): set<object> {
      {this} + Parts()
    }

    /** Every object is owned once, every sequence is well formed, and the cache of the capacity holds. */
    ghost predicate Valid()
      reads Parts()
    {
      && |depletionFilterSequences| == |gainFilterSequences|
      && Unshared(depletionFilterSequences) && Unshared(gainFilterSequences)
      && (forall s :: s in depletionFilterSequences ==> s !in gainFilterSequences)
      && stat.filterSequence !in depletionFilterSequences
      && stat.filterSequence !in gainFilterSequences
      && stat.Valid()
      && (forall s :: s in depletionFilterSequences ==> s.Valid())
      && (forall s :: s in gainFilterSequences ==> s.Valid())
    }

    ghost function Snapshot(): Account
      reads Repr()
    {
      Account(stat.Snapshot(), totalDepletion, canDepletePastZero, canGainPastCeiling,
              Models(depletionFilterSequences), Models(gainFilterSequences))
    }

    ghost function TypeCount(): nat {
      |depletionFilterSequences|
    }

    /** The parts of a new depletion stat: the capacity and one fresh, empty sequence per type on each side. */
    static method NewParts(statBase: int, typeCount: nat) returns (st: IntFiltered, ds: seq<FilterSequence>, gs: seq<FilterSequence>)
      ensures fresh(st) && fresh(st.filterSequence) && forall s :: s in ds || s in gs ==> fresh(s)
      ensures |ds| == |gs| == typeCount && Unshared(ds) && Unshared(gs)
      ensures (forall s :: s in ds ==> s !in gs) && st.filterSequence !in ds && st.filterSequence !in gs
      ensures st.Valid() && (forall s :: s in ds ==> s.Valid()) && (forall s :: s in gs ==> s.Valid())
      ensures st.Snapshot() == FilteredValue(statBase, Empty())
      ensures Models(ds) == seq(typeCount, _ => Empty()) && Models(gs) == seq(typeCount, _ => Empty())
    {
      st := new IntFiltered(statBase);
      ds := NewSequences(typeCount);
      gs := NewSequences(typeCount);
    }

    constructor(statBase: int, typeCount: nat, canDepletePastZero: bool := false, canGainPastCeiling: bool := false)
      ensures Valid() && fresh(Repr())
      ensures TypeCount() == typeCount
      ensures Snapshot() == NewAccount(statBase, typeCount, canDepletePastZero, canGainPastCeiling)
    {
      var st, ds, gs := NewParts(statBase, typeCount);
      stat := st;
      totalDepletion := 0;
      this.canDepletePastZero := canDepletePastZero;
      this.canGainPastCeiling := canGainPastCeiling;
      depletionFilterSequences := ds;
      gainFilterSequences := gs;
      new;
      FreshValueIsBase(statBase);
    }

    // -------------------------------------------------- depletion settings

    method GetCanDepletePastZeroSetting() returns (b: bool)
      ensures b == canDepletePastZero
    {
      b := canDepletePastZero;
    }

    /** Sets the total directly, forced into [0, filtered capacity]; the flags are not consulted. */
    method ResetDepletionAmount(newDepletionAmount: int)
      requires Valid()
      modifies this
      ensures Valid() && Snapshot() == Reset(old(Snapshot()), newDepletionAmount)
    {
      var amount := newDepletionAmount;
      var filtered := stat.GetFilteredInt();
      if amount < 0 {
        amount := 0;
      } else if amount > filtered {
        amount := filtered;
      }
      totalDepletion := amount;
    }

    /** Keeps the total within the bounds the flags impose. */
    method ClampDepletionAmount()
      requires Valid()
      modifies this
      ensures Valid() && Snapshot() == Clamp(old(Snapshot()))
    {
      var filtered := stat.GetFilteredInt();
      if !canDepletePastZero && totalDepletion > filtered {
        totalDepletion := filtered;
      }
      if !canGainPastCeiling && totalDepletion < 0 {
        totalDepletion := 0;
      }
    }

    method SetDepletionFilterOrder(newOrder: Order, t: nat := DEFAULT_TYPE)
      requires Valid() && t < TypeCount()
      modifies depletionFilterSequences[t]
      ensures Valid() && Snapshot() == SetTypedOrder(old(Snapshot()), DepletionSide, t, newOrder)
    {
      depletionFilterSequences[t].SetFilterOrder(newOrder);
      ModelsUnchanged(gainFilterSequences);
    }

    method GetDepletionFilterOrder(t: nat := DEFAULT_TYPE) returns (o: Order)
      requires Valid() && t < TypeCount()
      ensures o == Snapshot().depletion[t].order
    {
      o := depletionFilterSequences[t].GetFilterOrder();
    }

    method SetDepletionAfterFilterRounding(newRounding: Rounding, t: nat := DEFAULT_TYPE)
      requires Valid() && t < TypeCount()
      modifies depletionFilterSequences[t]
      ensures Valid() && Snapshot() == SetTypedRounding(old(Snapshot()), DepletionSide, t, newRounding)
    {
      depletionFilterSequences[t].SetAfterFilterRounding(newRounding);
      ModelsUnchanged(gainFilterSequences);
    }

    /** With the flag set, every interaction type gets the rounding; otherwise only the default type. */
    method SetDepletionAfterFilterRoundingForAll(newRounding: Rounding, allInteractionTypes: bool)
      requires Valid() && DEFAULT_TYPE < TypeCount()
      modifies set s | s in depletionFilterSequences
      ensures Valid()
      ensures allInteractionTypes ==> Snapshot() == SetAllRoundings(old(Snapshot()), DepletionSide, newRounding)
      ensures !allInteractionTypes ==> Snapshot() == SetTypedRounding(old(Snapshot()), DepletionSide, DEFAULT_TYPE, newRounding)
    {
      if !allInteractionTypes {
        SetDepletionAfterFilterRounding(newRounding, DEFAULT_TYPE);
      } else {
        SetEveryRounding(depletionFilterSequences, newRounding);
        assert Models(depletionFilterSequences) == SetAllRoundings(old(Snapshot()), DepletionSide, newRounding).depletion;
      }
    }

    method GetDepletionAfterFilterRounding(t: nat := DEFAULT_TYPE) returns (r: Rounding)
      requires Valid() && t < TypeCount()
      ensures r == Snapshot().depletion[t].rounding
    {
      r := depletionFilterSequences[t].GetAfterFilterRounding();
    }

    method AddDepletionFilter(filter: Option<Filter>, t: nat := DEFAULT_TYPE) returns (ok: bool)
      requires Valid() && t < TypeCount()
      modifies depletionFilterSequences[t]
      ensures Valid()
      ensures ok <==> old(Snapshot()).depletion[t].Accepts(filter)
      ensures Snapshot() == AddTypedFilter(old(Snapshot()), DepletionSide, t, filter)
    {
      ghost var a := Snapshot();
      ok := depletionFilterSequences[t].AddFilter(filter);
      ModelsUnchanged(gainFilterSequences);
      assert Models(depletionFilterSequences) == a.depletion[t := a.depletion[t].AddFilter(filter)];
    }

    method RemoveDepletionFilter(name: string, t: nat := DEFAULT_TYPE) returns (ok: bool)
      requires Valid() && t < TypeCount()
      modifies depletionFilterSequences[t]
      ensures Valid()
      ensures ok <==> name in old(Snapshot()).depletion[t].Names()
      ensures Snapshot() == RemoveTypedFilter(old(Snapshot()), DepletionSide, t, name)
    {
      ghost var a := Snapshot();
      ok := depletionFilterSequences[t].RemoveFilter(name);
      ModelsUnchanged(gainFilterSequences);
      assert Models(depletionFilterSequences) == a.depletion[t := a.depletion[t].Remove(name)];
    }

    method HasDepletionFilter(name: string, t: nat := DEFAULT_TYPE) returns (b: bool)
      requires Valid() && t < TypeCount()
      ensures b <==> name in Snapshot().depletion[t].Names()
    {
      b := depletionFilterSequences[t].HasFilter(name);
    }

    /** The amount a deplete of type `t` adds to the total: filtered, and never negative. */
    method FilteredDepletion(depletionValue: int, t: nat) returns (amount: int)
      requires Valid() && t < TypeCount()
      ensures amount == FilteredAmount(Snapshot().depletion[t], depletionValue)
    {
      amount := depletionFilterSequences[t].ApplyFilters(depletionValue);
      if amount < 0 {
        amount := 0;
      }
    }

    /** Moves the total by `delta`, unclamped; the step DepleteStat and GainStat share. */
    method AddToTotal(delta: int)
      requires Valid()
      modifies this
      ensures Valid() && Snapshot() == old(Snapshot()).(totalDepletion := old(totalDepletion) + delta)
    {
      totalDepletion := totalDepletion + delta;
    }

    /** Filters the amount for its type, adds it to the total, clamps, and returns the remaining value. */
    method DepleteStat(depletionValue: int, t: nat := DEFAULT_TYPE) returns (remaining: int)
      requires Valid() && t < TypeCount()
      modifies this
      ensures Valid() && Snapshot() == Deplete(old(Snapshot()), depletionValue, t)
      ensures remaining == Remaining(Snapshot())
    {
      var amount := FilteredDepletion(depletionValue, t);
      AddToTotal(amount);
      ClampDepletionAmount();
      remaining := GetRemainingStatValue();
    }

    // ---------------------------------------------------------- gain side

    method GetCanGainPastCeilingSetting() returns (b: bool)
      ensures b == canGainPastCeiling
    {
      b := canGainPastCeiling;
    }

    method SetGainFilterOrder(newOrder: Order, t: nat := DEFAULT_TYPE)
      requires Valid() && t < TypeCount()
      modifies gainFilterSequences[t]
      ensures Valid() && Snapshot() == SetTypedOrder(old(Snapshot()), GainSide, t, newOrder)
    {
      gainFilterSequences[t].SetFilterOrder(newOrder);
      ModelsUnchanged(depletionFilterSequences);
    }

    method GetGainFilterOrder(t: nat := DEFAULT_TYPE) returns (o: Order)
      requires Valid() && t < TypeCount()
      ensures o == Snapshot().gain[t].order
    {
      o := gainFilterSequences[t].GetFilterOrder();
    }

    method SetGainAfterFilterRounding(newRounding: Rounding, t: nat := DEFAULT_TYPE)
      requires Valid() && t < TypeCount()
      modifies gainFilterSequences[t]
      ensures Valid() && Snapshot() == SetTypedRounding(old(Snapshot()), GainSide, t, newRounding)
    {
      gainFilterSequences[t].SetAfterFilterRounding(newRounding);
      ModelsUnchanged(depletionFilterSequences);
    }

    /** With the flag set, every interaction type gets the rounding; otherwise only the default type. */
    method SetGainAfterFilterRoundingForAll(newRounding: Rounding, allInteractionTypes: bool)
      requires Valid() && DEFAULT_TYPE < TypeCount()
      modifies set s | s in gainFilterSequences
      ensures Valid()
      ensures allInteractionTypes ==> Snapshot() == SetAllRoundings(old(Snapshot()), GainSide, newRounding)
      ensures !allInteractionTypes ==> Snapshot() == SetTypedRounding(old(Snapshot()), GainSide, DEFAULT_TYPE, newRounding)
    {
      if !allInteractionTypes {
        SetGainAfterFilterRounding(newRounding, DEFAULT_TYPE);
      } else {
        SetEveryRounding(gainFilterSequences, newRounding);
        assert Models(gainFilterSequences) == SetAllRoundings(old(Snapshot()), GainSide, newRounding).gain;
      }
    }

    method GetGainAfterFilterRounding(t: nat := DEFAULT_TYPE) returns (r: Rounding)
      requires Valid() && t < TypeCount()
      ensures r == Snapshot().gain[t].rounding
    {
      r := gainFilterSequences[t].GetAfterFilterRounding();
    }

    method AddGainFilter(filter: Option<Filter>, t: nat := DEFAULT_TYPE) returns (ok: bool)
      requires Valid() && t < TypeCount()
      modifies gainFilterSequences[t]
      ensures Valid()
      ensures ok <==> old(Snapshot()).gain[t].Accepts(filter)
      ensures Snapshot() == AddTypedFilter(old(Snapshot()), GainSide, t, filter)
    {
      ghost var a := Snapshot();
      ok := gainFilterSequences[t].AddFilter(filter);
      ModelsUnchanged(depletionFilterSequences);
      assert Models(gainFilterSequences) == a.gain[t := a.gain[t].AddFilter(filter)];
    }

    method RemoveGainFilter(name: string, t: nat := DEFAULT_TYPE) returns (ok: bool)
      requires Valid() && t < TypeCount()
      modifies gainFilterSequences[t]
      ensures Valid()
      ensures ok <==> name in old(Snapshot()).gain[t].Names()
      ensures Snapshot() == RemoveTypedFilter(old(Snapshot()), GainSide, t, name)
    {
      ghost var a := Snapshot();
      ok := gainFilterSequences[t].RemoveFilter(name);
      ModelsUnchanged(depletionFilterSequences);
      assert Models(gainFilterSequences) == a.gain[t := a.gain[t].Remove(name)];
    }

    method HasGainFilter(name: string, t: nat := DEFAULT_TYPE) returns (b: bool)
      requires Valid() && t < TypeCount()
      ensures b <==> name in Snapshot().gain[t].Names()
    {
      b := gainFilterSequences[t].HasFilter(name);
    }

    /** The amount a gain of type `t` takes off the total: filtered, and never negative. */
    method FilteredGain(gainValue: int, t: nat) returns (amount: int)
      requires Valid() && t < TypeCount()
      ensures amount == FilteredAmount(Snapshot().gain[t], gainValue)
    {
      amount := gainFilterSequences[t].ApplyFilters(gainValue);
      if amount < 0 {
        amount := 0;
      }
    }

    /** Filters the amount for its type, takes it off the total, clamps, and returns the remaining value. */
    method GainStat(gainValue: int, t: nat := DEFAULT_TYPE) returns (remaining: int)
      requires Valid() && t < TypeCount()
      modifies this
      ensures Valid() && Snapshot() == Gain(old(Snapshot()), gainValue, t)
      ensures remaining == Remaining(Snapshot())
    {
      var amount := FilteredGain(gainValue, t);
      AddToTotal(-amount);
      ClampDepletionAmount();
      remaining := GetRemainingStatValue();
    }

    // ------------------------------------------------------ the capacity

    method GetRemainingStatValue() returns (remaining: int)
      requires Valid()
      ensures remaining == Remaining(Snapshot())
    {
      var filtered := stat.GetFilteredInt();
      remaining := filtered - totalDepletion;
      if !canDepletePastZero && remaining < 0 {
        remaining := 0;
      }
    }

    method GetStatBase() returns (b: int)
      requires Valid()
      ensures b == Snapshot().capacity.base
    {
      b := stat.GetBaseInt();
    }

    /** Replaces the base of the capacity and returns the new filtered capacity; the total is left alone. */
    method SetStatBase(newBaseStat: int) returns (filtered: int)
      requires Valid()
      modifies stat.Repr()
      ensures Valid()
      ensures Snapshot() == UpdateCapacity(old(Snapshot()), old(Snapshot()).capacity.(base := newBaseStat))
      ensures filtered == Snapshot().Capacity()
    {
      filtered := stat.SetBaseInt(newBaseStat);
    }

    method GetStatFiltered() returns (filtered: int)
      requires Valid()
      ensures filtered == Snapshot().Capacity()
    {
      filtered := stat.GetFilteredInt();
    }

    method AddStatFilter(filter: Option<Filter>, secondsUntilRemove: real := 0.0) returns (ok: bool)
      requires Valid()
      modifies stat.Repr()
      ensures Valid()
      ensures ok <==> old(Snapshot()).capacity.pipeline.Accepts(filter)
      ensures Snapshot() == UpdateCapacity(old(Snapshot()), old(Snapshot()).capacity.(pipeline := old(Snapshot()).capacity.pipeline.AddFilter(filter)))
    {
      ghost var a := Snapshot();
      ghost var c := a.capacity.(pipeline := a.capacity.pipeline.AddFilter(filter));
      ok := stat.AddFilter(filter, secondsUntilRemove);
      assert stat.Snapshot() == c;
      ModelsUnchanged(depletionFilterSequences);
      ModelsUnchanged(gainFilterSequences);
    }

    method RemoveStatFilter(name: string) returns (ok: bool)
      requires Valid()
      modifies stat.Repr()
      ensures Valid()
      ensures ok <==> name in old(Snapshot()).capacity.pipeline.Names()
      ensures Snapshot() == UpdateCapacity(old(Snapshot()), old(Snapshot()).capacity.(pipeline := old(Snapshot()).capacity.pipeline.Remove(name)))
    {
      ghost var a := Snapshot();
      ghost var c := a.capacity.(pipeline := a.capacity.pipeline.Remove(name));
      ok := stat.RemoveFilter(name);
      assert stat.Snapshot() == c;
      ModelsUnchanged(depletionFilterSequences);
      ModelsUnchanged(gainFilterSequences);
    }

    method HasStatFilter(name: string) returns (b: bool)
      requires Valid()
      ensures b <==> name in Snapshot().capacity.pipeline.Names()
    {
      b := stat.HasFilter(name);
    }

    method GetStatFilterOrder() returns (o: Order)
      requires Valid()
      ensures o == Snapshot().capacity.pipeline.order
    {
      o := stat.GetFilterOrder();
    }

    method SetStatFilterOrder(newOrder: Order)
      requires Valid()
      modifies stat.Repr()
      ensures Valid()
      ensures Snapshot() == UpdateCapacity(old(Snapshot()), old(Snapshot()).capacity.(pipeline := old(Snapshot()).capacity.pipeline.(order := newOrder)))
    {
      ghost var a := Snapshot();
      ghost var c := a.capacity.(pipeline := a.capacity.pipeline.(order := newOrder));
      stat.SetFilterOrder(newOrder);
      assert stat.Snapshot() == c;
      ModelsUnchanged(depletionFilterSequences);
      ModelsUnchanged(gainFilterSequences);
    }

    method SetStatAfterFilterRounding(newRounding: Rounding)
      requires Valid()
      modifies stat.Repr()
      ensures Valid()
      ensures Snapshot() == UpdateCapacity(old(Snapshot()), old(Snapshot()).capacity.(pipeline := old(Snapshot()).capacity.pipeline.(rounding := newRounding)))
    {
      ghost var a := Snapshot();
      ghost var c := a.capacity.(pipeline := a.capacity.pipeline.(rounding := newRounding));
      stat.SetAfterFilterRounding(newRounding);
      assert stat.Snapshot() == c;
      ModelsUnchanged(depletionFilterSequences);
      ModelsUnchanged(gainFilterSequences);
    }

    method GetStatAfterFilterRounding() returns (r: Rounding)
      requires Valid()
      ensures r == Snapshot().capacity.pipeline.rounding
    {
      r := stat.GetAfterFilterRounding();
    }
  }

  /** Sets the rounding of every sequence of `ss` (the all-types loop of the rounding setters). */
  method SetEveryRounding(ss: seq<FilterSequence>, mode: Rounding)
    requires Unshared(ss) && forall s :: s in ss ==> s.Valid()
    modifies set s | s in ss
    ensures forall s :: s in ss ==> s.Valid()
    ensures forall i :: 0 <= i < |ss| ==> ss[i].Model() == old(ss[i].Model()).(rounding := mode)
  {
    for k := 0 to |ss|
      invariant forall s :: s in ss ==> s.Valid()
      invariant forall i :: 0 <= i < k ==> ss[i].Model() == old(ss[i].Model()).(rounding := mode)
      invariant forall i :: k <= i < |ss| ==> ss[i].Model() == old(ss[i].Model())
    {
      ss[k].SetAfterFilterRounding(mode);
    }
  }

  /**
   * The depletion-order getter without a type, as written: it calls itself and
   * nothing else.  `depth` is how many nested calls the runtime allows before the
   * stack overflows, and None is that overflow.
   */
  function GetDepletionFilterOrderAsWritten(depth: nat): (r: Option<Order>)
    decreases depth
  {
    if depth == 0 then None else GetDepletionFilterOrderAsWritten(depth - 1)
  }

  /** However deep the stack, the getter without a type never produces an order. */
  lemma {:induction false} DepletionOrderGetterNeverReturns(depth: nat)
    ensures GetDepletionFilterOrderAsWritten(depth) == None
  {
    if depth > 0 {
      DepletionOrderGetterNeverReturns(depth - 1);
    }
  }
}
