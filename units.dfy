/**
 * Unit: a game unit holding its stats by stat type and a table of named
 * interaction filters.  Every change to a stat arrives as a command
 * (StatInteraction) and is routed by the class of the stat it names and by
 * its intent.  Stat types and interaction types are enum values, numbered
 * from 0; the concrete unit registers its stats in its constructor, so here
 * the constructor is given them.
 */
module Units {
  import opened Wrappers
  import opened Filters
  import opened FilteredInts
  import opened Depletions
  import opened References
  import opened SequencesByType
  import opened Interactions
  import opened InteractionFilters
  import opened Stats

  /** The two intents that a reference stat serves: adding and removing a filter on its value. */
  predicate TargetsStatFilters(i: StatInteraction) {
    i.intent == ADD_STAT_FILTER || i.intent == REMOVE_STAT_FILTER
  }

  /** The stat keeps a sequence for interaction type `t` wherever it keeps sequences per type. */
  ghost predicate Fits(s: StatState, t: nat) {
    match s
    case DepletionState(a) => t < |a.depletion| && t < |a.gain|
    case ReferenceState(_) => true
    case SequenceState => true
    case SequenceByTypeState(ps) => t < |ps|
  }

  // ------------------------------------------------ routing, class by class

  /**
   * A command on a depletion stat: the two plain filter intents act on the
   * capacity, deplete and gain on the total, and the typed filter intents on
   * the sequence of the command's interaction type.
   */
  ghost function DepletionEffect(a: Account, i: StatInteraction): (r: Account)
    requires i.WellFormed() && i.interactionType < |a.depletion| && i.interactionType < |a.gain|
    ensures r.canDepletePastZero == a.canDepletePastZero && r.canGainPastCeiling == a.canGainPastCeiling
    ensures |r.depletion| == |a.depletion| && |r.gain| == |a.gain|
    ensures i.intent != STAT_DEPLETE && i.intent != STAT_GAIN ==> r.totalDepletion == a.totalDepletion
    ensures !TargetsStatFilters(i) ==> r.capacity == a.capacity
  {
    var t := i.interactionType;
    match i.intent
    case ADD_STAT_FILTER => UpdateCapacity(a, a.capacity.(pipeline := a.capacity.pipeline.AddFilter(i.filter)))
    case REMOVE_STAT_FILTER => UpdateCapacity(a, a.capacity.(pipeline := a.capacity.pipeline.Remove(i.filterName.value)))
    case STAT_GAIN => Gain(a, i.gain, t)
    case ADD_STAT_GAIN_FILTER => AddTypedFilter(a, GainSide, t, i.filter)
    case ADD_STAT_DEPLETE_FILTER => AddTypedFilter(a, DepletionSide, t, i.filter)
    case STAT_DEPLETE => Deplete(a, i.deplete, t)
    case REMOVE_STAT_GAIN_FILTER => RemoveTypedFilter(a, GainSide, t, i.filterName.value)
    case REMOVE_STAT_DEPLETE_FILTER => RemoveTypedFilter(a, DepletionSide, t, i.filterName.value)
  }

  /** A command on a reference stat: a filter added or removed by name; any other intent is only logged. */
  ghost function ReferenceEffect(v: FilteredValue, i: StatInteraction): (r: FilteredValue)
    requires i.WellFormed()
    ensures r.base == v.base
    ensures !TargetsStatFilters(i) ==> r == v
  {
    match i.intent
    case ADD_STAT_FILTER => v.(pipeline := v.pipeline.AddFilter(i.filter))
    case REMOVE_STAT_FILTER => v.(pipeline := v.pipeline.Remove(i.filterName.value))
    case _ => v
  }

  /** A command on a stat with a sequence per type: a filter added or removed under the command's type. */
  ghost function ByTypeEffect(ps: seq<Pipeline>, i: StatInteraction): (r: seq<Pipeline>)
    requires i.WellFormed() && i.interactionType < |ps|
    ensures |r| == |ps|
    ensures forall u :: 0 <= u < |ps| && u != i.interactionType ==> r[u] == ps[u]
    ensures !TargetsStatFilters(i) ==> r == ps
  {
    var t := i.interactionType;
    match i.intent
    case ADD_STAT_FILTER => ps[t := ps[t].AddFilter(i.filter)]
    case REMOVE_STAT_FILTER => ps[t := ps[t].Remove(i.filterName.value)]
    case _ => ps
  }

  /**
   * The effect of a command on the stat it names.  The StatSequence class is
   * not part of this model, so a command on such a stat leaves it as it is.
   */
  ghost function Effect(s: StatState, i: StatInteraction): (r: StatState)
    requires i.WellFormed() && Fits(s, i.interactionType)
    ensures r.Class() == s.Class()
    ensures Fits(r, i.interactionType)
    ensures s.ReferenceState? && !TargetsStatFilters(i) ==> r == s
    ensures s.SequenceByTypeState? && !TargetsStatFilters(i) ==> r == s
  {
    match s
    case DepletionState(a) => DepletionState(DepletionEffect(a, i))
    case ReferenceState(v) => ReferenceState(ReferenceEffect(v, i))
    case SequenceState => s
    case SequenceByTypeState(ps) => SequenceByTypeState(ByTypeEffect(ps, i))
  }

  /** InteractWithStat on the states of all stats: only the named stat changes, and a missing one changes nothing. */
  ghost function Interact(st: map<nat, StatState>, i: StatInteraction): (r: map<nat, StatState>)
    requires i.WellFormed()
    requires i.statToAffect in st ==> Fits(st[i.statToAffect], i.interactionType)
    ensures r.Keys == st.Keys
    ensures forall k :: k in st && k != i.statToAffect ==> r[k] == st[k]
    ensures forall k :: k in st ==> r[k].Class() == st[k].Class()
  {
    if i.statToAffect in st then st[i.statToAffect := Effect(st[i.statToAffect], i)] else st
  }

  /**
   * Routing as written: the branches for SEQUENCE and SEQUENCE_BY_INTERACTION_TYPE
   * stats call the reference view, which only a reference stat sets, so the two
   * plain filter intents dereference null there (None); other intents are only logged.
   */
  ghost function EffectAsWritten(s: StatState, i: StatInteraction): (r: Option<StatState>)
    requires i.WellFormed() && Fits(s, i.interactionType)
  {
    match s
    case DepletionState(a) => Some(DepletionState(DepletionEffect(a, i)))
    case ReferenceState(v) => Some(ReferenceState(ReferenceEffect(v, i)))
    case SequenceState => if TargetsStatFilters(i) then None else Some(s)
    case SequenceByTypeState(_) => if TargetsStatFilters(i) then None else Some(s)
  }

  /**
   * The routing as written fails exactly on a plain filter command aimed at a
   * sequence stat, and wherever it does not fail it agrees with Effect.
   */
  lemma SequenceRoutingDereferencesNull(s: StatState, i: StatInteraction)
    requires i.WellFormed() && Fits(s, i.interactionType)
    ensures EffectAsWritten(s, i).None? <==> (s.SequenceState? || s.SequenceByTypeState?) && TargetsStatFilters(i)
    ensures EffectAsWritten(s, i).Some? ==> EffectAsWritten(s, i).value == Effect(s, i)
  {
  }

  /** A filter added through a unit to a per-type stat lands under the command's type, as an accepted filter. */
  lemma ByTypeFilterLandsUnderItsType(ps: seq<Pipeline>, f: Filter, stat: nat, t: nat)
    requires t < |ps| && ps[t].Valid() && f.name !in ps[t].Names()
    ensures var r := ByTypeEffect(ps, AddStatFilter(Some(f), stat, t));
      r[t].Valid() && r[t].Names() == ps[t].Names() + {f.name}
  {
    AddKeepsValid(ps[t], f);
  }

  /** Every command keeps a well-formed account well formed. */
  lemma CommandsKeepAccountValid(a: Account, i: StatInteraction)
    requires a.Valid() && i.WellFormed() && i.interactionType < |a.depletion|
    ensures DepletionEffect(a, i).Valid()
  {
    var t := i.interactionType;
    var p := a.capacity.pipeline;
    match i.intent
    case ADD_STAT_FILTER =>
      if i.filter.Some? {
        AddKeepsValid(p, i.filter.value);
      }
    case REMOVE_STAT_FILTER =>
      RemoveKeepsValid(p, i.filterName.value);
    case ADD_STAT_GAIN_FILTER =>
      FilterOperationsKeepValid(a, GainSide, t, i.filter, "");
    case ADD_STAT_DEPLETE_FILTER =>
      FilterOperationsKeepValid(a, DepletionSide, t, i.filter, "");
    case REMOVE_STAT_GAIN_FILTER =>
      FilterOperationsKeepValid(a, GainSide, t, None, i.filterName.value);
    case REMOVE_STAT_DEPLETE_FILTER =>
      FilterOperationsKeepValid(a, DepletionSide, t, None, i.filterName.value);
    case STAT_DEPLETE =>
    case STAT_GAIN =>
  }

  /**
   * A total within the bounds its flags impose stays within them after any
   * command other than a capacity filter change (which may shrink the capacity
   * below the total: the total is not re-clamped then).
   */
  lemma CommandsKeepBounds(a: Account, i: StatInteraction)
    requires a.InBounds() && a.Capacity() >= 0
    requires i.WellFormed() && i.interactionType < |a.depletion| && i.interactionType < |a.gain|
    requires !TargetsStatFilters(i)
    ensures DepletionEffect(a, i).InBounds()
  {
    var t := i.interactionType;
    if i.intent == STAT_DEPLETE {
      DepleteRespectsBounds(a, i.deplete, t);
    } else if i.intent == STAT_GAIN {
      GainRespectsBounds(a, i.gain, t);
    }
  }

  // ------------------------------------------------------------ the unit

  /** The stat keeps one sequence per interaction type wherever it keeps sequences per type. */
  ghost predicate Sized(s: Stat, typeCount: nat) {
    match s
    case DepletionStat(d) => d.TypeCount() == typeCount
    case ReferenceStat(_) => true
    case SequenceStat => true
    case SequenceByTypeStat(q) => q.TypeCount() == typeCount
  }

  /** The objects of all the given stats. */
  ghost function Footprint(stats: map<nat, Stat>): (r: set<object>)
    ensures forall k :: k in stats ==> stats[k].Repr() <= r
  {
    set k, o | k in stats && o in stats[k].Repr() :: o
  }

  /** A stat none of whose objects changed keeps its state and its validity. */
  twostate lemma StatUnchanged(s: Stat)
    requires old(s.Valid())
    requires forall o :: o in s.Repr() ==> unchanged(o)
    ensures s.Valid() && s.Snapshot() == old(s.Snapshot())
  {
  }

  /** A map that differs from another at most at one key is that map updated at the key. */
  lemma MapUpdate<K, V>(before: map<K, V>, after: map<K, V>, target: K)
    requires after.Keys == before.Keys && target in after
    requires forall k :: k in after && k != target ==> after[k] == before[k]
    ensures after == before[target := after[target]]
  {
  }

  /** Stats that a unit can hold: each well formed and sized for the interaction types, no object shared. */
  ghost predicate Registrable(stats: map<nat, Stat>, typeCount: nat)
    reads Footprint(stats)
  {
    && (forall k :: k in stats ==> stats[k].Valid() && Sized(stats[k], typeCount))
    && (forall k, l :: k in stats && l in stats && k != l ==> stats[k].Repr() !! stats[l].Repr())
  }

  class Unit {
    /** The stats by stat type, as the concrete unit's constructor registers them. */
    const unitStats: map<nat, Stat>
    /** How many interaction types there are. */
    const typeCount: nat
    var statInteractionFilters: map<string, StatInteractionFilter>
    /** The objects of all the stats. */
    ghost const repr: set<object>

    ghost function Repr(): set<object> {
      repr
    }

    /** Every stat is well formed and sized for the interaction types, and no two stats share an object. */
    ghost predicate Valid()
      reads Repr()
    {
      && this !in Repr()
      && (forall k :: k in unitStats ==> unitStats[k].Repr() <= repr)
      && (forall k :: k in unitStats ==> unitStats[k].Valid() && Sized(unitStats[k], typeCount))
      && (forall k, l :: k in unitStats && l in unitStats && k != l ==> unitStats[k].Repr() !! unitStats[l].Repr())
    }

    /** The state of every stat, by stat type. */
    ghost function Snapshot(): map<nat, StatState>
      requires Valid()
      reads Repr()
    {
      map k | k in unitStats :: unitStats[k].Snapshot()
    }

    /** A unit over the given stats, with an empty table of interaction filters. */
    constructor(stats: map<nat, Stat>, typeCount: nat)
      requires Registrable(stats, typeCount)
      ensures Valid() && unitStats == stats && this.typeCount == typeCount
      ensures statInteractionFilters == map[] && Repr() == Footprint(stats)
    {
      unitStats := stats;
      this.typeCount := typeCount;
      repr := Footprint(stats);
      statInteractionFilters := map[];
      new;
      assert old(allocated(Footprint(stats)));
    }

    /** Every stat keeps a sequence for every interaction type it may be asked about. */
    lemma StatsFit(k: nat, t: nat)
      requires Valid() && k in unitStats && t < typeCount
      ensures Fits(Snapshot()[k], t)
    {
      match unitStats[k]
      case DepletionStat(d) =>
        assert d.Valid();
      case ReferenceStat(_) =>
      case SequenceStat =>
      case SequenceByTypeStat(q) =>
    }

    /**
     * Routes a command to the stat it names, by the stat's class and the
     * command's intent; a command naming a missing stat is only logged.
     */
    method InteractWithStat(i: StatInteraction)
      requires Valid() && i.WellFormed() && i.interactionType < typeCount
      modifies Repr()
      ensures Valid()
      ensures i.statToAffect in old(Snapshot()) ==> Fits(old(Snapshot())[i.statToAffect], i.interactionType)
      ensures Snapshot() == Interact(old(Snapshot()), i)
    {
      if i.statToAffect !in unitStats {
        return;
      }
      StatsFit(i.statToAffect, i.interactionType);
      var stat := unitStats[i.statToAffect];
      RouteStat(stat, i);
      OnlyOneStatChanged(i.statToAffect);
    }

    /** When only the objects of one stat change, the other stats keep their state. */
    twostate lemma OnlyOneStatChanged(target: nat)
      requires old(Valid()) && target in unitStats && unitStats[target].Valid()
      requires forall o :: o in Repr() && o !in unitStats[target].Repr() ==> unchanged(o)
      ensures Valid()
      ensures Snapshot() == old(Snapshot())[target := unitStats[target].Snapshot()]
    {
      forall k | k in unitStats && k != target
        ensures unitStats[k].Snapshot() == old(unitStats[k].Snapshot()) && unitStats[k].Valid()
      {
        assert unitStats[k].Repr() !! unitStats[target].Repr();
        StatUnchanged(unitStats[k]);
      }
      MapUpdate(old(Snapshot()), Snapshot(), target);
    }

    /** GetStat: the stat of a type, or None where the source's lookup throws for a missing type. */
    method GetStat(statToGet: nat) returns (s: Option<Stat>)
      ensures s.Some? <==> statToGet in unitStats
      ensures s.Some? ==> s.value == unitStats[statToGet]
    {
      if statToGet in unitStats {
        s := Some(unitStats[statToGet]);
      } else {
        s := None;
      }
    }

    method HasStatInteractionFilter(filterName: string) returns (b: bool)
      ensures b <==> filterName in statInteractionFilters
    {
      b := filterName in statInteractionFilters;
    }

    /** Removes the named interaction filter if there is one. */
    method RemoveStatInteractionFilter(filterName: string)
      requires Valid()
      modifies this
      ensures Valid() && Snapshot() == old(Snapshot())
      ensures statInteractionFilters == old(statInteractionFilters) - {filterName}
    {
      var has := HasStatInteractionFilter(filterName);
      if has {
        statInteractionFilters := statInteractionFilters - {filterName};
      }
    }

    /** Adds a filter under a name not yet taken; a taken name leaves the table as it is. */
    method AddStatInteractionFilter(filterName: string, filter: StatInteractionFilter) returns (added: bool)
      requires Valid()
      modifies this
      ensures Valid() && Snapshot() == old(Snapshot())
      ensures added <==> filterName !in old(statInteractionFilters)
      ensures added ==> statInteractionFilters == old(statInteractionFilters)[filterName := filter]
      ensures !added ==> statInteractionFilters == old(statInteractionFilters)
    {
      var has := HasStatInteractionFilter(filterName);
      if has {
        return false;
      }
      statInteractionFilters := statInteractionFilters[filterName := filter];
      added := true;
    }

    /** Adds the filter under its name, replacing any filter already there. */
    method UpdateStatInteractionFilter(filterName: string, filter: StatInteractionFilter)
      requires Valid()
      modifies this
      ensures Valid() && Snapshot() == old(Snapshot())
      ensures statInteractionFilters == old(statInteractionFilters)[filterName := filter]
    {
      RemoveStatInteractionFilter(filterName);
      var added := AddStatInteractionFilter(filterName, filter);
      assert added;
    }
  }

  // ----------------------------------------------- one branch per class

  /**
   * The switch on the class of the stat: each class has its branch, and a
   * SEQUENCE stat (whose class is not part of this model) is left as it is.
   */
  method RouteStat(stat: Stat, i: StatInteraction)
    requires stat.Valid() && i.WellFormed() && Fits(stat.Snapshot(), i.interactionType)
    modifies stat.Repr()
    ensures stat.Valid()
    ensures stat.Snapshot() == Effect(old(stat.Snapshot()), i)
  {
    var c := stat.GetStatClass();
    if c == DEPLETION {
      var d := stat.AsStatDepletion().value;
      Route(d, i);
    } else if c == REFERENCE {
      var r := stat.AsStatReference().value;
      RouteReference(r, i);
    } else if c == SEQUENCE_BY_INTERACTION_TYPE {
      var q := stat.AsStatSequenceByInteractionType().value;
      RouteByType(q, i);
    }
  }

  /** The DEPLETION branch: one call on the depletion stat per intent. */
  method Route(d: StatDepletion, i: StatInteraction)
    requires d.Valid() && i.WellFormed() && i.interactionType < d.TypeCount()
    modifies d.Repr()
    ensures d.Valid()
    ensures i.interactionType < |old(d.Snapshot()).gain|
    ensures d.Snapshot() == DepletionEffect(old(d.Snapshot()), i)
  {
    var t := i.interactionType;
    match i.intent {
      case ADD_STAT_FILTER =>
        var _ := d.AddStatFilter(i.filter);
      case REMOVE_STAT_FILTER =>
        var _ := d.RemoveStatFilter(i.filterName.value);
      case STAT_GAIN =>
        var _ := d.GainStat(i.gain, t);
      case ADD_STAT_GAIN_FILTER =>
        var _ := d.AddGainFilter(i.filter, t);
      case ADD_STAT_DEPLETE_FILTER =>
        var _ := d.AddDepletionFilter(i.filter, t);
      case STAT_DEPLETE =>
        var _ := d.DepleteStat(i.deplete, t);
      case REMOVE_STAT_GAIN_FILTER =>
        var _ := d.RemoveGainFilter(i.filterName.value, t);
      case REMOVE_STAT_DEPLETE_FILTER =>
        var _ := d.RemoveDepletionFilter(i.filterName.value, t);
    }
  }

  /** The REFERENCE branch: the two plain filter intents; any other is only logged. */
  method RouteReference(r: StatReference, i: StatInteraction)
    requires r.Valid() && i.WellFormed()
    modifies r.Repr()
    ensures r.Valid()
    ensures r.Snapshot() == ReferenceEffect(old(r.Snapshot()), i)
  {
    if i.intent == ADD_STAT_FILTER {
      var _ := r.AddStatFilter(i.filter);
    } else if i.intent == REMOVE_STAT_FILTER {
      var _ := r.RemoveStatFilter(i.filterName.value);
    }
  }

  /** The SEQUENCE_BY_INTERACTION_TYPE branch, routed to the per-type calls. */
  method RouteByType(q: StatSequenceByInteractionType, i: StatInteraction)
    requires q.Valid() && i.WellFormed() && i.interactionType < q.TypeCount()
    modifies q.Repr()
    ensures q.Valid()
    ensures q.Snapshot() == ByTypeEffect(old(q.Snapshot()), i)
  {
    if i.intent == ADD_STAT_FILTER {
      var _ := q.AddStatFilter(i.filter, i.interactionType);
    } else if i.intent == REMOVE_STAT_FILTER {
      var _ := q.RemoveStatFilter(i.filterName.value, i.interactionType);
    }
  }

  /** The table of interaction filters as the base constructor leaves it: never assigned, so null. */
  function FilterTableAsWritten(): Option<map<string, StatInteractionFilter>> {
    None
  }

  /** HasStatInteractionFilter as written: a lookup in the table, which fails (None) while the table is null. */
  function HasStatInteractionFilterAsWritten(table: Option<map<string, StatInteractionFilter>>, filterName: string): (r: Option<bool>)
    ensures r.Some? <==> table.Some?
    ensures r.Some? ==> (r.value <==> filterName in table.value)
  {
    if table.None? then None else Some(filterName in table.value)
  }

  /** On a new unit every operation on the interaction-filter table starts with a lookup that fails. */
  lemma NewUnitFilterTableFails(filterName: string)
    ensures HasStatInteractionFilterAsWritten(FilterTableAsWritten(), filterName).None?
  {
  }
}
