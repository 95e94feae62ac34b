/**
 * Stat: the variant tag shared by every stat.  The base class is built only
 * by its subclasses, which set the tag and point their own `as...` view at
 * themselves; here a stat is a datatype with one variant per subclass, and
 * the views are the Options that only the matching variant fills.
 */
module Stats {
  import opened Wrappers
  import opened Filters
  import opened FilteredInts
  import opened Depletions
  import opened References
  import opened SequencesByType

  datatype Classes = NONE | DEPLETION | REFERENCE | SEQUENCE | SEQUENCE_BY_INTERACTION_TYPE

  /** The StatSequence class is not part of this model; its variant carries no state. */
  datatype Stat =
    | DepletionStat(depletion: StatDepletion)
    | ReferenceStat(reference: StatReference)
    | SequenceStat
    | SequenceByTypeStat(byType: StatSequenceByInteractionType)
  {
    /** The tag the subclass constructor passed; no stat is ever tagged NONE. */
    function GetStatClass(): (c: Classes)
      ensures c != NONE
      ensures c == DEPLETION <==> DepletionStat?
      ensures c == REFERENCE <==> ReferenceStat?
      ensures c == SEQUENCE <==> SequenceStat?
      ensures c == SEQUENCE_BY_INTERACTION_TYPE <==> SequenceByTypeStat?
    {
      match this
      case DepletionStat(_) => DEPLETION
      case ReferenceStat(_) => REFERENCE
      case SequenceStat => SEQUENCE
      case SequenceByTypeStat(_) => SEQUENCE_BY_INTERACTION_TYPE
    }

    function AsStatDepletion(): (v: Option<StatDepletion>)
      ensures v.Some? <==> GetStatClass() == DEPLETION
    {
      if DepletionStat? then Some(depletion) else None
    }

    function AsStatReference(): (v: Option<StatReference>)
      ensures v.Some? <==> GetStatClass() == REFERENCE
    {
      if ReferenceStat? then Some(reference) else None
    }

    function AsStatSequenceByInteractionType(): (v: Option<StatSequenceByInteractionType>)
      ensures v.Some? <==> GetStatClass() == SEQUENCE_BY_INTERACTION_TYPE
    {
      if SequenceByTypeStat? then Some(byType) else None
    }

    ghost function Repr(): set<object> {
      match this
      case DepletionStat(d) => d.Repr()
      case ReferenceStat(r) => r.Repr()
      case SequenceStat => {}
      case SequenceByTypeStat(q) => q.Repr()
    }

    ghost predicate Valid()
      reads Repr()
    {
      match this
      case DepletionStat(d) => d.Valid()
      case ReferenceStat(r) => r.Valid()
      case SequenceStat => true
      case SequenceByTypeStat(q) => q.Valid()
    }

    ghost function Snapshot(): StatState
      reads Repr()
    {
      match this
      case DepletionStat(d) => DepletionState(d.Snapshot())
      case ReferenceStat(r) => ReferenceState(r.Snapshot())
      case SequenceStat => SequenceState
      case SequenceByTypeStat(q) => SequenceByTypeState(q.Snapshot())
    }
  }

  /** The value a stat stands for, variant by variant. */
  datatype StatState =
    | DepletionState(account: Account)
    | ReferenceState(value: FilteredValue)
    | SequenceState
    | SequenceByTypeState(pipelines: seq<Pipeline>)
  {
    function Class(): Classes {
      match this
      case DepletionState(_) => DEPLETION
      case ReferenceState(_) => REFERENCE
      case SequenceState => SEQUENCE
      case SequenceByTypeState(_) => SEQUENCE_BY_INTERACTION_TYPE
    }
  }

  /** A stat's state has the stat's own tag: the tag never disagrees with what the stat holds. */
  lemma StateKeepsClass(s: Stat)
    ensures s.Snapshot().Class() == s.GetStatClass()
  {
  }
}
