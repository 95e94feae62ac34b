/**
 * StatInteraction: an immutable command aimed at one stat of a unit.  It
 * carries an intent, the stat to affect, an interaction type and a payload
 * (a filter, a filter name, a deplete amount or a gain amount).  The base
 * constructor is protected, so every command is built by one of the eight
 * intent subclasses; each sets its intent and exactly one payload field and
 * leaves the others at their defaults (no filter, no name, 0, 0).
 */
module Interactions {
  import opened Wrappers
  import opened Filters

  /** What a command asks of its stat. */
  datatype Intent =
    | ADD_STAT_FILTER | REMOVE_STAT_FILTER
    | STAT_DEPLETE | STAT_GAIN
    | ADD_STAT_DEPLETE_FILTER | REMOVE_STAT_DEPLETE_FILTER
    | ADD_STAT_GAIN_FILTER | REMOVE_STAT_GAIN_FILTER
  {
    predicate IsRemove() {
      this == REMOVE_STAT_FILTER || this == REMOVE_STAT_DEPLETE_FILTER || this == REMOVE_STAT_GAIN_FILTER
    }

    predicate IsAdd() {
      this == ADD_STAT_FILTER || this == ADD_STAT_DEPLETE_FILTER || this == ADD_STAT_GAIN_FILTER
    }
  }

  /**
   * The command record.  The stat and the interaction type are enum values,
   * numbered from 0; `filter` is None and `filterName` None where the source
   * holds null.  The fields are read-only and the getters of the source are
   * the field selectors.
   */
  datatype StatInteraction = StatInteraction(
    intent: Intent, statToAffect: nat, interactionType: nat,
    filter: Option<Filter>, filterName: Option<string>, deplete: int, gain: int)
  {
    /** The payload fields the intent does not use hold their defaults. */
    predicate WellFormed() {
      && (!intent.IsAdd() ==> filter == None)
      && (intent.IsRemove() <==> filterName.Some?)
      && (intent != STAT_DEPLETE ==> deplete == 0)
      && (intent != STAT_GAIN ==> gain == 0)
    }
  }

  function StatDeplete(deplete: int, statToAffect: nat, interactionType: nat): (r: StatInteraction)
    ensures r.WellFormed() && r.intent == STAT_DEPLETE && r.deplete == deplete
    ensures r.statToAffect == statToAffect && r.interactionType == interactionType
  {
    StatInteraction(STAT_DEPLETE, statToAffect, interactionType, None, None, deplete, 0)
  }

  function StatGain(gain: int, statToAffect: nat, interactionType: nat): (r: StatInteraction)
    ensures r.WellFormed() && r.intent == STAT_GAIN && r.gain == gain
    ensures r.statToAffect == statToAffect && r.interactionType == interactionType
  {
    StatInteraction(STAT_GAIN, statToAffect, interactionType, None, None, 0, gain)
  }

  function AddStatFilter(filter: Option<Filter>, statToAffect: nat, interactionType: nat): (r: StatInteraction)
    ensures r.WellFormed() && r.intent == ADD_STAT_FILTER && r.filter == filter
    ensures r.statToAffect == statToAffect && r.interactionType == interactionType
  {
    StatInteraction(ADD_STAT_FILTER, statToAffect, interactionType, filter, None, 0, 0)
  }

  function RemoveStatFilter(filterName: string, statToAffect: nat, interactionType: nat): (r: StatInteraction)
    ensures r.WellFormed() && r.intent == REMOVE_STAT_FILTER && r.filterName == Some(filterName)
    ensures r.statToAffect == statToAffect && r.interactionType == interactionType
  {
    StatInteraction(REMOVE_STAT_FILTER, statToAffect, interactionType, None, Some(filterName), 0, 0)
  }

  function AddStatDepleteFilter(filter: Option<Filter>, statToAffect: nat, interactionType: nat): (r: StatInteraction)
    ensures r.WellFormed() && r.intent == ADD_STAT_DEPLETE_FILTER && r.filter == filter
    ensures r.statToAffect == statToAffect && r.interactionType == interactionType
  {
    StatInteraction(ADD_STAT_DEPLETE_FILTER, statToAffect, interactionType, filter, None, 0, 0)
  }

  function RemoveStatDepleteFilter(filterName: string, statToAffect: nat, interactionType: nat): (r: StatInteraction)
    ensures r.WellFormed() && r.intent == REMOVE_STAT_DEPLETE_FILTER && r.filterName == Some(filterName)
    ensures r.statToAffect == statToAffect && r.interactionType == interactionType
  {
    StatInteraction(REMOVE_STAT_DEPLETE_FILTER, statToAffect, interactionType, None, Some(filterName), 0, 0)
  }

  function AddStatGainFilter(filter: Option<Filter>, statToAffect: nat, interactionType: nat): (r: StatInteraction)
    ensures r.WellFormed() && r.intent == ADD_STAT_GAIN_FILTER && r.filter == filter
    ensures r.statToAffect == statToAffect && r.interactionType == interactionType
  {
    StatInteraction(ADD_STAT_GAIN_FILTER, statToAffect, interactionType, filter, None, 0, 0)
  }

  function RemoveStatGainFilter(filterName: string, statToAffect: nat, interactionType: nat): (r: StatInteraction)
    ensures r.WellFormed() && r.intent == REMOVE_STAT_GAIN_FILTER && r.filterName == Some(filterName)
    ensures r.statToAffect == statToAffect && r.interactionType == interactionType
  {
    StatInteraction(REMOVE_STAT_GAIN_FILTER, statToAffect, interactionType, None, Some(filterName), 0, 0)
  }

  /** The subclass constructor for the intent of `i`, applied to the payload of `i`. */
  function Rebuild(i: StatInteraction): StatInteraction
    requires i.WellFormed()
  {
    match i.intent
    case STAT_DEPLETE => StatDeplete(i.deplete, i.statToAffect, i.interactionType)
    case STAT_GAIN => StatGain(i.gain, i.statToAffect, i.interactionType)
    case ADD_STAT_FILTER => AddStatFilter(i.filter, i.statToAffect, i.interactionType)
    case ADD_STAT_DEPLETE_FILTER => AddStatDepleteFilter(i.filter, i.statToAffect, i.interactionType)
    case ADD_STAT_GAIN_FILTER => AddStatGainFilter(i.filter, i.statToAffect, i.interactionType)
    case REMOVE_STAT_FILTER => RemoveStatFilter(i.filterName.value, i.statToAffect, i.interactionType)
    case REMOVE_STAT_DEPLETE_FILTER => RemoveStatDepleteFilter(i.filterName.value, i.statToAffect, i.interactionType)
    case REMOVE_STAT_GAIN_FILTER => RemoveStatGainFilter(i.filterName.value, i.statToAffect, i.interactionType)
  }

  /**
   * The subclasses build exactly the well-formed commands: every well-formed
   * command is what its intent's subclass builds from its own payload.
   */
  lemma WellFormedAreBuilt(i: StatInteraction)
    requires i.WellFormed()
    ensures Rebuild(i) == i
  {
  }
}
