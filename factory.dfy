/**
 * StatFactory: builds stats and commands.  Each of the three command
 * builders accepts only the intents whose payload it carries (an amount, a
 * filter name, a filter) and returns null (None) for any other intent.
 */
module Factory {
  import opened Wrappers
  import opened Filters
  import opened FilteredInts
  import opened Depletions
  import opened References
  import opened Interactions

  /** The payload a command of each intent carries. */
  datatype Payload = Amount | Name | FilterPayload

  function PayloadOf(intent: Intent): Payload {
    match intent
    case STAT_DEPLETE => Amount
    case STAT_GAIN => Amount
    case REMOVE_STAT_FILTER => Name
    case REMOVE_STAT_DEPLETE_FILTER => Name
    case REMOVE_STAT_GAIN_FILTER => Name
    case ADD_STAT_FILTER => FilterPayload
    case ADD_STAT_DEPLETE_FILTER => FilterPayload
    case ADD_STAT_GAIN_FILTER => FilterPayload
  }

  /** The builder taking an amount: a gain or a deplete carrying it, nothing for other intents. */
  function NewStatInteractionWithAmount(intent: Intent, statToAffect: nat, interactionType: nat, valueToAddDeplete: int): (r: Option<StatInteraction>)
    ensures r.Some? <==> PayloadOf(intent) == Amount
    ensures r.Some? ==> r.value.WellFormed() && r.value.intent == intent
    ensures r.Some? ==> r.value.statToAffect == statToAffect && r.value.interactionType == interactionType
    ensures intent == STAT_GAIN ==> r.Some? && r.value.gain == valueToAddDeplete
    ensures intent == STAT_DEPLETE ==> r.Some? && r.value.deplete == valueToAddDeplete
  {
    match intent
    case STAT_GAIN => Some(StatGain(valueToAddDeplete, statToAffect, interactionType))
    case STAT_DEPLETE => Some(StatDeplete(valueToAddDeplete, statToAffect, interactionType))
    case _ => None
  }

  /** The builder taking a filter name: the three removals, nothing for other intents. */
  function NewStatInteractionWithName(intent: Intent, statToAffect: nat, interactionType: nat, filterToRemove: string): (r: Option<StatInteraction>)
    ensures r.Some? <==> PayloadOf(intent) == Name
    ensures r.Some? ==> r.value.WellFormed() && r.value.intent == intent && r.value.filterName == Some(filterToRemove)
    ensures r.Some? ==> r.value.statToAffect == statToAffect && r.value.interactionType == interactionType
  {
    match intent
    case REMOVE_STAT_FILTER => Some(RemoveStatFilter(filterToRemove, statToAffect, interactionType))
    case REMOVE_STAT_GAIN_FILTER => Some(RemoveStatGainFilter(filterToRemove, statToAffect, interactionType))
    case REMOVE_STAT_DEPLETE_FILTER => Some(RemoveStatDepleteFilter(filterToRemove, statToAffect, interactionType))
    case _ => None
  }

  /** The builder taking a filter: the three additions, nothing for other intents. */
  function NewStatInteractionWithFilter(intent: Intent, statToAffect: nat, interactionType: nat, filterToAdd: Option<Filter>): (r: Option<StatInteraction>)
    ensures r.Some? <==> PayloadOf(intent) == FilterPayload
    ensures r.Some? ==> r.value.WellFormed() && r.value.intent == intent && r.value.filter == filterToAdd
    ensures r.Some? ==> r.value.statToAffect == statToAffect && r.value.interactionType == interactionType
  {
    match intent
    case ADD_STAT_FILTER => Some(AddStatFilter(filterToAdd, statToAffect, interactionType))
    case ADD_STAT_GAIN_FILTER => Some(AddStatGainFilter(filterToAdd, statToAffect, interactionType))
    case ADD_STAT_DEPLETE_FILTER => Some(AddStatDepleteFilter(filterToAdd, statToAffect, interactionType))
    case _ => None
  }

  /** The builder that the payload of `i` selects, called with the fields of `i`. */
  function Reissue(i: StatInteraction): Option<StatInteraction>
    requires i.WellFormed()
  {
    match PayloadOf(i.intent)
    case Amount =>
      NewStatInteractionWithAmount(i.intent, i.statToAffect, i.interactionType, if i.intent == STAT_GAIN then i.gain else i.deplete)
    case Name => NewStatInteractionWithName(i.intent, i.statToAffect, i.interactionType, i.filterName.value)
    case FilterPayload => NewStatInteractionWithFilter(i.intent, i.statToAffect, i.interactionType, i.filter)
  }

  /** Every well-formed command can be built by the factory, and the factory gives back exactly it. */
  lemma FactoryBuildsEveryCommand(i: StatInteraction)
    requires i.WellFormed()
    ensures Reissue(i) == Some(i)
  {
    WellFormedAreBuilt(i);
  }

  /** A capacity stat with both bound flags off unless given. */
  method NewStatDepletion(statBase: int, typeCount: nat, canDepletePastZero: bool := false, canGainPastCeiling: bool := false)
    returns (s: StatDepletion)
    ensures s.Valid() && fresh(s.Repr()) && s.TypeCount() == typeCount
    ensures s.Snapshot() == NewAccount(statBase, typeCount, canDepletePastZero, canGainPastCeiling)
  {
    s := new StatDepletion(statBase, typeCount, canDepletePastZero, canGainPastCeiling);
  }

  method NewStatReference(statBase: int) returns (s: StatReference)
    ensures s.Valid() && fresh(s.Repr())
    ensures s.Snapshot() == FilteredValue(statBase, Empty())
  {
    s := new StatReference(statBase);
  }
}
