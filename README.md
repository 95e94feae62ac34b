# Stat engine of Defend The Castle, modelled in Dafny

This project models the stat engine behind the units of the tower-defence
game Defend The Castle, and proves properties of that model.

- **IntFilterSequence** holds named filters in three category stores:
  - a constant filter adds an integer;
  - a scalar filter multiplies by a factor;
  - a custom filter applies a function.

  The filters are applied to an integer in one of fifteen category orders,
  followed by one of three roundings.
- **IntConstFiltered** and **IntFiltered** are an integer base with a filter
  sequence of their own. They keep a cached filtered value that the sequence
  refreshes on every change.
- The stats of a unit:
  - a **StatReference** is a filtered value;
  - a **StatSequenceByInteractionType** keeps one filter sequence per
    interaction type;
  - a **StatDepletion** is a filtered capacity with a running total of
    depletion. Two flags say whether the total may pass the capacity or drop
    below zero. It also keeps one depletion and one gain filter sequence per
    interaction type.
- **Commands** (StatInteraction) are immutable. Each names a stat, an
  interaction type, an intent and a payload. **StatFactory** builds commands
  and stats.
- **StatInteractionFilter** holds qualifiers and actions. An action either
  blocks a command or derives new commands from a template.
- **Unit** holds its stats by stat type and a table of named interaction
  filters. It routes every command by the class of the stat and the intent of
  the command.

How the model is built:

- Every mutable class of the source is a Dafny `class`. Each has a ghost
  `Snapshot()` (or `Model()`) into a pure value: a `Pipeline`, a
  `FilteredValue`, an `Account`, or a map of `StatState`.
- Every method's `ensures` ties its new state and result to a pure function
  of the old state: `Apply`, `Deplete`, `Gain`, `Reset`, `Clamp`,
  `AddFilter`, `Remove`, `Interact` and so on.
- The lemmas prove what the source promises of those functions.
- The unit tests of the repository appear as worked scenarios: filtered
  integers, rounding, depletion stats with armour and with custom interaction
  types, an enemy, and units with health, speed and typed damage. They are
  methods that run the model, or lemmas about its functions, whose `ensures`
  state the values the tests expect.

Modelling choices:

- Floats are modelled as exact reals.
- Enum values (stat types, interaction types) are natural numbers counted
  from 0. The number of interaction types is a constructor parameter.
- A null filter, filter name or table is `None`.

## Model

| member | source | states |
|---|---|---|
| `Filters.Categories` | Assets/Scripts/Utility/IntClasses/IntFilterSequence.cs:51-71 | every order visits one to three categories, none twice |
| `Filters.OrderTableIsInjective` | Assets/Scripts/Utility/IntClasses/IntFilterSequence.cs:51-71 | no two orders of the application-order table list the same categories |
| `Filters.EveryArrangementIsAnOrder` | Assets/Scripts/Utility/IntClasses/IntFilterSequence.cs:29-50 | the fifteen orders are exactly the non-empty arrangements of distinct categories |
| `Filters.Without` | Assets/Scripts/Utility/IntClasses/IntFilterSequence.cs:272 | removing a name from a store drops exactly that name, keeps the others in sequence, and keeps names unique and categories pure |
| `Filters.AddKeepsValid` | Assets/Scripts/Utility/IntClasses/IntFilterSequence.cs:239-242 | storing a filter registers exactly its name; with a free name the stores stay well formed |
| `Filters.RemoveKeepsValid` | Assets/Scripts/Utility/IntClasses/IntFilterSequence.cs:272-275 | removing unregisters exactly the given name and keeps the stores well formed |
| `Filters.RemoveAbsent` | Assets/Scripts/Utility/IntClasses/IntFilterSequence.cs:261-263 | removing a name that is not registered changes nothing |
| `Filters.AddThenRemove` | Assets/Scripts/Utility/IntClasses/IntFilterSequence.cs:229-279 | adding an accepted filter and then removing it by name restores the sequence |
| `Filters.RoundDown` | Assets/Scripts/Utility/IntClasses/IntFilterSequence.cs:200-201 | DOWN rounding gives the greatest integer not above the value |
| `Filters.RoundUp` | Assets/Scripts/Utility/IntClasses/IntFilterSequence.cs:202-203 | UP rounding gives the least integer not below the value |
| `Filters.RoundHalfAwayFromZero` | Assets/Scripts/Utility/IntClasses/IntFilterSequence.cs:204-205 | MIDDLE rounding gives the nearest integer, with halves going away from zero |
| `Filters.RunCategoriesAppend` | Assets/Scripts/Utility/IntClasses/IntFilterSequence.cs:181-196 | the category steps compose: running a list of categories then another is running the two lists joined |
| `Filters.RoundIntegers` | Assets/Scripts/Utility/IntClasses/IntFilterSequence.cs:198-206 | every rounding leaves an integral value as it is |
| `Filters.EmptyIsIdentity` | Assets/Scripts/Utility/IntClasses/IntFilterSequence.cs:172-210 | with no filters stored, the filtered value is the input, whatever the order and rounding |
| `Filters.UnlistedCategoriesIgnored` | Assets/Scripts/Utility/IntClasses/IntFilterSequence.cs:176-196 | filters of a category the order does not list have no effect |
| `Filters.ConstantsAddTheirSum` | Assets/Scripts/Utility/IntClasses/IntFilterSequence.cs:354-362 | a store of constant filters adds the sum of its amounts |
| `Filters.ScalarsMultiplyOnce` | Assets/Scripts/Utility/IntClasses/IntFilterSequence.cs:178-194 | folding scalars into a total that starts at 1 and multiplying once equals applying them one by one |
| `Filters.RegistryAdd` | Assets/Scripts/Utility/IntClasses/IntFilterSequence.cs:239-242 | adding a new filter enters exactly its name in the registry, under its own category |
| `Filters.RegistryRemove` | Assets/Scripts/Utility/IntClasses/IntFilterSequence.cs:272-275 | removing strikes exactly the given name from the registry; every other name keeps its category |
| `Filters.LocatedIn` | Assets/Scripts/Utility/IntClasses/IntFilterSequence.cs:266-272 | a registered name sits in the store its registry entry names, and in no other |
| `Filters.RemoveAt` | Assets/Scripts/Utility/IntClasses/IntFilterSequence.cs:272 | removing a registered name changes only the store that holds it |
| `Filters.RemoveFromItsStore` | Assets/Scripts/Utility/IntClasses/IntFilterSequence.cs:266-272 | removing from the store the registry names is the same as removing from every store |
| `Filters.RegisteredAdd` | Assets/Scripts/Utility/IntClasses/IntFilterSequence.cs:239-242 | after an accepted add, the registry still locates exactly the stored names |
| `Filters.RegisteredRemove` | Assets/Scripts/Utility/IntClasses/IntFilterSequence.cs:259-279 | after a remove, the registry still locates exactly the stored names |
| `Filters.RegisteredRemoveFrom` | Assets/Scripts/Utility/IntClasses/IntFilterSequence.cs:266-275 | a registry lookup then a removal from that one store keeps stores and registry in step |
| `Filters.FilterSequence.constructor` | Assets/Scripts/Utility/IntClasses/IntFilterSequence.cs:94-112 | a new sequence has three empty stores, an empty registry, the default order CONSTANT_SCALAR_CUSTOM and rounding DOWN |
| `Filters.FilterSequence.SetFilterOrder` | Assets/Scripts/Utility/IntClasses/IntFilterSequence.cs:136-139 | only the order changes |
| `Filters.FilterSequence.GetFilterOrder` | Assets/Scripts/Utility/IntClasses/IntFilterSequence.cs:145-147 | returns the current order |
| `Filters.FilterSequence.SetAfterFilterRounding` | Assets/Scripts/Utility/IntClasses/IntFilterSequence.cs:153-156 | only the rounding changes |
| `Filters.FilterSequence.GetAfterFilterRounding` | Assets/Scripts/Utility/IntClasses/IntFilterSequence.cs:162-164 | returns the current rounding |
| `Filters.FilterSequence.ApplyFilters` | Assets/Scripts/Utility/IntClasses/IntFilterSequence.cs:172-210 | the nested loops compute `Apply`: each listed category in order (scalars through one running total), then the rounding |
| `Filters.FilterSequence.HasFilter` | Assets/Scripts/Utility/IntClasses/IntFilterSequence.cs:287-293 | true exactly when some store holds the name |
| `Filters.FilterSequence.AddFilter` | Assets/Scripts/Utility/IntClasses/IntFilterSequence.cs:218-251 | refuses null and taken names (returning false, changing nothing); otherwise appends to the filter's own store and registers it |
| `Filters.FilterSequence.RemoveFilter` | Assets/Scripts/Utility/IntClasses/IntFilterSequence.cs:259-279 | false and no change for an unregistered name; otherwise the filter leaves its store and the registry |
| `FilteredInts.FreshValueIsBase` | Assets/Scripts/Utility/IntClasses/IntConstFiltered.cs:21-25 | a new filtered integer is worth its base |
| `FilteredInts.AddThenRemoveRestoresValue` | Assets/Scripts/Utility/IntClasses/IntConstFiltered.cs:111-123 | adding a filter and removing it again restores the filtered value |
| `FilteredInts.IntConstFiltered.constructor` | Assets/Scripts/Utility/IntClasses/IntConstFiltered.cs:21-25 | base and cache equal the given integer; the sequence is empty |
| `FilteredInts.IntConstFiltered.GetFilteredInt` | Assets/Scripts/Utility/IntClasses/IntConstFiltered.cs:50-52 | the cache always equals the base run through the current filters |
| `FilteredInts.IntConstFiltered.GetBaseInt` | Assets/Scripts/Utility/IntClasses/IntConstFiltered.cs:90-92 | returns the fixed base |
| `FilteredInts.IntConstFiltered.UpdateFilteredConstInt` | Assets/Scripts/Utility/IntClasses/IntConstFiltered.cs:139-142 | recomputes the cache from the sequence and alerts the observer with it |
| `FilteredInts.IntConstFiltered.SetFilterOrder` | Assets/Scripts/Utility/IntClasses/IntConstFiltered.cs:58-60 | the order changes, the cache follows, and the observer is alerted once |
| `FilteredInts.IntConstFiltered.GetFilterOrder` | Assets/Scripts/Utility/IntClasses/IntConstFiltered.cs:66-68 | returns the sequence's order |
| `FilteredInts.IntConstFiltered.SetAfterFilterRounding` | Assets/Scripts/Utility/IntClasses/IntConstFiltered.cs:74-76 | the rounding changes, the cache follows, and the observer is alerted once |
| `FilteredInts.IntConstFiltered.GetAfterFilterRounding` | Assets/Scripts/Utility/IntClasses/IntConstFiltered.cs:82-84 | returns the sequence's rounding |
| `FilteredInts.IntConstFiltered.AddFilter` | Assets/Scripts/Utility/IntClasses/IntConstFiltered.cs:100-113 | the sequence's verdict and effect; the observer is alerted only when the filter was accepted |
| `FilteredInts.IntConstFiltered.RemoveFilter` | Assets/Scripts/Utility/IntClasses/IntConstFiltered.cs:121-123 | the sequence's verdict and effect; the observer is alerted only when a filter was removed |
| `FilteredInts.IntConstFiltered.HasFilter` | Assets/Scripts/Utility/IntClasses/IntConstFiltered.cs:131-133 | true exactly when the sequence holds the name |
| `FilteredInts.IntFiltered.constructor` | Assets/Scripts/Utility/Stats/StatDepletion.cs:56 | base and cache equal the given integer; the sequence is empty |
| `FilteredInts.IntFiltered.GetFilteredInt` | Assets/Scripts/Utility/Stats/StatReference.cs:65-67 | the cache always equals the current base run through the current filters |
| `FilteredInts.IntFiltered.GetBaseInt` | Assets/Scripts/Utility/Stats/StatReference.cs:46-48 | returns the current base |
| `FilteredInts.IntFiltered.SetBaseInt` | Assets/Scripts/Utility/Stats/StatReference.cs:56-58 | replaces the base, refreshes the cache and returns the new filtered value |
| `FilteredInts.IntFiltered.UpdateFilteredInt` | Assets/Scripts/Utility/IntClasses/IntConstFiltered.cs:139-142 | the sequence's change notification, as in the constant twin: the cache is recomputed and the observer alerted |
| `FilteredInts.IntFiltered.SetFilterOrder` | Assets/Scripts/Utility/Stats/StatReference.cs:81-83 | the order changes and the cache follows |
| `FilteredInts.IntFiltered.GetFilterOrder` | Assets/Scripts/Utility/Stats/StatReference.cs:73-75 | returns the sequence's order |
| `FilteredInts.IntFiltered.SetAfterFilterRounding` | Assets/Scripts/Utility/Stats/StatReference.cs:89-91 | the rounding changes and the cache follows |
| `FilteredInts.IntFiltered.GetAfterFilterRounding` | Assets/Scripts/Utility/Stats/StatReference.cs:97-99 | returns the sequence's rounding |
| `FilteredInts.IntFiltered.AddFilter` | Assets/Scripts/Utility/Stats/StatReference.cs:107-120 | the sequence's verdict and effect, the cache following an accepted filter |
| `FilteredInts.IntFiltered.RemoveFilter` | Assets/Scripts/Utility/Stats/StatReference.cs:128-130 | the sequence's verdict and effect, the cache following a removal |
| `FilteredInts.IntFiltered.HasFilter` | Assets/Scripts/Utility/Stats/StatReference.cs:138-140 | true exactly when the sequence holds the name |
| `References.StatReference.constructor` | Assets/Scripts/Utility/Stats/StatReference.cs:17-22 | a reference stat of the given base with no filters |
| `References.StatReference.GetStatBase` | Assets/Scripts/Utility/Stats/StatReference.cs:46-48 | returns the base |
| `References.StatReference.SetStatBase` | Assets/Scripts/Utility/Stats/StatReference.cs:56-58 | only the base changes; returns the new filtered value |
| `References.StatReference.GetStatFiltered` | Assets/Scripts/Utility/Stats/StatReference.cs:65-67 | returns the base run through the filters |
| `References.StatReference.GetStatFilterOrder` | Assets/Scripts/Utility/Stats/StatReference.cs:73-75 | returns the order |
| `References.StatReference.SetStatFilterOrder` | Assets/Scripts/Utility/Stats/StatReference.cs:81-83 | only the order changes |
| `References.StatReference.SetAfterFilterRounding` | Assets/Scripts/Utility/Stats/StatReference.cs:89-91 | only the rounding changes |
| `References.StatReference.GetAfterFilterRounding` | Assets/Scripts/Utility/Stats/StatReference.cs:97-99 | returns the rounding |
| `References.StatReference.AddStatFilter` | Assets/Scripts/Utility/Stats/StatReference.cs:107-120 | accepts exactly a present filter with a free name, and then adds it |
| `References.StatReference.RemoveStatFilter` | Assets/Scripts/Utility/Stats/StatReference.cs:128-130 | succeeds exactly for a registered name, and then removes it |
| `References.StatReference.HasStatFilter` | Assets/Scripts/Utility/Stats/StatReference.cs:138-140 | true exactly when the name is registered |
| `SequencesByType.StatSequenceByInteractionType.constructor` | Assets/Scripts/Utility/Stats/StatSequenceByInteractionType.cs:19-28 | one blank sequence per interaction type |
| `SequencesByType.StatSequenceByInteractionType.GetStatFiltered` | Assets/Scripts/Utility/Stats/StatSequenceByInteractionType.cs:53-55 | the value run through the sequence of its interaction type |
| `SequencesByType.StatSequenceByInteractionType.GetStatFilterOrder` | Assets/Scripts/Utility/Stats/StatSequenceByInteractionType.cs:61-63 | the order of that type's sequence |
| `SequencesByType.StatSequenceByInteractionType.SetStatFilterOrder` | Assets/Scripts/Utility/Stats/StatSequenceByInteractionType.cs:69-71 | only that type's order changes |
| `SequencesByType.StatSequenceByInteractionType.SetAfterFilterRounding` | Assets/Scripts/Utility/Stats/StatSequenceByInteractionType.cs:77-79 | only that type's rounding changes |
| `SequencesByType.StatSequenceByInteractionType.GetAfterFilterRounding` | Assets/Scripts/Utility/Stats/StatSequenceByInteractionType.cs:85-87 | the rounding of that type's sequence |
| `SequencesByType.StatSequenceByInteractionType.AddStatFilter` | Assets/Scripts/Utility/Stats/StatSequenceByInteractionType.cs:95-108 | adds to that type's sequence only, with that sequence's verdict |
| `SequencesByType.StatSequenceByInteractionType.RemoveStatFilter` | Assets/Scripts/Utility/Stats/StatSequenceByInteractionType.cs:116-118 | removes from that type's sequence only, with that sequence's verdict |
| `SequencesByType.StatSequenceByInteractionType.HasStatFilter` | Assets/Scripts/Utility/Stats/StatSequenceByInteractionType.cs:126-128 | true exactly when that type's sequence holds the name |
| `Depletions.NewAccount` | Assets/Scripts/Utility/Stats/StatDepletion.cs:54-80 | a new depletion stat: nothing depleted, filtered capacity equal to the base, one fresh sequence per type on each side |
| `Depletions.ClampedTotal` | Assets/Scripts/Utility/Stats/StatDepletion.cs:105-115 | the clamped total respects each flag's bound; a total within bounds is kept; otherwise it becomes the capacity or 0 |
| `Depletions.Remaining` | Assets/Scripts/Utility/Stats/StatDepletion.cs:500-508 | capacity minus total, raised to 0 only when the stat may not deplete past zero |
| `Depletions.FilteredAmount` | Assets/Scripts/Utility/Stats/StatDepletion.cs:284-289 | the filtered amount, with a negative result counting as nothing |
| `Depletions.Reset` | Assets/Scripts/Utility/Stats/StatDepletion.cs:92-100 | only the total changes, whatever the flags: a negative request gives 0, one above the capacity gives the capacity, and anything between is kept; with a capacity of at least 0 the total lands in [0, capacity] |
| `Depletions.DepleteRespectsBounds` | Assets/Scripts/Utility/Stats/StatDepletion.cs:282-300 | after a deplete the total and the remaining value respect the flags |
| `Depletions.GainRespectsBounds` | Assets/Scripts/Utility/Stats/StatDepletion.cs:473-491 | after a gain the total respects the flags |
| `Depletions.DepleteAndGainAreMonotone` | Assets/Scripts/Utility/Stats/StatDepletion.cs:286-292 | from within bounds, a deplete never raises the remaining value and a gain never lowers it |
| `Depletions.DepleteAndGainKeepTheRest` | Assets/Scripts/Utility/Stats/StatDepletion.cs:282-300 | deplete and gain change the total only |
| `Depletions.EmptyStoresPassThrough` | Assets/Scripts/Utility/Stats/StatDepletion.cs:284 | an empty depletion or gain sequence passes amounts through |
| `Depletions.DepleteThenGain` | Assets/Scripts/Utility/Stats/StatDepletion.cs:282-300 | when the depletion and gain sequences of a type turn two amounts into the same value and the deplete stays within the flags' bounds, the gain undoes the deplete |
| `Depletions.DepleteThenGainUnfiltered` | Assets/Scripts/Utility/Stats/StatDepletion.cs:473-491 | with no filters under a type, a gain undoes a deplete of the same non-negative amount that stays within bounds |
| `Depletions.DepleteReadsOneType` | Assets/Scripts/Utility/Stats/StatDepletion.cs:282-284 | a deplete of one interaction type reads only that type's sequence |
| `Depletions.UpdateSequenceIsolated` | Assets/Scripts/Utility/Stats/StatDepletion.cs:219-220 | a per-type filter operation changes that type's sequence on that side and nothing else |
| `Depletions.FilterUnderOtherTypeIgnored` | Assets/Scripts/Utility/Stats/StatDepletion.cs:219-220 | a filter added under one type never changes depletes or gains of another |
| `Depletions.ResetLandsInBounds` | Assets/Scripts/Utility/Stats/StatDepletion.cs:88-100 | a reset lands within the bounds of both flags, where a later clamp leaves it |
| `Depletions.CapacityDropMayLeaveBounds` | Assets/Scripts/Utility/Stats/StatDepletion.cs:524-526 | lowering the capacity below the total (10 of 10, then a capacity of 5) leaves the stat out of bounds, because the total is not re-clamped; the remaining value reads 0 |
| `Depletions.ClampRestoresBounds` | Assets/Scripts/Utility/Stats/StatDepletion.cs:105-115 | with a capacity of at least 0, the clamp brings the total within the flags' bounds, and it changes nothing exactly when the total already is |
| `Depletions.NextCommandRestoresBounds` | Assets/Scripts/Utility/Stats/StatDepletion.cs:282-300 | after a capacity change to a value of at least 0, the next deplete or gain brings the total back within bounds |
| `Depletions.FilterOperationsKeepValid` | Assets/Scripts/Utility/Stats/StatDepletion.cs:208-242 | adding and removing per-type filters keep every sequence well formed |
| `Depletions.NewSequences` | Assets/Scripts/Utility/Stats/StatDepletion.cs:64-75 | the fill loop creates the requested number of distinct, fresh, empty sequences |
| `Depletions.StatDepletion.constructor` | Assets/Scripts/Utility/Stats/StatDepletion.cs:42-80 | the state is `NewAccount` of the base and flags, both flags false by default |
| `Depletions.StatDepletion.GetCanDepletePastZeroSetting` | Assets/Scripts/Utility/Stats/StatDepletion.cs:84-86 | returns the flag |
| `Depletions.StatDepletion.ResetDepletionAmount` | Assets/Scripts/Utility/Stats/StatDepletion.cs:92-100 | the new state is `Reset` of the old |
| `Depletions.StatDepletion.ClampDepletionAmount` | Assets/Scripts/Utility/Stats/StatDepletion.cs:105-115 | the new state is the old with the clamped total |
| `Depletions.StatDepletion.SetDepletionFilterOrder` | Assets/Scripts/Utility/Stats/StatDepletion.cs:125-136 | only the order of the named type's depletion sequence changes (type 0 by default) |
| `Depletions.StatDepletion.GetDepletionFilterOrder` | Assets/Scripts/Utility/Stats/StatDepletion.cs:151-153 | the order of the named type's depletion sequence |
| `Depletions.StatDepletion.SetDepletionAfterFilterRounding` | Assets/Scripts/Utility/Stats/StatDepletion.cs:182-184 | only the rounding of the named type's depletion sequence changes |
| `Depletions.StatDepletion.SetDepletionAfterFilterRoundingForAll` | Assets/Scripts/Utility/Stats/StatDepletion.cs:168-176 | with the flag, every depletion sequence gets the rounding; without it, only type 0 |
| `Depletions.StatDepletion.GetDepletionAfterFilterRounding` | Assets/Scripts/Utility/Stats/StatDepletion.cs:190-200 | the rounding of the named type's depletion sequence |
| `Depletions.StatDepletion.AddDepletionFilter` | Assets/Scripts/Utility/Stats/StatDepletion.cs:208-221 | accepted exactly when present with a free name in that type's sequence, which alone changes |
| `Depletions.StatDepletion.RemoveDepletionFilter` | Assets/Scripts/Utility/Stats/StatDepletion.cs:229-242 | succeeds exactly for a name registered in that type's sequence, which alone changes |
| `Depletions.StatDepletion.HasDepletionFilter` | Assets/Scripts/Utility/Stats/StatDepletion.cs:250-263 | true exactly when that type's depletion sequence holds the name |
| `Depletions.StatDepletion.FilteredDepletion` | Assets/Scripts/Utility/Stats/StatDepletion.cs:284-289 | the amount filtered by that type's depletion sequence, never negative |
| `Depletions.StatDepletion.DepleteStat` | Assets/Scripts/Utility/Stats/StatDepletion.cs:271-300 | the new state is `Deplete` of the old; returns the remaining value |
| `Depletions.StatDepletion.GetCanGainPastCeilingSetting` | Assets/Scripts/Utility/Stats/StatDepletion.cs:304-306 | returns the flag |
| `Depletions.StatDepletion.SetGainFilterOrder` | Assets/Scripts/Utility/Stats/StatDepletion.cs:316-327 | only the order of the named type's gain sequence changes |
| `Depletions.StatDepletion.GetGainFilterOrder` | Assets/Scripts/Utility/Stats/StatDepletion.cs:333-344 | the order of the named type's gain sequence |
| `Depletions.StatDepletion.SetGainAfterFilterRounding` | Assets/Scripts/Utility/Stats/StatDepletion.cs:350-352 | only the rounding of the named type's gain sequence changes |
| `Depletions.StatDepletion.SetGainAfterFilterRoundingForAll` | Assets/Scripts/Utility/Stats/StatDepletion.cs:359-367 | with the flag, every gain sequence gets the rounding; without it, only type 0 |
| `Depletions.StatDepletion.GetGainAfterFilterRounding` | Assets/Scripts/Utility/Stats/StatDepletion.cs:381-391 | the rounding of the named type's gain sequence |
| `Depletions.StatDepletion.AddGainFilter` | Assets/Scripts/Utility/Stats/StatDepletion.cs:399-412 | accepted exactly when present with a free name in that type's gain sequence, which alone changes |
| `Depletions.StatDepletion.RemoveGainFilter` | Assets/Scripts/Utility/Stats/StatDepletion.cs:420-433 | succeeds exactly for a name registered in that type's gain sequence, which alone changes |
| `Depletions.StatDepletion.HasGainFilter` | Assets/Scripts/Utility/Stats/StatDepletion.cs:441-454 | true exactly when that type's gain sequence holds the name |
| `Depletions.StatDepletion.FilteredGain` | Assets/Scripts/Utility/Stats/StatDepletion.cs:475-480 | the amount filtered by that type's gain sequence, never negative |
| `Depletions.StatDepletion.GainStat` | Assets/Scripts/Utility/Stats/StatDepletion.cs:462-491 | the new state is `Gain` of the old; returns the remaining value |
| `Depletions.StatDepletion.GetRemainingStatValue` | Assets/Scripts/Utility/Stats/StatDepletion.cs:500-508 | the remaining value of the current state |
| `Depletions.StatDepletion.GetStatBase` | Assets/Scripts/Utility/Stats/StatDepletion.cs:514-516 | the base of the capacity |
| `Depletions.StatDepletion.SetStatBase` | Assets/Scripts/Utility/Stats/StatDepletion.cs:524-526 | only the capacity's base changes, and the total is not re-clamped; returns the new capacity |
| `Depletions.StatDepletion.GetStatFiltered` | Assets/Scripts/Utility/Stats/StatDepletion.cs:533-535 | the filtered capacity |
| `Depletions.StatDepletion.AddStatFilter` | Assets/Scripts/Utility/Stats/StatDepletion.cs:575-588 | a filter on the capacity; the total and the per-type sequences stay |
| `Depletions.StatDepletion.RemoveStatFilter` | Assets/Scripts/Utility/Stats/StatDepletion.cs:596-598 | removes a capacity filter; the total and the per-type sequences stay |
| `Depletions.StatDepletion.HasStatFilter` | Assets/Scripts/Utility/Stats/StatDepletion.cs:606-608 | true exactly when the capacity's sequence holds the name |
| `Depletions.StatDepletion.GetStatFilterOrder` | Assets/Scripts/Utility/Stats/StatDepletion.cs:541-543 | the capacity's order |
| `Depletions.StatDepletion.SetStatFilterOrder` | Assets/Scripts/Utility/Stats/StatDepletion.cs:549-551 | only the capacity's order changes |
| `Depletions.StatDepletion.SetStatAfterFilterRounding` | Assets/Scripts/Utility/Stats/StatDepletion.cs:557-559 | only the capacity's rounding changes |
| `Depletions.StatDepletion.GetStatAfterFilterRounding` | Assets/Scripts/Utility/Stats/StatDepletion.cs:565-567 | the capacity's rounding |
| `Depletions.SetEveryRounding` | Assets/Scripts/Utility/Stats/StatDepletion.cs:172-174 | the all-types loop sets the rounding of every sequence and changes nothing else |
| `Depletions.DepletionOrderGetterNeverReturns` | Assets/Scripts/Utility/Stats/StatDepletion.cs:142-144 | the getter without a type, as written, never produces an order, however deep the stack |
| `Interactions.StatDeplete` | Assets/Scripts/Utility/Stats/StatInteraction/StatInteractionStatDeplete.cs:7-10 | a well-formed deplete carrying the amount, stat and type |
| `Interactions.StatGain` | Assets/Scripts/Utility/Stats/StatInteraction/StatInteractionStatGain.cs:7-10 | a well-formed gain carrying the amount, stat and type |
| `Interactions.AddStatFilter` | Assets/Scripts/Utility/Stats/StatInteraction/StatInteractionAddStatFilter.cs:7-10 | a well-formed add of a filter on the stat's value |
| `Interactions.RemoveStatFilter` | Assets/Scripts/Utility/Stats/StatInteraction/StatInteractionRemoveStatFilter.cs:7-10 | a well-formed removal by name of a filter on the stat's value |
| `Interactions.AddStatDepleteFilter` | Assets/Scripts/Utility/Stats/StatInteraction/StatInteractionAddStatDepleteFilter.cs:7-10 | a well-formed add of a depletion filter |
| `Interactions.RemoveStatDepleteFilter` | Assets/Scripts/Utility/Stats/StatInteraction/StatInteractionRemoveStatDepleteFilter.cs:7-10 | a well-formed removal of a depletion filter |
| `Interactions.AddStatGainFilter` | Assets/Scripts/Utility/Stats/StatInteraction/StatInteractionAddStatGainFilter.cs:7-10 | a well-formed add of a gain filter |
| `Interactions.RemoveStatGainFilter` | Assets/Scripts/Utility/Stats/StatInteraction/StatInteractionRemoveStatGainFilter.cs:7-10 | a well-formed removal of a gain filter |
| `Interactions.WellFormedAreBuilt` | Assets/Scripts/Utility/Stats/StatInteraction/StatInteraction.cs:39-43 | the eight subclasses build exactly the well-formed commands |
| `Factory.NewStatInteractionWithAmount` | Assets/Scripts/Utility/Stats/StatFactory.cs:32-44 | a command exactly for deplete and gain, carrying the amount; null for any other intent |
| `Factory.NewStatInteractionWithName` | Assets/Scripts/Utility/Stats/StatFactory.cs:52-66 | a command exactly for the three removals, carrying the name; null otherwise |
| `Factory.NewStatInteractionWithFilter` | Assets/Scripts/Utility/Stats/StatFactory.cs:74-88 | a command exactly for the three additions, carrying the filter; null otherwise |
| `Factory.FactoryBuildsEveryCommand` | Assets/Scripts/Utility/Stats/StatFactory.cs:32-88 | every well-formed command is what the builder for its payload returns from its fields |
| `Factory.NewStatDepletion` | Assets/Scripts/Utility/Stats/StatFactory.cs:18-24 | a fresh depletion stat in the state `NewAccount` |
| `Factory.NewStatReference` | Assets/Scripts/Utility/Stats/StatFactory.cs:14-16 | a fresh reference stat of the base, with no filters |
| `Stats.Stat.GetStatClass` | Assets/Scripts/Utility/Stats/Stat.cs:24-26 | the tag matches the subclass and is never NONE |
| `Stats.Stat.AsStatDepletion` | Assets/Scripts/Utility/Stats/Stat.cs:13 | set exactly for a stat tagged DEPLETION |
| `Stats.Stat.AsStatReference` | Assets/Scripts/Utility/Stats/Stat.cs:12 | set exactly for a stat tagged REFERENCE |
| `Stats.Stat.AsStatSequenceByInteractionType` | Assets/Scripts/Utility/Stats/Stat.cs:15 | set exactly for a stat tagged SEQUENCE_BY_INTERACTION_TYPE |
| `Stats.StateKeepsClass` | Assets/Scripts/Utility/Stats/Stat.cs:20-22 | the state a stat holds always agrees with its tag |
| `InteractionFilters.AddGivenInteraction` | Assets/Scripts/Utility/Stats/StatInteraction/StatInteractionFilter/StatInteractionFilter.cs:171-176 | the one-argument add action: USE_GIVEN with modifier 1 |
| `InteractionFilters.OriginalValue` | Assets/Scripts/Utility/Stats/StatInteraction/StatInteractionFilter/StatInteractionFilter.cs:204-225 | the original's amount, or its filter's value, or 1 for removals; a null filter fails |
| `InteractionFilters.Rescale` | Assets/Scripts/Utility/Stats/StatInteraction/StatInteractionFilter/StatInteractionFilter.cs:236-246 | constants and scalars are rebuilt with the new value under the same name; customs are kept |
| `InteractionFilters.GetNewInteraction` | Assets/Scripts/Utility/Stats/StatInteraction/StatInteractionFilter/StatInteractionFilter.cs:189-268 | the template as given, or a command of the template's intent, stat and type; a derived deplete or gain carries the original's value times the modifier, rounded half away from zero, and a derived filter addition carries the template's filter rebuilt with that value; well-formed templates give well-formed commands |
| `InteractionFilters.BaseMethodsAgree` | Assets/Scripts/Utility/Stats/StatInteraction/StatInteractionFilter/StatInteractionFilter.cs:116-119 | the two based-on-original methods derive the same command |
| `InteractionFilters.DerivedAmountScales` | Assets/Scripts/Utility/Stats/StatInteraction/StatInteractionFilter/StatInteractionFilter.cs:228 | a derived deplete is the original amount times the modifier, rounded half away from zero |
| `InteractionFilters.UnitModifierRepeatsAmount` | Assets/Scripts/Utility/Stats/StatInteraction/StatInteractionFilter/StatInteractionFilter.cs:170-172 | with the default modifier 1 a derived deplete repeats the original amount |
| `InteractionFilters.Present` | Assets/Scripts/Utility/Stats/StatInteraction/StatInteractionFilter/StatInteractionFilter.cs:39-49 | the non-null elements: no more of them than given, and exactly the present ones |
| `InteractionFilters.ResultingLength` | Assets/Scripts/Utility/Stats/StatInteraction/StatInteractionFilter/StatInteractionFilter.cs:102-106 | one derived command per add action |
| `InteractionFilters.ResultingAppend` | Assets/Scripts/Utility/Stats/StatInteraction/StatInteractionFilter/StatInteractionFilter.cs:99-109 | derived commands follow the action list in order |
| `InteractionFilters.BlocksAddNothing` | Assets/Scripts/Utility/Stats/StatInteraction/StatInteractionFilter/StatInteractionFilter.cs:103 | a block action derives nothing, wherever it sits |
| `InteractionFilters.AsWrittenDerivesOnlyNulls` | Assets/Scripts/Utility/Stats/StatInteraction/StatInteractionFilter/StatInteractionFilter.cs:148-150 | as written, every derived command is null, one per add action |
| `InteractionFilters.ListConstructorDropsItsLists` | Assets/Scripts/Utility/Stats/StatInteraction/StatInteractionFilter/StatInteractionFilter.cs:35-50 | as written, the list constructor drops its lists and leaves both fields null |
| `InteractionFilters.StatInteractionFilter.constructor` | Assets/Scripts/Utility/Stats/StatInteraction/StatInteractionFilter/StatInteractionFilter.cs:17-20 | no qualifiers and no actions |
| `InteractionFilters.StatInteractionFilter.WithPair` | Assets/Scripts/Utility/Stats/StatInteraction/StatInteractionFilter/StatInteractionFilter.cs:22-33 | the qualifier and the action, each kept only when not null |
| `InteractionFilters.StatInteractionFilter.WithLists` | Assets/Scripts/Utility/Stats/StatInteraction/StatInteractionFilter/StatInteractionFilter.cs:35-50 | as intended: the non-null elements of each list, in order |
| `InteractionFilters.StatInteractionFilter.AddQualifier` | Assets/Scripts/Utility/Stats/StatInteraction/StatInteractionFilter/StatInteractionFilter.cs:54-58 | appends a non-null qualifier; actions unchanged |
| `InteractionFilters.StatInteractionFilter.AddFilterAction` | Assets/Scripts/Utility/Stats/StatInteraction/StatInteractionFilter/StatInteractionFilter.cs:82-86 | appends a non-null action; qualifiers unchanged |
| `InteractionFilters.StatInteractionFilter.Qualifies` | Assets/Scripts/Utility/Stats/StatInteraction/StatInteractionFilter/StatInteractionFilter.cs:60-80 | true exactly when some qualifier matches the stat, the interaction type and the intent |
| `InteractionFilters.StatInteractionFilter.HasBlockFilterAction` | Assets/Scripts/Utility/Stats/StatInteraction/StatInteractionFilter/StatInteractionFilter.cs:88-97 | true exactly when some action blocks |
| `InteractionFilters.StatInteractionFilter.GetResultingStatInteractions` | Assets/Scripts/Utility/Stats/StatInteraction/StatInteractionFilter/StatInteractionFilter.cs:99-109 | as intended: the command each add action derives, in list order |
| `InteractionFilters.Collect` | Assets/Scripts/Utility/Stats/StatInteraction/StatInteractionFilter/StatInteractionFilter.cs:39-43 | the loop keeps exactly the non-null elements, in order |
| `Units.DepletionEffect` | Assets/Scripts/Utility/Units/Unit.cs:53-82 | flags and sizes kept; only deplete and gain move the total; only the two plain filter intents touch the capacity |
| `Units.ReferenceEffect` | Assets/Scripts/Utility/Units/Unit.cs:83-97 | only adding or removing a filter changes a reference stat; the base never changes |
| `Units.ByTypeEffect` | Assets/Scripts/Utility/Units/Unit.cs:113-127 | only the command's type's sequence changes, and only for the two plain filter intents |
| `Units.Effect` | Assets/Scripts/Utility/Units/Unit.cs:52-130 | a command keeps the class of its stat; reference and per-type stats ignore intents they do not serve |
| `Units.Interact` | Assets/Scripts/Utility/Units/Unit.cs:37-131 | only the named stat changes, a missing stat changes nothing, and no stat changes class |
| `Units.SequenceRoutingDereferencesNull` | Assets/Scripts/Utility/Units/Unit.cs:98-127 | as written, routing fails exactly on a plain filter command to a sequence stat, and agrees with `Effect` elsewhere |
| `Units.ByTypeFilterLandsUnderItsType` | Assets/Scripts/Utility/Stats/StatSequenceByInteractionType.cs:95-108 | a filter sent to a per-type stat is registered under the command's type |
| `Units.CommandsKeepAccountValid` | Assets/Scripts/Utility/Units/Unit.cs:53-82 | every command keeps a depletion stat well formed |
| `Units.CommandsKeepBounds` | Assets/Scripts/Utility/Units/Unit.cs:55-80 | every command except a capacity filter change keeps the total within the flags' bounds |
| `Units.Unit.constructor` | Assets/Scripts/Utility/Units/Unit.cs:24-31 | the given stats, with an empty table of interaction filters |
| `Units.Unit.InteractWithStat` | Assets/Scripts/Utility/Units/Unit.cs:37-131 | the new state of all stats is `Interact` of the old |
| `Units.Unit.GetStat` | Assets/Scripts/Utility/Units/Unit.cs:188-190 | the stat of the type, or None where the lookup throws |
| `Units.Unit.HasStatInteractionFilter` | Assets/Scripts/Utility/Units/Unit.cs:142-148 | true exactly when the name is in the table |
| `Units.Unit.RemoveStatInteractionFilter` | Assets/Scripts/Utility/Units/Unit.cs:154-158 | the name leaves the table; stats unchanged |
| `Units.Unit.AddStatInteractionFilter` | Assets/Scripts/Utility/Units/Unit.cs:166-173 | added exactly under a free name; a taken name leaves the table as it was |
| `Units.Unit.UpdateStatInteractionFilter` | Assets/Scripts/Utility/Units/Unit.cs:180-183 | the filter is entered under its name, replacing any previous one |
| `Units.RouteStat` | Assets/Scripts/Utility/Units/Unit.cs:52-130 | the switch on the stat's class gives `Effect` |
| `Units.Route` | Assets/Scripts/Utility/Units/Unit.cs:53-82 | the DEPLETION branch gives `DepletionEffect` |
| `Units.RouteReference` | Assets/Scripts/Utility/Units/Unit.cs:83-97 | the REFERENCE branch gives `ReferenceEffect` |
| `Units.RouteByType` | Assets/Scripts/Utility/Units/Unit.cs:113-127 | the SEQUENCE_BY_INTERACTION_TYPE branch, as intended, gives `ByTypeEffect` |
| `Units.HasStatInteractionFilterAsWritten` | Assets/Scripts/Utility/Units/Unit.cs:142-148 | the table lookup fails exactly while the table is null |
| `Units.NewUnitFilterTableFails` | Assets/Scripts/Utility/Units/Unit.cs:14 | on a new unit, a lookup in the interaction-filter table fails, whatever the name |
| `DepletionScenarios.DepleteTen` | Assets/Editor/Tests/Utility/Stats/StatDepletionTest.cs:377-389 | a deplete on an unfiltered stat of capacity 10 adds the amount, stopping at the capacity |
| `DepletionScenarios.GainTen` | Assets/Editor/Tests/Utility/Stats/StatDepletionTest.cs:391-404 | a gain on it takes the amount off, stopping at zero |
| `DepletionScenarios.DepleteToEmpty` | Assets/Editor/Tests/Utility/Stats/StatDepletionTest.cs:376-389 | depletes of 3, 4 and 5 leave 7, 3 and 0 |
| `DepletionScenarios.GainToFull` | Assets/Editor/Tests/Utility/Stats/StatDepletionTest.cs:391-404 | gains of 4, 4 and 4 then give 4, 8 and 10 |
| `DepletionScenarios.BoundedDepleteAndGain` | Assets/Editor/Tests/Utility/Stats/StatDepletionTest.cs:365-405 | the remaining values the bounds test expects |
| `DepletionScenarios.EquipArmour` | Assets/Editor/Tests/Utility/Stats/StatDepletionTest.cs:637-641 | equipping the four pieces builds the armour's depletion sequence |
| `DepletionScenarios.ArmourAmounts` | Assets/Editor/Tests/Utility/Stats/StatDepletionTest.cs:643-649 | through the armour, a hit of 2 counts as 0 and a hit of 30 as 17 |
| `DepletionScenarios.EquipPiece` | Assets/Editor/Tests/Utility/Stats/StatDepletionTest.cs:638 | one piece lands in the single depletion sequence |
| `DepletionScenarios.Equip` | Assets/Editor/Tests/Utility/Stats/StatDepletionTest.cs:637-641 | the stat ends up wearing the armour |
| `DepletionScenarios.HitArmoured` | Assets/Editor/Tests/Utility/Stats/StatDepletionTest.cs:644 | a hit on the armoured stat adds the filtered amount |
| `DepletionScenarios.NewArmoured` | Assets/Editor/Tests/Utility/Stats/StatDepletionTest.cs:633-641 | a fresh stat of 100 wearing the armour |
| `DepletionScenarios.ArmourAbsorbsHits` | Assets/Editor/Tests/Utility/Stats/StatDepletionTest.cs:643-653 | hits of 2, 30 and 2 leave 100, 83 and 83 |
| `DepletionScenarios.NewEnemyHealth` | Assets/Scripts/Game/Enemy/EnemyMan.cs:17-25 | the enemy's health: built with base 0, then given its base of 10, so nothing is depleted of a capacity of 10 |
| `DepletionScenarios.EnemyTakesDamageAndHeals` | Assets/Editor/Tests/Game/Enemy/EnemyTest.cs:32-69 | hits of 3 leave 7, 4 and 1; a fourth leaves 0, not below; a heal of 4 then gives 4 |
| `DepletionScenarios.MiddleScalarHit` | Assets/Editor/Tests/Utility/Stats/StatDepletionTest.cs:919-923 | a hit of 10 through one scalar filter, rounded half away from zero, counts as ten times the factor when that is an integer |
| `DepletionScenarios.IceGiantAmounts` | Assets/Editor/Tests/Utility/Stats/StatDepletionTest.cs:919-943 | hits of 10 count as 15 crushing, 7 piercing, 5 slashing, 20 burning and 2 freezing |
| `DepletionScenarios.AllRoundMiddle` | Assets/Editor/Tests/Utility/Stats/StatDepletionTest.cs:915-916 | setting MIDDLE for all types gives each of the five depletion sequences of a new stat that rounding |
| `DepletionScenarios.ArmType` | Assets/Editor/Tests/Utility/Stats/StatDepletionTest.cs:919-923 | one scalar filter lands under its type only |
| `DepletionScenarios.NewMiddleStat` | Assets/Editor/Tests/Utility/Stats/StatDepletionTest.cs:915-916 | a fresh stat of 100 with five types, each depletion type rounding half away from zero |
| `DepletionScenarios.ArmAgainstBlows` | Assets/Editor/Tests/Utility/Stats/StatDepletionTest.cs:919-920 | the crushing and piercing filters, each under its own type |
| `DepletionScenarios.ArmAgainstBladesAndFire` | Assets/Editor/Tests/Utility/Stats/StatDepletionTest.cs:921-922 | the slashing and fire filters, each under its own type |
| `DepletionScenarios.ArmAgainstIce` | Assets/Editor/Tests/Utility/Stats/StatDepletionTest.cs:923 | the ice filter completes the ice giant's defences |
| `DepletionScenarios.NewIceGiant` | Assets/Editor/Tests/Utility/Stats/StatDepletionTest.cs:912-923 | a fresh stat of 100 wearing the ice giant's five defences |
| `DepletionScenarios.HitIceGiant` | Assets/Editor/Tests/Utility/Stats/StatDepletionTest.cs:926-927 | a hit of one type adds that type's filtered amount and returns what remains |
| `DepletionScenarios.IceGiantTakesHits` | Assets/Editor/Tests/Utility/Stats/StatDepletionTest.cs:912-946 | the readings the custom-types test expects: 85, 78, 73, 53 and 51 |
| `UnitScenarios.FootprintOfTwo` | Assets/Scripts/Utility/Units/UnitDefault.cs:16-17 | the objects of two registered stats are those of the one and of the other |
| `UnitScenarios.TwoStatsFit` | Assets/Scripts/Utility/Units/UnitDefault.cs:16-17 | two separate well-formed stats can be registered together |
| `UnitScenarios.NewDefaultStats` | Assets/Scripts/Utility/Units/UnitDefault.cs:16-17 | health is a depletion stat of 1000, movement speed a reference stat of 10 |
| `UnitScenarios.NewHealth` | Assets/Scripts/Utility/Units/UnitDefault.cs:16 | a fresh health stat of 1000 |
| `UnitScenarios.NewSpeed` | Assets/Scripts/Utility/Units/UnitDefault.cs:17 | a fresh speed stat of 10 |
| `UnitScenarios.NewUnitDefault` | Assets/Scripts/Utility/Units/UnitDefault.cs:15-18 | the default unit: full health, the base speed, nothing filtered |
| `UnitScenarios.Hit` | Assets/Editor/Tests/Utility/Units/UnitTest.cs:44-59 | an unfiltered hit adds its amount to the health total, stopping at the capacity |
| `UnitScenarios.Heal` | Assets/Editor/Tests/Utility/Units/UnitTest.cs:69-83 | an unfiltered heal takes its amount off, stopping at zero |
| `UnitScenarios.Interact` | Assets/Editor/Tests/Utility/Units/UnitTest.cs:44-47 | one command through the unit, then a read of the remaining health |
| `UnitScenarios.NewHealthyUnit` | Assets/Editor/Tests/Utility/Units/UnitTest.cs:36 | a new default unit at full health |
| `UnitScenarios.TakeHit` | Assets/Editor/Tests/Utility/Units/UnitTest.cs:44-47 | a hit routed through the unit |
| `UnitScenarios.TakeHeal` | Assets/Editor/Tests/Utility/Units/UnitTest.cs:69-72 | a heal routed through the unit |
| `UnitScenarios.TakeHits` | Assets/Editor/Tests/Utility/Units/UnitTest.cs:44-59 | hits of 400, 400 and 300 leave 600, 200 and 0 |
| `UnitScenarios.TakeLastHeals` | Assets/Editor/Tests/Utility/Units/UnitTest.cs:74-83 | from a total of 650, heals of 500 and 350 give 850 and then 1000 |
| `UnitScenarios.TakeHeals` | Assets/Editor/Tests/Utility/Units/UnitTest.cs:69-83 | heals of 350, 500 and 350 give 350, 850 and 1000 |
| `UnitScenarios.TakesDamageAndHeals` | Assets/Editor/Tests/Utility/Units/UnitTest.cs:33-85 | the health readings the damage-and-heal test expects |
| `FilterScenarios.DefaultOrderValue` | Assets/Scripts/Utility/IntClasses/IntFilterSequence.cs:72 | in the default order, without customs, the value is the constants' result times the scalars' product |
| `FilterScenarios.ConstantSteps` | Assets/Editor/Tests/Utility/IntClasses/IntConstFilteredTest.cs:82-99 | adding filter1 (+5) and filter2 (-10) to an empty sequence is accepted and builds the stores the test expects; removing them by name takes them out again |
| `FilterScenarios.ConstantValues` | Assets/Editor/Tests/Utility/IntClasses/IntConstFilteredTest.cs:76-101 | base 20 filters to 25, 15, 10 and 20 through those stores |
| `FilterScenarios.AddConstant` | Assets/Editor/Tests/Utility/IntClasses/IntConstFilteredTest.cs:82-84 | an accepted add on a filtered integer of base 20, then a read of its filtered value |
| `FilterScenarios.RemoveConstant` | Assets/Editor/Tests/Utility/IntClasses/IntConstFilteredTest.cs:92-94 | a removal by name on it, then a read of its filtered value |
| `FilterScenarios.AddAndRemoveConstants` | Assets/Editor/Tests/Utility/IntClasses/IntConstFilteredTest.cs:75-101 | the readings the constant-filter test expects: 25, 15, 10 and 20 |
| `FilterScenarios.ScalarOfOne` | Assets/Editor/Tests/Utility/IntClasses/IntFilterSequenceTest.cs:287-291 | through one scalar filter, 1 becomes the factor rounded by the sequence's strategy, and removing the filter restores the empty sequence |
| `FilterScenarios.FactorRoundings` | Assets/Editor/Tests/Utility/IntClasses/IntFilterSequenceTest.cs:278-372 | for 0.1, 0.4, 0.5, 0.6 and 0.9, DOWN gives 0, UP gives 1, and MIDDLE gives 0, 0, 1, 1, 1 |
| `FilterScenarios.TryScalar` | Assets/Editor/Tests/Utility/IntClasses/IntFilterSequenceTest.cs:287-291 | add one scalar, apply it to 1, remove it: the rounded factor, with the sequence back as it was |
| `FilterScenarios.TryFactors` | Assets/Editor/Tests/Utility/IntClasses/IntFilterSequenceTest.cs:287-311 | the five factors in turn, each read under the current rounding |
| `FilterScenarios.RoundingOptions` | Assets/Editor/Tests/Utility/IntClasses/IntFilterSequenceTest.cs:278-375 | the readings the rounding test expects under DOWN (the default), UP and MIDDLE |
| `SpeedScenarios.SpeedFilterSteps` | Assets/Editor/Tests/Utility/Units/UnitTest.cs:316-378 | the speed test's additions and removals give the expected filter stores |
| `SpeedScenarios.SpeedValues` | Assets/Editor/Tests/Utility/Units/UnitTest.cs:316-381 | base 100 filters to 90, 99, 49, then 55, 50 and 100 |
| `SpeedScenarios.FilterSpeed` | Assets/Editor/Tests/Utility/Units/UnitTest.cs:316-325 | one filter command on the speed through the unit, then a read of the speed |
| `SpeedScenarios.NewUnitAtSpeed` | Assets/Editor/Tests/Utility/Units/UnitTest.cs:298-309 | a new unit with its speed base set to 100 reads 100 |
| `SpeedScenarios.AddSpeedFilters` | Assets/Editor/Tests/Utility/Units/UnitTest.cs:316-347 | quicksand, boots of speed and a slow spell give 90, 99 and 49 |
| `SpeedScenarios.RemoveSpeedFilters` | Assets/Editor/Tests/Utility/Units/UnitTest.cs:349-381 | removing them in turn gives 55, 50 and 100 |
| `SpeedScenarios.SpeedFilters` | Assets/Editor/Tests/Utility/Units/UnitTest.cs:295-383 | the speed readings the reference-stat test expects |
| `FireDemonScenarios.DemonDepletes` | Assets/Scripts/Utility/Units/Unit.cs:71-73 | a deplete routed to the demon's health adds its type's filtered amount, stopping at 1000 |
| `FireDemonScenarios.DemonGains` | Assets/Scripts/Utility/Units/Unit.cs:62-64 | a gain routed to it takes its type's filtered amount off, stopping at 0 |
| `FireDemonScenarios.DemonAddsDepletionFilter` | Assets/Scripts/Utility/Units/Unit.cs:68-70 | a depletion filter with a free name is appended under the command's type only |
| `FireDemonScenarios.DemonAddsGainFilter` | Assets/Scripts/Utility/Units/Unit.cs:65-67 | a gain filter with a free name is appended under the command's type only |
| `FireDemonScenarios.DemonRemovesDepletionFilter` | Assets/Scripts/Utility/Units/Unit.cs:77-79 | a depletion filter removal touches the command's type only |
| `FireDemonScenarios.DemonStartsBare` | Assets/Scripts/Utility/Units/UnitDefault.cs:16 | the new health has capacity 1000, nothing depleted and no filters under any type |
| `FireDemonScenarios.DemonRemaining` | Assets/Scripts/Utility/Stats/StatDepletion.cs:500-508 | the health left is 1000 less the total |
| `FireDemonScenarios.ConstantThenScalar` | Assets/Scripts/Utility/IntClasses/IntFilterSequence.cs:172-210 | through an optional constant and one scalar, an amount counts as its sum with the constant times the factor, when that product is an integer |
| `FireDemonScenarios.DemonAmounts` | Assets/Editor/Tests/Utility/Units/UnitTest.cs:137-142 | the amounts the test expects of each type's filters: 9, 19, 20, 100, 200, 150, 300 for hits and 165, 315, 10, 20 for heals |
| `FireDemonScenarios.DemonTakesOnDefences` | Assets/Editor/Tests/Utility/Units/UnitTest.cs:99-124 | immunity to fire, weakness to water, then the amulet, each under its type |
| `FireDemonScenarios.DemonTakesDamage` | Assets/Editor/Tests/Utility/Units/UnitTest.cs:145-173 | hits of 100 and 200 of fire, plant and water leave 991, 891, 741, 722, 522 and 222 |
| `FireDemonScenarios.AmuletComesOff` | Assets/Editor/Tests/Utility/Units/UnitTest.cs:175-182 | removing the amulet by name leaves the immunity |
| `FireDemonScenarios.DemonTakesOffAmulet` | Assets/Editor/Tests/Utility/Units/UnitTest.cs:175-182 | the removal changes the fire depletion sequence only |
| `FireDemonScenarios.DemonHitWithoutAmulet` | Assets/Editor/Tests/Utility/Units/UnitTest.cs:184-187 | without the amulet a fire hit of 200 counts as 20 and leaves 202 |
| `FireDemonScenarios.DemonRegainsAmulet` | Assets/Editor/Tests/Utility/Units/UnitTest.cs:189-201 | with the amulet back a fire hit of 200 counts as 19 and leaves 183 |
| `FireDemonScenarios.DemonFalls` | Assets/Editor/Tests/Utility/Units/UnitTest.cs:204-208 | a water hit of 200 counts as 300, more than is left, and the health stops at 0 |
| `FireDemonScenarios.DemonTakesOnHealing` | Assets/Editor/Tests/Utility/Units/UnitTest.cs:216-241 | the fire and water healing filters and the amulet's healing constant, each under its type |
| `FireDemonScenarios.DemonHeals` | Assets/Editor/Tests/Utility/Units/UnitTest.cs:261-289 | heals of 100 and 200 of fire, plant and water give 165, 265, 275, 590, 790 and 810 |

## Left out

- Floating point. The source computes filtered values in 32-bit floats. The model uses exact reals, so a value that float rounding pushes across an integer is not modelled.
- The final `(int)` conversions. The source casts rounded floats to int; the model's integers are unbounded, so overflow is not modelled.
- Integer overflow. The source's running totals can overflow 32 bits; the model does not wrap them.
- Timed filter removal. A positive delay starts a removal through a scene object (a coroutine), which is outside any single call. `Filters.FilterSequence.AddFilter` models the one-argument overload, which passes a delay of 0 (never remove). The filtered integers and the stats take a `secondsUntilRemove` parameter and ignore it.
- `Depletions.StatDepletion.AddStatFilter`: timed removal, as above.
- `References.StatReference.AddStatFilter`: timed removal, as above.
- `SequencesByType.StatSequenceByInteractionType.AddStatFilter`: timed removal, as above.
- Observers. Observers of the filtered integers are a ghost list of alerts. The stat-level observers (StatWasUpdated and its callback) are not modelled; they only notify.
- `Debug.Log` output is not modelled.
- The lookup of the scene object `MonoHelper` in the filter-sequence constructor is not modelled.
- Null filter names. A null name is an error in the source's dictionaries, and the model's names are never null.
- The `IntFiltered` class is not part of this model's source files. It is modelled after IntConstFiltered with a settable base, as its callers in StatDepletion.cs and StatReference.cs use it.
- The `StatSequence` class is not part of this model. A stat of class SEQUENCE holds no state here, and every command leaves it as it is.
- `Units.Unit.InteractWithStat`: for a SEQUENCE stat, the postcondition says only that nothing changes, because that class is not modelled.
- Dictionary iteration order. Filters of a store are applied in insertion order. After a removal, .NET may reuse the freed slot, so a later filter can run earlier. The model always appends.
- `StatInteractionDefault`, a context class with a public constructor for any intent, is not part of this model. Every command here comes from the eight intent subclasses.
- The enum-length computation of the number of interaction types is not modelled. The count is a constructor parameter of the stats and the unit.
- `Units.Unit.constructor`: the concrete unit registers its stats in its own constructor, so here the constructor is given them.
- `SetStatFactory` and the stored factory of a unit are not modelled. They are only stored.
- `GetDefaultDepletionInteractionTypeValue` and its gain twin are not modelled. They parse "0" into the enum, and the model uses type 0 directly.
- The overloads without an interaction type are not modelled separately. They are the typed methods with the default argument 0.
- The declaration of `EDefaultStatInteractionType` is not part of this model. The fire-demon scenarios number NORMAL, FIRE, WATER and PLANT 0 to 3; only their being distinct matters to the test.
- The fire-demon run is stated as lemmas on `Units.DepletionEffect`, the unit's routing of a command to its health, over a health of four interaction types. The default unit of the other scenarios is built with one interaction type, and a unit-level run of sixteen commands is beyond what the verifier proves in one method here.
- `EnemyNormal` and `EnemyMan` are modelled only through their health stat. The enemy test's commands are unfiltered depletes and gains on that stat, and the other stats of an enemy play no part.
- The ice giant's depletion factors 1.5, 0.7, 0.5, 2 and 0.2 are exact here. The test's expected values assume the same, and in 32-bit floats 0.7 times 10 could round either way.

## Findings

Each as-written member below only exhibits the defect: it states what the code as written does and carries no proof the rest of the model relies on. The corrected member is the one the other members use.

| source | as written | input that shows it | evidently intended | confidence | as-written member | corrected member |
|---|---|---|---|---|---|---|
| Assets/Scripts/Utility/Stats/StatDepletion.cs:142-144 | `GetDepletionFilterOrder()` without a type calls itself | any call: the stack overflows | return the order of the default type, as `GetGainFilterOrder()` does | high, not executed | `Depletions.DepletionOrderGetterNeverReturns` | `Depletions.StatDepletion.GetDepletionFilterOrder` |
| Assets/Scripts/Utility/Units/Unit.cs:98-127 | the SEQUENCE and SEQUENCE_BY_INTERACTION_TYPE branches call `asStatReference`, which only a reference stat sets | an ADD_STAT_FILTER command aimed at a per-type stat dereferences null | route to the stat's own view, per interaction type | high, not executed | `Units.SequenceRoutingDereferencesNull` | `Units.RouteByType` |
| Assets/Scripts/Utility/Stats/StatInteraction/StatInteractionFilter/StatInteractionFilter.cs:35-50 | the parameters shadow the fields, so the new lists replace the parameters and the fields stay null | a list with one qualifier gives a filter whose `Qualifies` then dereferences null | copy the non-null elements of each list into the fields | high, not executed | `InteractionFilters.ListConstructorDropsItsLists` | `InteractionFilters.StatInteractionFilter.WithLists` |
| Assets/Scripts/Utility/Stats/StatInteraction/StatInteractionFilter/StatInteractionFilter.cs:99-109 | the loop variable is a `FilterAction`, and the add action hides `GetNewInteraction` with `new`, so the base version (null) is called | one add action of any template gives `[null]` | call the add action's own `GetNewInteraction` (a virtual method) | high, not executed | `InteractionFilters.AsWrittenDerivesOnlyNulls` | `InteractionFilters.StatInteractionFilter.GetResultingStatInteractions` |
| Assets/Scripts/Utility/Units/Unit.cs:14 | the table of interaction filters is never created | `HasStatInteractionFilter("x")` on a new unit dereferences null | create an empty table with the unit | high, not executed | `Units.NewUnitFilterTableFails` | `Units.Unit.HasStatInteractionFilter` |
