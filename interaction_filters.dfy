/**
 * StatInteractionFilter: qualifiers that say which commands a filter reacts
 * to, and actions that say what it does then (block the command, or add new
 * commands derived from a template).
 */
module InteractionFilters {
  import opened Wrappers
  import opened Filters
  import opened Interactions

  datatype FilterActionKind = BLOCK_INTERACTION | ADD_INTERACTION

  /** How an added command's value is found: the template's own, or modifier times the original's. */
  datatype NewValueMethod = USE_GIVEN | BASE_ORIGINAL_WITH_CONSTANT | BASE_ORIGINAL_WITH_SCALAR

  /** A command qualifies when its stat, interaction type and intent all match. */
  datatype Qualifier = Qualifier(statType: nat, statInteractionType: nat, statInteractionIntent: Intent)

  datatype FilterAction =
    | BlockInteraction
    | AddInteraction(template: StatInteraction, newValueMethod: NewValueMethod, modifierValue: real)
  {
    function Kind(): FilterActionKind {
      if BlockInteraction? then BLOCK_INTERACTION else ADD_INTERACTION
    }
  }

  /** The one-argument add action: the template as given, modifier 1. */
  function AddGivenInteraction(template: StatInteraction): (a: FilterAction)
    ensures a.Kind() == ADD_INTERACTION && a.template == template
    ensures a.newValueMethod == USE_GIVEN && a.modifierValue == 1.0
  {
    AddInteraction(template, USE_GIVEN, 1.0)
  }

  // -------------------------------------------------------- derived commands

  /**
   * The value of the original command a derived value is based on: its
   * amount, or its filter's value, or 1 for other intents.  None where the
   * original adds a null filter (reading its value dereferences null).
   */
  function OriginalValue(original: StatInteraction): (v: Option<real>)
    ensures v.None? <==> original.intent.IsAdd() && original.filter.None?
    ensures original.intent == STAT_DEPLETE ==> v == Some(original.deplete as real)
    ensures original.intent == STAT_GAIN ==> v == Some(original.gain as real)
    ensures original.intent.IsRemove() ==> v == Some(1.0)
  {
    match original.intent
    case STAT_DEPLETE => Some(original.deplete as real)
    case STAT_GAIN => Some(original.gain as real)
    case ADD_STAT_DEPLETE_FILTER => if original.filter.Some? then Some(original.filter.value.GetValue()) else None
    case ADD_STAT_GAIN_FILTER => if original.filter.Some? then Some(original.filter.value.GetValue()) else None
    case ADD_STAT_FILTER => if original.filter.Some? then Some(original.filter.value.GetValue()) else None
    case _ => Some(1.0)
  }

  /** The template's filter with the new value: constants and scalars rebuilt, customs kept. */
  function Rescale(f: Filter, newValue: int): (r: Filter)
    ensures r.name == f.name && r.GetType() == f.GetType()
    ensures f.CustomFilter? ==> r == f
    ensures !f.CustomFilter? ==> r.GetValue() == newValue as real
  {
    match f
    case ConstantFilter(name, _) => ConstantFilter(name, newValue)
    case ScalarFilter(name, _) => ScalarFilter(name, newValue as real)
    case CustomFilter(_, _) => f
  }

  /** Whether an add action hands back its template as it is. */
  predicate KeepsTemplate(a: FilterAction)
    requires a.AddInteraction?
  {
    a.newValueMethod == USE_GIVEN || a.template.intent.IsRemove()
  }

  /** A derived value: the modifier times the original's value, rounded half away from zero. */
  function DerivedValue(modifier: real, value: real): int {
    RoundHalfAwayFromZero(modifier * value)
  }

  /**
   * The command an add action derives from `original`.  None stands for the
   * null dereference of an add template without a filter or of an original
   * adding a null filter.
   */
  function GetNewInteraction(a: FilterAction, original: StatInteraction): (r: Option<StatInteraction>)
    requires a.AddInteraction?
    ensures KeepsTemplate(a) ==> r == Some(a.template)
    ensures !KeepsTemplate(a) ==>
      (r.Some? <==> OriginalValue(original).Some? && (a.template.intent.IsAdd() ==> a.template.filter.Some?))
    ensures r.Some? ==> r.value.intent == a.template.intent && r.value.statToAffect == a.template.statToAffect
    ensures r.Some? ==> r.value.interactionType == a.template.interactionType
    ensures a.template.WellFormed() && r.Some? ==> r.value.WellFormed()
    ensures !KeepsTemplate(a) && r.Some? ==>
      OriginalValue(original).Some? && r.value.WellFormed() &&
      var v := DerivedValue(a.modifierValue, OriginalValue(original).value);
      && (r.value.intent == STAT_DEPLETE ==> r.value.deplete == v)
      && (r.value.intent == STAT_GAIN ==> r.value.gain == v)
      && (r.value.intent.IsAdd() ==> a.template.filter.Some? && r.value.filter == Some(Rescale(a.template.filter.value, v)))
  {
    var t := a.template;
    if KeepsTemplate(a) then Some(t)
    else if OriginalValue(original).None? then None
    else
      var newValue := DerivedValue(a.modifierValue, OriginalValue(original).value);
      match t.intent
      case STAT_DEPLETE => Some(StatDeplete(newValue, t.statToAffect, t.interactionType))
      case STAT_GAIN => Some(StatGain(newValue, t.statToAffect, t.interactionType))
      case ADD_STAT_DEPLETE_FILTER =>
        if t.filter.None? then None
        else Some(AddStatDepleteFilter(Some(Rescale(t.filter.value, newValue)), t.statToAffect, t.interactionType))
      case ADD_STAT_GAIN_FILTER =>
        if t.filter.None? then None
        else Some(AddStatGainFilter(Some(Rescale(t.filter.value, newValue)), t.statToAffect, t.interactionType))
      case ADD_STAT_FILTER =>
        if t.filter.None? then None
        else Some(AddStatFilter(Some(Rescale(t.filter.value, newValue)), t.statToAffect, t.interactionType))
  }

  /** The two value methods based on the original compute the same command. */
  lemma BaseMethodsAgree(t: StatInteraction, modifier: real, original: StatInteraction)
    ensures GetNewInteraction(AddInteraction(t, BASE_ORIGINAL_WITH_CONSTANT, modifier), original)
         == GetNewInteraction(AddInteraction(t, BASE_ORIGINAL_WITH_SCALAR, modifier), original)
  {
    var c, s := AddInteraction(t, BASE_ORIGINAL_WITH_CONSTANT, modifier), AddInteraction(t, BASE_ORIGINAL_WITH_SCALAR, modifier);
    assert c == s.(newValueMethod := BASE_ORIGINAL_WITH_CONSTANT);
    assert KeepsTemplate(c) == KeepsTemplate(s) == t.intent.IsRemove();
  }

  /** A derived amount is the original amount times the modifier, rounded half away from zero. */
  lemma DerivedAmountScales(t: StatInteraction, m: NewValueMethod, modifier: real, original: StatInteraction)
    requires m != USE_GIVEN && t.intent == STAT_DEPLETE && original.intent == STAT_DEPLETE
    ensures GetNewInteraction(AddInteraction(t, m, modifier), original)
         == Some(StatDeplete(RoundHalfAwayFromZero(modifier * original.deplete as real), t.statToAffect, t.interactionType))
  {
    var a := AddInteraction(t, m, modifier);
    assert !KeepsTemplate(a) && OriginalValue(original) == Some(original.deplete as real);
    assert GetNewInteraction(a, original) == Some(StatDeplete(DerivedValue(modifier, original.deplete as real), t.statToAffect, t.interactionType));
  }

  /** With modifier 1 a derived deplete repeats the original amount. */
  lemma UnitModifierRepeatsAmount(t: StatInteraction, m: NewValueMethod, original: StatInteraction)
    requires m != USE_GIVEN && t.intent == STAT_DEPLETE && original.intent == STAT_DEPLETE
    ensures GetNewInteraction(AddInteraction(t, m, 1.0), original)
         == Some(StatDeplete(original.deplete, t.statToAffect, t.interactionType))
  {
    DerivedAmountScales(t, m, 1.0, original);
    assert 1.0 * original.deplete as real == original.deplete as real;
    RoundIntegers(MIDDLE, original.deplete);
  }

  // ------------------------------------------------------------ action lists

  /** The non-null elements of `xs`, in sequence. */
  function Present<T(!new)>(xs: seq<Option<T>>): (r: seq<T>)
    ensures |r| <= |xs|
    ensures forall x :: x in r <==> Some(x) in xs
    decreases |xs|
  {
    if xs == [] then []
    else
      var init := xs[..|xs| - 1];
      assert xs == init + [xs[|xs| - 1]];
      Present(init) + (if xs[|xs| - 1].Some? then [xs[|xs| - 1].value] else [])
  }

  /** The number of add actions in `acts`. */
  function AddCount(acts: seq<FilterAction>): nat
    decreases |acts|
  {
    if acts == [] then 0
    else AddCount(acts[..|acts| - 1]) + (if acts[|acts| - 1].AddInteraction? then 1 else 0)
  }

  /** One derived command per add action, in list order; blocks contribute nothing. */
  function Resulting(acts: seq<FilterAction>, original: StatInteraction): seq<Option<StatInteraction>>
    decreases |acts|
  {
    if acts == [] then []
    else
      var last := acts[|acts| - 1];
      Resulting(acts[..|acts| - 1], original) + (if last.AddInteraction? then [GetNewInteraction(last, original)] else [])
  }

  lemma {:induction false} ResultingLength(acts: seq<FilterAction>, original: StatInteraction)
    ensures |Resulting(acts, original)| == AddCount(acts)
    decreases |acts|
  {
    if acts != [] {
      ResultingLength(acts[..|acts| - 1], original);
    }
  }

  /** The derived commands of two lists run one after the other are those of the first, then the second. */
  lemma {:induction false} ResultingAppend(a: seq<FilterAction>, b: seq<FilterAction>, original: StatInteraction)
    ensures Resulting(a + b, original) == Resulting(a, original) + Resulting(b, original)
    decreases |b|
  {
    if b == [] {
      assert a + b == a;
    } else {
      var init := b[..|b| - 1];
      assert (a + b)[..|a + b| - 1] == a + init;
      ResultingAppend(a, init, original);
    }
  }

  /** A block action adds no derived command, wherever it sits. */
  lemma BlocksAddNothing(a: seq<FilterAction>, b: seq<FilterAction>, original: StatInteraction)
    ensures Resulting(a + [BlockInteraction] + b, original) == Resulting(a + b, original)
  {
    ResultingAppend(a + [BlockInteraction], b, original);
    ResultingAppend(a, [BlockInteraction], original);
    ResultingAppend(a, b, original);
    assert Resulting([BlockInteraction], original) == [] by {
      assert [BlockInteraction][..0] == [];
    }
  }

  // ------------------------------------------------ the source as written

  /**
   * GetResultingStatInteractions as written: the list holds FilterAction
   * values, and the add action hides (rather than overrides) GetNewInteraction,
   * so the base version, which returns null, is the one called.
   */
  function BaseGetNewInteraction(a: FilterAction, original: StatInteraction): Option<StatInteraction> {
    None
  }

  function ResultingAsWritten(acts: seq<FilterAction>, original: StatInteraction): seq<Option<StatInteraction>>
    decreases |acts|
  {
    if acts == [] then []
    else
      var last := acts[|acts| - 1];
      ResultingAsWritten(acts[..|acts| - 1], original) + (if last.AddInteraction? then [BaseGetNewInteraction(last, original)] else [])
  }

  /** As written, every derived command is null, one per add action. */
  lemma {:induction false} AsWrittenDerivesOnlyNulls(acts: seq<FilterAction>, original: StatInteraction)
    ensures |ResultingAsWritten(acts, original)| == AddCount(acts)
    ensures forall k :: 0 <= k < |ResultingAsWritten(acts, original)| ==> ResultingAsWritten(acts, original)[k].None?
    decreases |acts|
  {
    if acts != [] {
      AsWrittenDerivesOnlyNulls(acts[..|acts| - 1], original);
    }
  }

  /** The fields a filter built by the list constructor ends up with; None is null. */
  datatype ListFields = ListFields(qualifiers: Option<seq<Qualifier>>, filterActions: Option<seq<FilterAction>>)

  /**
   * The list constructor as written: its parameters share the fields' names,
   * so the two `new List` assignments rebind the parameters, the loops run
   * over those two new empty lists, and the fields keep their default, null.
   */
  function ListConstructorAsWritten(qualifiers: seq<Option<Qualifier>>, filterActions: seq<Option<FilterAction>>): ListFields {
    ListFields(None, None)
  }

  /** As written, the list constructor drops the lists it is given and leaves both fields null. */
  lemma ListConstructorDropsItsLists(qs: seq<Option<Qualifier>>, acts: seq<Option<FilterAction>>)
    ensures ListConstructorAsWritten(qs, acts) == ListFields(None, None)
    ensures ListConstructorAsWritten(qs, acts).qualifiers != Some(Present(qs))
  {
  }

  // ------------------------------------------------------------- the class

  class StatInteractionFilter {
    var qualifiers: seq<Qualifier>
    var filterActions: seq<FilterAction>

    constructor()
      ensures qualifiers == [] && filterActions == []
    {
      qualifiers := [];
      filterActions := [];
    }

    /** One qualifier and one action, each kept only when present. */
    constructor WithPair(qualifier: Option<Qualifier>, filterAction: Option<FilterAction>)
      ensures qualifiers == Present([qualifier]) && filterActions == Present([filterAction])
    {
      qualifiers := if qualifier.Some? then [qualifier.value] else [];
      filterActions := if filterAction.Some? then [filterAction.value] else [];
      new;
      assert [qualifier][..0] == [] && [filterAction][..0] == [];
    }

    /** The list constructor as evidently intended: the present elements of each list, in order. */
    constructor WithLists(qualifierList: seq<Option<Qualifier>>, filterActionList: seq<Option<FilterAction>>)
      ensures qualifiers == Present(qualifierList) && filterActions == Present(filterActionList)
    {
      var qs := Collect(qualifierList);
      var acts := Collect(filterActionList);
      qualifiers := qs;
      filterActions := acts;
    }

    method AddQualifier(qualifier: Option<Qualifier>)
      modifies this
      ensures qualifiers == old(qualifiers) + Present([qualifier])
      ensures filterActions == old(filterActions)
    {
      assert [qualifier][..0] == [];
      if qualifier.Some? {
        qualifiers := qualifiers + [qualifier.value];
      }
    }

    method AddFilterAction(filterAction: Option<FilterAction>)
      modifies this
      ensures filterActions == old(filterActions) + Present([filterAction])
      ensures qualifiers == old(qualifiers)
    {
      assert [filterAction][..0] == [];
      if filterAction.Some? {
        filterActions := filterActions + [filterAction.value];
      }
    }

    /** Some qualifier matches the stat, the interaction type and the intent all three. */
    method Qualifies(statType: nat, statInteractionType: nat, statInteractionIntent: Intent) returns (b: bool)
      ensures b <==> Qualifier(statType, statInteractionType, statInteractionIntent) in qualifiers
    {
      for k := 0 to |qualifiers|
        invariant Qualifier(statType, statInteractionType, statInteractionIntent) !in qualifiers[..k]
      {
        var q := qualifiers[k];
        if q.statType != statType {
          continue;
        }
        if q.statInteractionType != statInteractionType {
          continue;
        }
        if q.statInteractionIntent != statInteractionIntent {
          continue;
        }
        return true;
      }
      assert qualifiers[..|qualifiers|] == qualifiers;
      return false;
    }

    method HasBlockFilterAction() returns (b: bool)
      ensures b <==> BlockInteraction in filterActions
    {
      for k := 0 to |filterActions|
        invariant BlockInteraction !in filterActions[..k]
      {
        if filterActions[k].Kind() == BLOCK_INTERACTION {
          return true;
        }
      }
      assert filterActions[..|filterActions|] == filterActions;
      return false;
    }

    /** The derived commands, as evidently intended (the add action's own GetNewInteraction). */
    method GetResultingStatInteractions(original: StatInteraction) returns (rs: seq<Option<StatInteraction>>)
      ensures rs == Resulting(filterActions, original)
    {
      rs := [];
      for k := 0 to |filterActions|
        invariant rs == Resulting(filterActions[..k], original)
      {
        assert filterActions[..k + 1][..k] == filterActions[..k];
        if filterActions[k].Kind() == ADD_INTERACTION {
          rs := rs + [GetNewInteraction(filterActions[k], original)];
        }
      }
      assert filterActions[..|filterActions|] == filterActions;
    }
  }

  /** The present elements of `xs`, gathered by a loop. */
  method Collect<T(!new)>(xs: seq<Option<T>>) returns (r: seq<T>)
    ensures r == Present(xs)
  {
    r := [];
    for k := 0 to |xs|
      invariant r == Present(xs[..k])
    {
      assert xs[..k + 1][..k] == xs[..k];
      if xs[k].Some? {
        r := r + [xs[k].value];
      }
    }
    assert xs[..|xs|] == xs;
  }
}
