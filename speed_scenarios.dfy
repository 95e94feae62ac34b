/**
 * The movement speed of a default unit, a reference stat, under scalar and
 * constant filters that commands add and remove through InteractWithStat.
 */
module SpeedScenarios {
  import opened Wrappers
  import opened Filters
  import opened FilteredInts
  import opened References
  import opened Interactions
  import opened Stats
  import opened Units
  import opened UnitScenarios
  import opened FilterScenarios

  const Quicksand: Filter := ScalarFilter("quicksand", 0.9)
  const BootsOfSpeed: Filter := ScalarFilter("bootsOfSpeed", 1.1)
  const SlowSpell: Filter := ConstantFilter("slowSpell", -50)

  /** The speed pipeline for the given stores, in the default order and rounding. */
  function Speed(constants: seq<Filter>, scalars: seq<Filter>): Pipeline {
    Empty().(constants := constants, scalars := scalars)
  }

  /** The filters of the speed test, added and removed in turn, give the pipelines below. */
  lemma SpeedFilterSteps()
    ensures Speed([], []).AddFilter(Some(Quicksand)) == Speed([], [Quicksand])
    ensures Speed([], [Quicksand]).AddFilter(Some(BootsOfSpeed)) == Speed([], [Quicksand, BootsOfSpeed])
    ensures Speed([], [Quicksand, BootsOfSpeed]).AddFilter(Some(SlowSpell)) == Speed([SlowSpell], [Quicksand, BootsOfSpeed])
    ensures Speed([SlowSpell], [Quicksand, BootsOfSpeed]).Remove("quicksand") == Speed([SlowSpell], [BootsOfSpeed])
    ensures Speed([SlowSpell], [BootsOfSpeed]).Remove("bootsOfSpeed") == Speed([SlowSpell], [])
    ensures Speed([SlowSpell], []).Remove("slowSpell") == Speed([], [])
  {
    assert [Quicksand, BootsOfSpeed][..1] == [Quicksand];
    assert NamesIn([Quicksand]) == {"quicksand"};
    assert NamesIn([Quicksand, BootsOfSpeed]) == {"quicksand", "bootsOfSpeed"};
  }

  /** Base 100: a scalar 0.9 gives 90, a further 1.1 gives 99, a constant -50 gives 49; removing them in turn gives 55, 50, 100. */
  lemma SpeedValues()
    ensures Apply(Speed([], [Quicksand]), 100) == 90
    ensures Apply(Speed([], [Quicksand, BootsOfSpeed]), 100) == 99
    ensures Apply(Speed([SlowSpell], [Quicksand, BootsOfSpeed]), 100) == 49
    ensures Apply(Speed([SlowSpell], [BootsOfSpeed]), 100) == 55
    ensures Apply(Speed([SlowSpell], []), 100) == 50
    ensures Apply(Speed([], []), 100) == 100
  {
    var x := 100.0;
    assert [Quicksand, BootsOfSpeed][..1] == [Quicksand];
    assert Fold([Quicksand], 1.0) == 0.9;
    assert Fold([Quicksand, BootsOfSpeed], 1.0) == 0.99;
    assert Fold([BootsOfSpeed], 1.0) == 1.1;
    assert Fold([SlowSpell], x) == 50.0;
    DefaultOrderValue(Speed([], [Quicksand]), 100);
    DefaultOrderValue(Speed([], [Quicksand, BootsOfSpeed]), 100);
    DefaultOrderValue(Speed([SlowSpell], [Quicksand, BootsOfSpeed]), 100);
    DefaultOrderValue(Speed([SlowSpell], [BootsOfSpeed]), 100);
    DefaultOrderValue(Speed([SlowSpell], []), 100);
    assert Scale(0.99, 50.0) == 49.5;
    EmptyIsIdentity(DEFAULT_ORDER, DEFAULT_ROUNDING, 100);
  }

  /** The default unit `u` holds `speed` as its movement speed, of base 100 under the given pipeline. */
  ghost predicate SpeedAt(u: Unit, speed: StatReference, p: Pipeline)
    reads u.Repr()
  {
    && u.Valid() && u.typeCount == 1 && MOVEMENT_SPEED in u.unitStats && u.unitStats[MOVEMENT_SPEED] == ReferenceStat(speed)
    && speed.Snapshot() == FilteredValue(100, p)
  }

  /** One filter command on the movement speed of the default unit, followed by a read of the speed. */
  method FilterSpeed(u: Unit, speed: StatReference, i: StatInteraction, ghost from: Pipeline, ghost to: Pipeline) returns (value: int)
    requires SpeedAt(u, speed, from)
    requires i.WellFormed() && i.statToAffect == MOVEMENT_SPEED && i.interactionType == NORMAL
    requires ReferenceEffect(FilteredValue(100, from), i) == FilteredValue(100, to)
    modifies u.Repr()
    ensures SpeedAt(u, speed, to) && value == Apply(to, 100)
  {
    assert u.Snapshot()[MOVEMENT_SPEED] == ReferenceState(FilteredValue(100, from));
    u.InteractWithStat(i);
    assert u.Snapshot()[MOVEMENT_SPEED] == ReferenceState(speed.Snapshot());
    value := speed.GetStatFiltered();
  }

  /** A new default unit and its movement speed, its base set to 100; the speed then reads 100. */
  method NewUnitAtSpeed() returns (u: Unit, speed: StatReference, value: int)
    ensures SpeedAt(u, speed, Empty()) && value == 100 && fresh(u.Repr())
  {
    u := NewUnitDefault();
    var stat := u.GetStat(MOVEMENT_SPEED);
    speed := stat.value.AsStatReference().value;
    assert speed.Repr() <= u.Repr();
    label created:
    value := speed.SetStatBase(100);
    u.OnlyOneStatChanged@created(MOVEMENT_SPEED);
    EmptyIsIdentity(DEFAULT_ORDER, DEFAULT_ROUNDING, 100);
  }

  /** Quicksand (a scalar 0.9) slows the speed to 90, boots of speed (a scalar 1.1) bring it to 99, a slow spell (a constant -50) to 49. */
  method AddSpeedFilters(u: Unit, speed: StatReference) returns (speeds: seq<int>)
    requires SpeedAt(u, speed, Empty())
    modifies u.Repr()
    ensures SpeedAt(u, speed, Speed([SlowSpell], [Quicksand, BootsOfSpeed])) && speeds == [90, 99, 49]
  {
    SpeedFilterSteps();
    SpeedValues();
    var s1 := FilterSpeed(u, speed, AddStatFilter(Some(Quicksand), MOVEMENT_SPEED, NORMAL), Speed([], []), Speed([], [Quicksand]));
    var s2 := FilterSpeed(u, speed, AddStatFilter(Some(BootsOfSpeed), MOVEMENT_SPEED, NORMAL),
                          Speed([], [Quicksand]), Speed([], [Quicksand, BootsOfSpeed]));
    var s3 := FilterSpeed(u, speed, AddStatFilter(Some(SlowSpell), MOVEMENT_SPEED, NORMAL),
                          Speed([], [Quicksand, BootsOfSpeed]), Speed([SlowSpell], [Quicksand, BootsOfSpeed]));
    assert s1 == 90 && s2 == 99 && s3 == 49;
    speeds := [s1, s2, s3];
  }

  /** Removing quicksand, the boots and the spell in turn gives 55, 50 and back to 100. */
  method RemoveSpeedFilters(u: Unit, speed: StatReference) returns (speeds: seq<int>)
    requires SpeedAt(u, speed, Speed([SlowSpell], [Quicksand, BootsOfSpeed]))
    modifies u.Repr()
    ensures SpeedAt(u, speed, Empty()) && speeds == [55, 50, 100]
  {
    SpeedFilterSteps();
    SpeedValues();
    var s1 := FilterSpeed(u, speed, RemoveStatFilter("quicksand", MOVEMENT_SPEED, NORMAL),
                          Speed([SlowSpell], [Quicksand, BootsOfSpeed]), Speed([SlowSpell], [BootsOfSpeed]));
    var s2 := FilterSpeed(u, speed, RemoveStatFilter("bootsOfSpeed", MOVEMENT_SPEED, NORMAL),
                          Speed([SlowSpell], [BootsOfSpeed]), Speed([SlowSpell], []));
    var s3 := FilterSpeed(u, speed, RemoveStatFilter("slowSpell", MOVEMENT_SPEED, NORMAL), Speed([SlowSpell], []), Speed([], []));
    assert s1 == 55 && s2 == 50 && s3 == 100;
    speeds := [s1, s2, s3];
  }

  /** The movement speed of the default unit with its base set to 100, as filters are added and then removed. */
  method SpeedFilters() returns (base: int, added: seq<int>, removed: seq<int>)
    ensures base == 100 && added == [90, 99, 49] && removed == [55, 50, 100]
  {
    var u, speed;
    u, speed, base := NewUnitAtSpeed();
    added := AddSpeedFilters(u, speed);
    removed := RemoveSpeedFilters(u, speed);
  }
}
