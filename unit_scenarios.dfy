/**
 * Worked examples of a default unit: health is a depletion stat of 1000 and
 * movement speed a reference stat of 10, with the single interaction type
 * NORMAL.  Every change goes through InteractWithStat.
 */
module UnitScenarios {
  import opened Wrappers
  import opened Filters
  import opened FilteredInts
  import opened Depletions
  import opened References
  import opened Interactions
  import opened Stats
  import opened Units

  const HEALTH: nat := 0
  const MOVEMENT_SPEED: nat := 1
  const NORMAL: nat := 0
  const UNIT_BASE_HEALTH: int := 1000

  /** The objects of two stats are those of the one and of the other. */
  lemma FootprintOfTwo(stats: map<nat, Stat>, a: nat, b: nat)
    requires stats.Keys == {a, b}
    ensures Footprint(stats) == stats[a].Repr() + stats[b].Repr()
  {
    assert forall o :: o in Footprint(stats) ==> o in stats[a].Repr() || o in stats[b].Repr();
  }

  /** Two well-formed stats with no object in common can be registered together. */
  lemma TwoStatsFit(a: Stat, b: Stat, ka: nat, kb: nat, typeCount: nat)
    requires a.Valid() && Sized(a, typeCount) && b.Valid() && Sized(b, typeCount)
    requires a.Repr() !! b.Repr() && ka != kb
    ensures Registrable(map[ka := a, kb := b], typeCount)
  {
  }

  /** The stats the default unit registers: health a depletion stat of 1000, movement speed a reference stat of 10. */
  method NewDefaultStats() returns (stats: map<nat, Stat>)
    ensures stats.Keys == {HEALTH, MOVEMENT_SPEED}
    ensures stats[HEALTH].DepletionStat? && stats[MOVEMENT_SPEED].ReferenceStat?
    ensures fresh(Footprint(stats))
    ensures Registrable(stats, 1)
    ensures stats[HEALTH].Snapshot() == DepletionState(NewAccount(UNIT_BASE_HEALTH, 1, false, false))
    ensures stats[MOVEMENT_SPEED].Snapshot() == ReferenceState(FilteredValue(10, Empty()))
  {
    var health := NewHealth();
    label healthMade:
    var speed := NewSpeed();
    StatUnchanged@healthMade(health);
    stats := map[HEALTH := health, MOVEMENT_SPEED := speed];
    TwoStatsFit(health, speed, HEALTH, MOVEMENT_SPEED, 1);
    FootprintOfTwo(stats, HEALTH, MOVEMENT_SPEED);
  }

  method NewHealth() returns (s: Stat)
    ensures s.DepletionStat? && s.Valid() && Sized(s, 1) && fresh(s.Repr())
    ensures s.Snapshot() == DepletionState(NewAccount(UNIT_BASE_HEALTH, 1, false, false))
  {
    var health := new StatDepletion(UNIT_BASE_HEALTH, 1);
    s := DepletionStat(health);
  }

  method NewSpeed() returns (s: Stat)
    ensures s.ReferenceStat? && s.Valid() && Sized(s, 1) && fresh(s.Repr())
    ensures s.Snapshot() == ReferenceState(FilteredValue(10, Empty()))
  {
    var speed := new StatReference(10);
    s := ReferenceStat(speed);
  }

  /** The default unit: full health, the base speed, nothing filtered. */
  method NewUnitDefault() returns (u: Unit)
    ensures u.Valid() && u.typeCount == 1 && fresh(u.Repr())
    ensures u.unitStats.Keys == {HEALTH, MOVEMENT_SPEED}
    ensures u.unitStats[HEALTH].DepletionStat? && u.unitStats[MOVEMENT_SPEED].ReferenceStat?
    ensures u.Snapshot()[HEALTH] == DepletionState(NewAccount(UNIT_BASE_HEALTH, 1, false, false))
    ensures u.Snapshot()[MOVEMENT_SPEED] == ReferenceState(FilteredValue(10, Empty()))
  {
    var stats := NewDefaultStats();
    u := new Unit(stats, 1);
    assert u.Snapshot()[HEALTH] == stats[HEALTH].Snapshot();
    assert u.Snapshot()[MOVEMENT_SPEED] == stats[MOVEMENT_SPEED].Snapshot();
  }

  /** The health account of the default unit with the given total depletion. */
  function Health(total: int): Account {
    NewAccount(UNIT_BASE_HEALTH, 1, false, false).(totalDepletion := total)
  }

  /** With no depletion filters, a hit of a non-negative amount adds it to the total, which stops at the capacity. */
  lemma Hit(total: int, amount: nat)
    requires 0 <= total <= UNIT_BASE_HEALTH
    ensures Effect(DepletionState(Health(total)), StatDeplete(amount, HEALTH, NORMAL))
         == DepletionState(Health(if total + amount > UNIT_BASE_HEALTH then UNIT_BASE_HEALTH else total + amount))
  {
    EmptyIsIdentity(DEFAULT_ORDER, DEFAULT_ROUNDING, amount);
    FreshValueIsBase(UNIT_BASE_HEALTH);
  }

  /** With no gain filters, a heal of a non-negative amount takes it off the total, which stops at zero. */
  lemma Heal(total: int, amount: nat)
    requires 0 <= total <= UNIT_BASE_HEALTH
    ensures Effect(DepletionState(Health(total)), StatGain(amount, HEALTH, NORMAL))
         == DepletionState(Health(if total - amount < 0 then 0 else total - amount))
  {
    EmptyIsIdentity(DEFAULT_ORDER, DEFAULT_ROUNDING, amount);
    FreshValueIsBase(UNIT_BASE_HEALTH);
  }

  /** One command on the health of the default unit, followed by a read of the remaining health. */
  method Interact(u: Unit, health: StatDepletion, i: StatInteraction, ghost total: int, ghost next: int) returns (remaining: int)
    requires u.Valid() && u.typeCount == 1 && HEALTH in u.unitStats && u.unitStats[HEALTH] == DepletionStat(health)
    requires i.WellFormed() && i.statToAffect == HEALTH && i.interactionType == NORMAL
    requires health.Snapshot() == Health(total) && 0 <= next <= UNIT_BASE_HEALTH
    requires Effect(DepletionState(Health(total)), i) == DepletionState(Health(next))
    modifies u.Repr()
    ensures u.Valid() && health.Snapshot() == Health(next)
    ensures remaining == UNIT_BASE_HEALTH - next
  {
    assert u.Snapshot()[HEALTH] == DepletionState(Health(total));
    u.InteractWithStat(i);
    assert u.Snapshot()[HEALTH] == DepletionState(health.Snapshot());
    FreshValueIsBase(UNIT_BASE_HEALTH);
    remaining := health.GetRemainingStatValue();
  }

  /** The default unit `u` holds `health` as its health stat, with the given total depletion. */
  ghost predicate HealthAt(u: Unit, health: StatDepletion, total: int)
    reads u.Repr()
  {
    && u.Valid() && u.typeCount == 1 && HEALTH in u.unitStats && u.unitStats[HEALTH] == DepletionStat(health)
    && health.Snapshot() == Health(total)
  }

  /** A new default unit and its health stat, at full health. */
  method NewHealthyUnit() returns (u: Unit, health: StatDepletion)
    ensures HealthAt(u, health, 0) && fresh(u.Repr())
  {
    u := NewUnitDefault();
    var stat := u.GetStat(HEALTH);
    health := stat.value.AsStatDepletion().value;
  }

  /** A hit through the unit: the total grows by the amount up to the capacity. */
  method TakeHit(u: Unit, health: StatDepletion, amount: nat, ghost total: int, ghost next: int) returns (remaining: int)
    requires HealthAt(u, health, total) && 0 <= total <= UNIT_BASE_HEALTH
    requires next == if total + amount > UNIT_BASE_HEALTH then UNIT_BASE_HEALTH else total + amount
    modifies u.Repr()
    ensures HealthAt(u, health, next) && remaining == UNIT_BASE_HEALTH - next
  {
    Hit(total, amount);
    remaining := Interact(u, health, StatDeplete(amount, HEALTH, NORMAL), total, next);
  }

  /** A heal through the unit: the total shrinks by the amount down to zero. */
  method TakeHeal(u: Unit, health: StatDepletion, amount: nat, ghost total: int, ghost next: int) returns (remaining: int)
    requires HealthAt(u, health, total) && 0 <= total <= UNIT_BASE_HEALTH
    requires next == if total - amount < 0 then 0 else total - amount
    modifies u.Repr()
    ensures HealthAt(u, health, next) && remaining == UNIT_BASE_HEALTH - next
  {
    Heal(total, amount);
    remaining := Interact(u, health, StatGain(amount, HEALTH, NORMAL), total, next);
  }

  /** Hits of 400, 400 and 300 on full health leave 600, 200 and 0: the total stops at the capacity. */
  method TakeHits(u: Unit, health: StatDepletion) returns (left: seq<int>)
    requires HealthAt(u, health, 0)
    modifies u.Repr()
    ensures HealthAt(u, health, UNIT_BASE_HEALTH) && left == [600, 200, 0]
  {
    var r1 := TakeHit(u, health, 400, 0, 400);
    var r2 := TakeHit(u, health, 400, 400, 800);
    var r3 := TakeHit(u, health, 300, 800, 1000);
    assert r1 == 600 && r2 == 200 && r3 == 0;
    left := [r1, r2, r3];
  }

  /** Heals of 500 and 350 after the first heal leave 850 and then 1000: the total stops at zero. */
  method TakeLastHeals(u: Unit, health: StatDepletion) returns (second: int, third: int)
    requires HealthAt(u, health, 650)
    modifies u.Repr()
    ensures HealthAt(u, health, 0) && second == 850 && third == 1000
  {
    second := TakeHeal(u, health, 500, 650, 150);
    third := TakeHeal(u, health, 350, 150, 0);
  }

  /** Heals of 350, 500 and 350 on no health left give 350, 850 and 1000: the total stops at zero. */
  method TakeHeals(u: Unit, health: StatDepletion) returns (left: seq<int>)
    requires HealthAt(u, health, UNIT_BASE_HEALTH)
    modifies u.Repr()
    ensures HealthAt(u, health, 0) && left == [350, 850, 1000]
  {
    var first := TakeHeal(u, health, 350, 1000, 650);
    var second, third := TakeLastHeals(u, health);
    left := [first, second, third];
  }

  /** The health of a new default unit under the hits and then the heals above. */
  method TakesDamageAndHeals() returns (afterHits: seq<int>, afterHeals: seq<int>)
    ensures afterHits == [600, 200, 0] && afterHeals == [350, 850, 1000]
  {
    var u, health := NewHealthyUnit();
    afterHits := TakeHits(u, health);
    afterHeals := TakeHeals(u, health);
  }
}
