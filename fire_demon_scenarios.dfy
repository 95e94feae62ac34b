/**
 * The fire demon: a unit whose health, a depletion stat of 1000, meets
 * commands of several interaction types.  Each command acts on the health as
 * the unit routes it (DepletionEffect); the health keeps one depletion and one
 * gain sequence per interaction type, here NORMAL, FIRE, WATER and PLANT.
 */
module FireDemonScenarios {
  import opened Wrappers
  import opened Filters
  import opened FilteredInts
  import opened Depletions
  import opened Interactions
  import opened Units
  import opened UnitScenarios
  import opened FilterScenarios

  const FIRE: nat := 1
  const WATER: nat := 2
  const PLANT: nat := 3

  const FireImmunity: Filter := ScalarFilter("fireImmunity", 0.1)
  const WaterWeakness: Filter := ScalarFilter("waterWeakness", 1.5)
  const AmuletOfFire: Filter := ConstantFilter("amuletOfFire", -10)
  const FireHealing: Filter := ScalarFilter("fireImmunity", 1.5)
  const WaterHealing: Filter := ScalarFilter("waterWeakness", 0.1)
  const AmuletOfFireHealing: Filter := ConstantFilter("amuletOfFire", 10)

  /** A sequence holding the given constant and scalar filters, in the default order and rounding. */
  function Stores(cs: seq<Filter>, ss: seq<Filter>): Pipeline {
    Empty().(constants := cs, scalars := ss)
  }

  /** The demon's health with `total` depleted and the given sequences per type. */
  function Demon(total: int, depletion: seq<Pipeline>, gain: seq<Pipeline>): Account {
    NewAccount(UNIT_BASE_HEALTH, 4, false, false).(totalDepletion := total, depletion := depletion, gain := gain)
  }

  /** No filters for any type. */
  function Bare(): seq<Pipeline> {
    [Empty(), Empty(), Empty(), Empty()]
  }

  /** The depletion sequences: `fire` for fire, the weakness for water. */
  function Resistances(fire: Pipeline): seq<Pipeline> {
    [Empty(), fire, Stores([], [WaterWeakness]), Empty()]
  }

  /** Immunity to fire and the amulet that blunts it. */
  function Armed(): Pipeline {
    Stores([AmuletOfFire], [FireImmunity])
  }

  /** The gain sequences once the healing filters are in place. */
  function Healing(): seq<Pipeline> {
    [Empty(), Stores([AmuletOfFireHealing], [FireHealing]), Stores([], [WaterHealing]), Empty()]
  }

  // ------------------------------------------------------------ one command

  /** A deplete adds the filtered amount of its type to the total, which stops at 1000. */
  lemma DemonDepletes(total: int, ds: seq<Pipeline>, gs: seq<Pipeline>, t: nat, value: int, n: int)
    requires |ds| == 4 && |gs| == 4 && t < 4 && 0 <= total && n == FilteredAmount(ds[t], value)
    ensures DepletionEffect(Demon(total, ds, gs), StatDeplete(value, HEALTH, t))
         == Demon(if total + n > 1000 then 1000 else total + n, ds, gs)
  {
  }

  /** A gain takes the filtered amount of its type off the total, which stops at 0. */
  lemma DemonGains(total: int, ds: seq<Pipeline>, gs: seq<Pipeline>, t: nat, value: int, n: int)
    requires |ds| == 4 && |gs| == 4 && t < 4 && total <= 1000 && n == FilteredAmount(gs[t], value)
    ensures DepletionEffect(Demon(total, ds, gs), StatGain(value, HEALTH, t))
         == Demon(if total - n < 0 then 0 else total - n, ds, gs)
  {
  }

  /** A depletion filter whose name its type does not hold yet is appended under that type. */
  lemma DemonAddsDepletionFilter(total: int, ds: seq<Pipeline>, gs: seq<Pipeline>, t: nat, f: Filter)
    requires |ds| == 4 && |gs| == 4 && t < 4 && f.name !in ds[t].Names()
    ensures DepletionEffect(Demon(total, ds, gs), AddStatDepleteFilter(Some(f), HEALTH, t)) == Demon(total, ds[t := ds[t].Add(f)], gs)
  {
  }

  /** A gain filter whose name its type does not hold yet is appended under that type. */
  lemma DemonAddsGainFilter(total: int, ds: seq<Pipeline>, gs: seq<Pipeline>, t: nat, f: Filter)
    requires |ds| == 4 && |gs| == 4 && t < 4 && f.name !in gs[t].Names()
    ensures DepletionEffect(Demon(total, ds, gs), AddStatGainFilter(Some(f), HEALTH, t)) == Demon(total, ds, gs[t := gs[t].Add(f)])
  {
  }

  /** Removing a depletion filter by name touches only the sequence of the command's type. */
  lemma DemonRemovesDepletionFilter(total: int, ds: seq<Pipeline>, gs: seq<Pipeline>, t: nat, name: string)
    requires |ds| == 4 && |gs| == 4 && t < 4
    ensures DepletionEffect(Demon(total, ds, gs), RemoveStatDepleteFilter(name, HEALTH, t)) == Demon(total, ds[t := ds[t].Remove(name)], gs)
  {
  }

  /** A new health stat of the demon holds no filters for any type. */
  lemma DemonStartsBare()
    ensures NewAccount(UNIT_BASE_HEALTH, 4, false, false) == Demon(0, Bare(), Bare())
  {
    assert seq(4, _ => Empty()) == Bare();
  }

  /** The remaining health is 1000 less the total. */
  lemma DemonRemaining(total: int, ds: seq<Pipeline>, gs: seq<Pipeline>)
    requires 0 <= total <= 1000
    ensures Remaining(Demon(total, ds, gs)) == 1000 - total
  {
  }

  /**
   * Through an optional constant of `k` and one scalar `factor`, an amount `x`
   * counts as (x + k) times the factor, rounded down; here that product is
   * the integer `n`.
   */
  lemma ConstantThenScalar(cs: seq<Filter>, k: int, name: string, factor: real, x: int, n: int)
    requires (cs == [] && k == 0) || cs == [ConstantFilter("amuletOfFire", k)]
    requires n >= 0 && factor * (x + k) as real == n as real
    ensures FilteredAmount(Stores(cs, [ScalarFilter(name, factor)]), x) == n
  {
    var p := Stores(cs, [ScalarFilter(name, factor)]);
    DefaultOrderValue(p, x);
    assert Fold(p.scalars, 1.0) == factor by {
      assert p.scalars[..0] == [];
    }
    assert Fold(p.constants, x as real) == (x + k) as real by {
      if cs != [] {
        assert cs[..0] == [];
      }
    }
    assert Scale(factor, (x + k) as real) == n as real;
  }

  /** The amounts the test expects: every type's filters turn hits and heals of 100 and 200 into these. */
  lemma DemonAmounts()
    ensures FilteredAmount(Armed(), 100) == 9 && FilteredAmount(Armed(), 200) == 19
    ensures FilteredAmount(Stores([], [FireImmunity]), 200) == 20
    ensures FilteredAmount(Stores([], [WaterWeakness]), 100) == 150
    ensures FilteredAmount(Stores([], [WaterWeakness]), 200) == 300
    ensures FilteredAmount(Empty(), 100) == 100 && FilteredAmount(Empty(), 200) == 200
    ensures FilteredAmount(Healing()[FIRE], 100) == 165 && FilteredAmount(Healing()[FIRE], 200) == 315
    ensures FilteredAmount(Healing()[WATER], 100) == 10 && FilteredAmount(Healing()[WATER], 200) == 20
  {
    ConstantThenScalar([AmuletOfFire], -10, "fireImmunity", 0.1, 100, 9);
    ConstantThenScalar([AmuletOfFire], -10, "fireImmunity", 0.1, 200, 19);
    ConstantThenScalar([], 0, "fireImmunity", 0.1, 200, 20);
    ConstantThenScalar([], 0, "waterWeakness", 1.5, 100, 150);
    ConstantThenScalar([], 0, "waterWeakness", 1.5, 200, 300);
    EmptyIsIdentity(DEFAULT_ORDER, DEFAULT_ROUNDING, 100);
    EmptyIsIdentity(DEFAULT_ORDER, DEFAULT_ROUNDING, 200);
    ConstantThenScalar([AmuletOfFireHealing], 10, "fireImmunity", 1.5, 100, 165);
    ConstantThenScalar([AmuletOfFireHealing], 10, "fireImmunity", 1.5, 200, 315);
    ConstantThenScalar([], 0, "waterWeakness", 0.1, 100, 10);
    ConstantThenScalar([], 0, "waterWeakness", 0.1, 200, 20);
  }

  // ------------------------------------------------------------- the run

  /** Immunity to fire, weakness to water, then the amulet: three depletion filters under their types. */
  lemma DemonTakesOnDefences()
    ensures DepletionEffect(NewAccount(UNIT_BASE_HEALTH, 4, false, false), AddStatDepleteFilter(Some(FireImmunity), HEALTH, FIRE))
         == Demon(0, [Empty(), Stores([], [FireImmunity]), Empty(), Empty()], Bare())
    ensures DepletionEffect(Demon(0, [Empty(), Stores([], [FireImmunity]), Empty(), Empty()], Bare()),
                            AddStatDepleteFilter(Some(WaterWeakness), HEALTH, WATER))
         == Demon(0, Resistances(Stores([], [FireImmunity])), Bare())
    ensures DepletionEffect(Demon(0, Resistances(Stores([], [FireImmunity])), Bare()),
                            AddStatDepleteFilter(Some(AmuletOfFire), HEALTH, FIRE))
         == Demon(0, Resistances(Armed()), Bare())
  {
    assert NamesIn([]) == {};
    assert NamesIn([FireImmunity]) == {"fireImmunity"};
    assert [] + [FireImmunity] == [FireImmunity] && [] + [WaterWeakness] == [WaterWeakness] && [] + [AmuletOfFire] == [AmuletOfFire];
    var d0 := [Empty(), Stores([], [FireImmunity]), Empty(), Empty()];
    DemonStartsBare();
    DemonAddsDepletionFilter(0, Bare(), Bare(), FIRE, FireImmunity);
    assert Bare()[FIRE := Empty().Add(FireImmunity)] == d0;
    DemonAddsDepletionFilter(0, d0, Bare(), WATER, WaterWeakness);
    assert d0[WATER := Empty().Add(WaterWeakness)] == Resistances(Stores([], [FireImmunity]));
    DemonAddsDepletionFilter(0, Resistances(Stores([], [FireImmunity])), Bare(), FIRE, AmuletOfFire);
    assert Resistances(Stores([], [FireImmunity]))[FIRE := Stores([], [FireImmunity]).Add(AmuletOfFire)] == Resistances(Armed());
  }

  /** Hits of 100 and then 200 of fire, plant and water leave 991, 891, 741, 722, 522 and 222. */
  lemma DemonTakesDamage()
    ensures DepletionEffect(Demon(0, Resistances(Armed()), Bare()), StatDeplete(100, HEALTH, FIRE)) == Demon(9, Resistances(Armed()), Bare())
    ensures DepletionEffect(Demon(9, Resistances(Armed()), Bare()), StatDeplete(100, HEALTH, PLANT)) == Demon(109, Resistances(Armed()), Bare())
    ensures DepletionEffect(Demon(109, Resistances(Armed()), Bare()), StatDeplete(100, HEALTH, WATER)) == Demon(259, Resistances(Armed()), Bare())
    ensures DepletionEffect(Demon(259, Resistances(Armed()), Bare()), StatDeplete(200, HEALTH, FIRE)) == Demon(278, Resistances(Armed()), Bare())
    ensures DepletionEffect(Demon(278, Resistances(Armed()), Bare()), StatDeplete(200, HEALTH, PLANT)) == Demon(478, Resistances(Armed()), Bare())
    ensures DepletionEffect(Demon(478, Resistances(Armed()), Bare()), StatDeplete(200, HEALTH, WATER)) == Demon(778, Resistances(Armed()), Bare())
    ensures Remaining(Demon(9, Resistances(Armed()), Bare())) == 991 && Remaining(Demon(109, Resistances(Armed()), Bare())) == 891
    ensures Remaining(Demon(259, Resistances(Armed()), Bare())) == 741 && Remaining(Demon(278, Resistances(Armed()), Bare())) == 722
    ensures Remaining(Demon(478, Resistances(Armed()), Bare())) == 522 && Remaining(Demon(778, Resistances(Armed()), Bare())) == 222
  {
    var r, b := Resistances(Armed()), Bare();
    DemonAmounts();
    DemonDepletes(0, r, b, FIRE, 100, 9);
    DemonDepletes(9, r, b, PLANT, 100, 100);
    DemonDepletes(109, r, b, WATER, 100, 150);
    DemonDepletes(259, r, b, FIRE, 200, 19);
    DemonDepletes(278, r, b, PLANT, 200, 200);
    DemonDepletes(478, r, b, WATER, 200, 300);
  }

  /** Taking the amulet off leaves the immunity alone. */
  lemma AmuletComesOff()
    ensures Armed().Remove("amuletOfFire") == Stores([], [FireImmunity])
  {
    assert Without([AmuletOfFire], "amuletOfFire") == [] && Without([FireImmunity], "amuletOfFire") == [FireImmunity];
    assert Without([], "amuletOfFire") == [];
  }

  /** Taking the amulet off under fire leaves the immunity and every other type's filters. */
  lemma DemonTakesOffAmulet()
    ensures DepletionEffect(Demon(778, Resistances(Armed()), Bare()), RemoveStatDepleteFilter("amuletOfFire", HEALTH, FIRE))
         == Demon(778, Resistances(Stores([], [FireImmunity])), Bare())
  {
    AmuletComesOff();
    DemonRemovesDepletionFilter(778, Resistances(Armed()), Bare(), FIRE, "amuletOfFire");
    assert Resistances(Armed())[FIRE := Stores([], [FireImmunity])] == Resistances(Stores([], [FireImmunity]));
  }

  /** Without the amulet, a fire hit of 200 counts as 20 and leaves 202. */
  lemma DemonHitWithoutAmulet()
    ensures DepletionEffect(Demon(778, Resistances(Stores([], [FireImmunity])), Bare()), StatDeplete(200, HEALTH, FIRE))
         == Demon(798, Resistances(Stores([], [FireImmunity])), Bare())
    ensures Remaining(Demon(798, Resistances(Stores([], [FireImmunity])), Bare())) == 202
  {
    ConstantThenScalar([], 0, "fireImmunity", 0.1, 200, 20);
    DemonDepletes(778, Resistances(Stores([], [FireImmunity])), Bare(), FIRE, 200, 20);
  }

  /** With the amulet back, a fire hit of 200 counts as 19 and leaves 183. */
  lemma DemonRegainsAmulet()
    ensures DepletionEffect(Demon(798, Resistances(Stores([], [FireImmunity])), Bare()), AddStatDepleteFilter(Some(AmuletOfFire), HEALTH, FIRE))
         == Demon(798, Resistances(Armed()), Bare())
    ensures DepletionEffect(Demon(798, Resistances(Armed()), Bare()), StatDeplete(200, HEALTH, FIRE)) == Demon(817, Resistances(Armed()), Bare())
    ensures Remaining(Demon(817, Resistances(Armed()), Bare())) == 183
  {
    var r0, r := Resistances(Stores([], [FireImmunity])), Resistances(Armed());
    assert Stores([], [FireImmunity]).Add(AmuletOfFire) == Armed() by {
      assert [] + [AmuletOfFire] == [AmuletOfFire];
    }
    assert AmuletOfFire.name !in Stores([], [FireImmunity]).Names() by {
      assert NamesIn([FireImmunity]) == {"fireImmunity"} && NamesIn([]) == {};
    }
    DemonAddsDepletionFilter(798, r0, Bare(), FIRE, AmuletOfFire);
    assert r0[FIRE := Armed()] == r;
    ConstantThenScalar([AmuletOfFire], -10, "fireImmunity", 0.1, 200, 19);
    DemonDepletes(798, r, Bare(), FIRE, 200, 19);
  }

  /** A water hit of 200 counts as 300, more than the 183 left, and the health stops at 0. */
  lemma DemonFalls()
    ensures DepletionEffect(Demon(817, Resistances(Armed()), Bare()), StatDeplete(200, HEALTH, WATER)) == Demon(1000, Resistances(Armed()), Bare())
    ensures Remaining(Demon(1000, Resistances(Armed()), Bare())) == 0
  {
    ConstantThenScalar([], 0, "waterWeakness", 1.5, 200, 300);
    DemonDepletes(817, Resistances(Armed()), Bare(), WATER, 200, 300);
  }

  /** Healing by fire (scaled by 1.5 after the amulet's 10) and by water (scaled by 0.1) go under their types. */
  lemma DemonTakesOnHealing()
    ensures DepletionEffect(Demon(1000, Resistances(Armed()), Bare()), AddStatGainFilter(Some(FireHealing), HEALTH, FIRE))
         == Demon(1000, Resistances(Armed()), [Empty(), Stores([], [FireHealing]), Empty(), Empty()])
    ensures DepletionEffect(Demon(1000, Resistances(Armed()), [Empty(), Stores([], [FireHealing]), Empty(), Empty()]),
                            AddStatGainFilter(Some(WaterHealing), HEALTH, WATER))
         == Demon(1000, Resistances(Armed()), [Empty(), Stores([], [FireHealing]), Stores([], [WaterHealing]), Empty()])
    ensures DepletionEffect(Demon(1000, Resistances(Armed()), [Empty(), Stores([], [FireHealing]), Stores([], [WaterHealing]), Empty()]),
                            AddStatGainFilter(Some(AmuletOfFireHealing), HEALTH, FIRE))
         == Demon(1000, Resistances(Armed()), Healing())
  {
    var r := Resistances(Armed());
    var g1 := [Empty(), Stores([], [FireHealing]), Empty(), Empty()];
    var g2 := [Empty(), Stores([], [FireHealing]), Stores([], [WaterHealing]), Empty()];
    assert NamesIn([]) == {};
    assert NamesIn([FireHealing]) == {"fireImmunity"};
    assert [] + [FireHealing] == [FireHealing] && [] + [WaterHealing] == [WaterHealing] && [] + [AmuletOfFireHealing] == [AmuletOfFireHealing];
    DemonAddsGainFilter(1000, r, Bare(), FIRE, FireHealing);
    assert Bare()[FIRE := Empty().Add(FireHealing)] == g1;
    DemonAddsGainFilter(1000, r, g1, WATER, WaterHealing);
    assert g1[WATER := Empty().Add(WaterHealing)] == g2;
    DemonAddsGainFilter(1000, r, g2, FIRE, AmuletOfFireHealing);
    assert g2[FIRE := Stores([], [FireHealing]).Add(AmuletOfFireHealing)] == Healing();
  }

  /** Heals of 100 and then 200 of fire, plant and water bring the health to 165, 265, 275, 590, 790 and 810. */
  lemma DemonHeals()
    ensures DepletionEffect(Demon(1000, Resistances(Armed()), Healing()), StatGain(100, HEALTH, FIRE)) == Demon(835, Resistances(Armed()), Healing())
    ensures DepletionEffect(Demon(835, Resistances(Armed()), Healing()), StatGain(100, HEALTH, PLANT)) == Demon(735, Resistances(Armed()), Healing())
    ensures DepletionEffect(Demon(735, Resistances(Armed()), Healing()), StatGain(100, HEALTH, WATER)) == Demon(725, Resistances(Armed()), Healing())
    ensures DepletionEffect(Demon(725, Resistances(Armed()), Healing()), StatGain(200, HEALTH, FIRE)) == Demon(410, Resistances(Armed()), Healing())
    ensures DepletionEffect(Demon(410, Resistances(Armed()), Healing()), StatGain(200, HEALTH, PLANT)) == Demon(210, Resistances(Armed()), Healing())
    ensures DepletionEffect(Demon(210, Resistances(Armed()), Healing()), StatGain(200, HEALTH, WATER)) == Demon(190, Resistances(Armed()), Healing())
    ensures Remaining(Demon(835, Resistances(Armed()), Healing())) == 165 && Remaining(Demon(735, Resistances(Armed()), Healing())) == 265
    ensures Remaining(Demon(725, Resistances(Armed()), Healing())) == 275 && Remaining(Demon(410, Resistances(Armed()), Healing())) == 590
    ensures Remaining(Demon(210, Resistances(Armed()), Healing())) == 790 && Remaining(Demon(190, Resistances(Armed()), Healing())) == 810
  {
    var r, h := Resistances(Armed()), Healing();
    DemonAmounts();
    DemonGains(1000, r, h, FIRE, 100, 165);
    DemonGains(835, r, h, PLANT, 100, 100);
    DemonGains(735, r, h, WATER, 100, 10);
    DemonGains(725, r, h, FIRE, 200, 315);
    DemonGains(410, r, h, PLANT, 200, 200);
    DemonGains(210, r, h, WATER, 200, 20);
  }
}
