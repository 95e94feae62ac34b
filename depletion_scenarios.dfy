/** Worked examples of StatDepletion runs: the remaining values a sequence of calls returns. */
module DepletionScenarios {
  import opened Wrappers
  import opened Filters
  import opened FilteredInts
  import opened Depletions
  import opened FilterScenarios

  /** A stat of capacity 10 with the default bounds, one interaction type, no filters and `total` depleted. */
  ghost predicate TenWith(health: StatDepletion, total: int)
    reads health.Repr()
  {
    && health.Valid() && health.TypeCount() == 1
    && health.Snapshot() == NewAccount(10, 1, false, false).(totalDepletion := total)
  }

  /** A deplete adds the whole amount to the total, which stops at the capacity. */
  method DepleteTen(health: StatDepletion, amount: nat, ghost total: int) returns (remaining: int)
    requires TenWith(health, total) && 0 <= total <= 10
    modifies health
    ensures TenWith(health, if total + amount > 10 then 10 else total + amount)
    ensures remaining == 10 - (if total + amount > 10 then 10 else total + amount)
  {
    EmptyIsIdentity(DEFAULT_ORDER, DEFAULT_ROUNDING, amount);
    remaining := health.DepleteStat(amount);
  }

  /** A gain takes the whole amount off the total, which stops at zero. */
  method GainTen(health: StatDepletion, amount: nat, ghost total: int) returns (remaining: int)
    requires TenWith(health, total) && 0 <= total <= 10
    modifies health
    ensures TenWith(health, if total < amount then 0 else total - amount)
    ensures remaining == 10 - (if total < amount then 0 else total - amount)
  {
    EmptyIsIdentity(DEFAULT_ORDER, DEFAULT_ROUNDING, amount);
    remaining := health.GainStat(amount);
  }

  /** Depletes of 3, 4 and 5 on a full stat of capacity 10 leave 7, 3 and 0: the total stops at the capacity. */
  method DepleteToEmpty(health: StatDepletion) returns (left: seq<int>)
    requires TenWith(health, 0)
    modifies health
    ensures TenWith(health, 10) && left == [7, 3, 0]
  {
    var r1 := DepleteTen(health, 3, 0);
    var r2 := DepleteTen(health, 4, 3);
    var r3 := DepleteTen(health, 5, 7);
    left := [r1, r2, r3];
  }

  /** Gains of 4 on an emptied stat of capacity 10 give 4, 8 and 10: the total stops at zero. */
  method GainToFull(health: StatDepletion) returns (left: seq<int>)
    requires TenWith(health, 10)
    modifies health
    ensures TenWith(health, 0) && left == [4, 8, 10]
  {
    var r1 := GainTen(health, 4, 10);
    var r2 := GainTen(health, 4, 6);
    var r3 := GainTen(health, 4, 2);
    left := [r1, r2, r3];
  }

  /** Capacity 10 with the default bounds, emptied by three depletes and filled again by three gains. */
  method BoundedDepleteAndGain() returns (depleted: seq<int>, gained: seq<int>)
    ensures depleted == [7, 3, 0] && gained == [4, 8, 10]
  {
    var health := new StatDepletion(10, 1);
    depleted := DepleteToEmpty(health);
    gained := GainToFull(health);
  }

  /** The armour: three constants and one scalar on the depletion side. */
  function Armour(): Pipeline {
    Pipeline([ConstantFilter("Helmet", -2), ConstantFilter("PlateLegs", -4), ConstantFilter("PlateBody", -5)],
             [ScalarFilter("AmuletOfDefense", 0.9)], [], DEFAULT_ORDER, DEFAULT_ROUNDING)
  }

  /** Equipping the four pieces one by one on a new sequence builds the armour. */
  lemma EquipArmour()
    ensures Empty().AddFilter(Some(ConstantFilter("Helmet", -2)))
                   .AddFilter(Some(ConstantFilter("PlateLegs", -4)))
                   .AddFilter(Some(ConstantFilter("PlateBody", -5)))
                   .AddFilter(Some(ScalarFilter("AmuletOfDefense", 0.9))) == Armour()
  {
    var p1 := Empty().AddFilter(Some(ConstantFilter("Helmet", -2)));
    assert p1 == Empty().(constants := [ConstantFilter("Helmet", -2)]);
    var p2 := p1.AddFilter(Some(ConstantFilter("PlateLegs", -4)));
    assert "PlateLegs" !in p1.Names() by { assert NamesIn(p1.constants) == {"Helmet"}; }
    assert p2 == p1.(constants := p1.constants + [ConstantFilter("PlateLegs", -4)]);
    var p3 := p2.AddFilter(Some(ConstantFilter("PlateBody", -5)));
    assert "PlateBody" !in p2.Names() by { AppendOne(p1.constants, ConstantFilter("PlateLegs", -4)); }
    assert p3 == p2.(constants := p2.constants + [ConstantFilter("PlateBody", -5)]);
    assert "AmuletOfDefense" !in p3.Names() by {
      AppendOne(p1.constants, ConstantFilter("PlateLegs", -4));
      AppendOne(p2.constants, ConstantFilter("PlateBody", -5));
    }
  }

  /** A hit of 2 filters to -9 (absorbed), a hit of 30 to 17. */
  lemma ArmourAmounts()
    ensures FilteredAmount(Armour(), 2) == 0
    ensures FilteredAmount(Armour(), 30) == 17
  {
    var cs := Categories(DEFAULT_ORDER);
    assert cs == [Constant, Scalar, Custom];
    var c := Armour().constants;
    forall x: real ensures Fold(c, x) == x - 11.0 {
      assert c[..2][..1] == c[..1] && c[..1][..0] == [];
      assert Fold(c[..1], x) == x - 2.0;
      assert Fold(c[..2], x) == x - 6.0;
    }
    var sc := Armour().scalars;
    assert sc[..0] == [];
    assert Fold(sc, 1.0) == 0.9;
    forall x: real ensures RunCategories(Armour(), cs, x) == Scale(0.9, x - 11.0) {
      assert cs[..2][..1] == cs[..1] && cs[..1][..0] == [];
      assert RunCategories(Armour(), cs[..1], x) == x - 11.0;
      assert RunCategories(Armour(), cs[..2], x) == Scale(0.9, x - 11.0);
    }
    assert Apply(Armour(), 2) == RoundDown(-8.1) == -9;
    assert Apply(Armour(), 30) == RoundDown(17.1) == 17;
  }

  /** Adds one filter to the single depletion sequence of a stat of one interaction type. */
  method EquipPiece(health: StatDepletion, piece: Filter, ghost p: Pipeline)
    requires health.Valid() && health.TypeCount() == 1 && health.Snapshot().depletion == [p]
    modifies health.depletionFilterSequences[0]
    ensures health.Valid() && health.Snapshot() == old(health.Snapshot()).(depletion := [p.AddFilter(Some(piece))])
  {
    var _ := health.AddDepletionFilter(Some(piece));
  }

  /** Equips the armour on the default depletion type of a stat with no depletion filters yet. */
  method Equip(health: StatDepletion)
    requires health.Valid() && health.TypeCount() == 1 && health.Snapshot().depletion == [Empty()]
    modifies health.depletionFilterSequences[0]
    ensures health.Valid() && health.Snapshot() == old(health.Snapshot()).(depletion := [Armour()])
  {
    var p1 := Empty().AddFilter(Some(ConstantFilter("Helmet", -2)));
    var p2 := p1.AddFilter(Some(ConstantFilter("PlateLegs", -4)));
    var p3 := p2.AddFilter(Some(ConstantFilter("PlateBody", -5)));
    EquipPiece(health, ConstantFilter("Helmet", -2), Empty());
    EquipPiece(health, ConstantFilter("PlateLegs", -4), p1);
    EquipPiece(health, ConstantFilter("PlateBody", -5), p2);
    EquipPiece(health, ScalarFilter("AmuletOfDefense", 0.9), p3);
    EquipArmour();
  }

  /** A stat of capacity 100 with the default bounds, the armour on its one depletion type and `total` depleted. */
  ghost predicate ArmouredWith(health: StatDepletion, total: int)
    reads health.Repr()
  {
    && health.Valid() && health.TypeCount() == 1
    && health.Snapshot() == NewAccount(100, 1, false, false).(depletion := [Armour()], totalDepletion := total)
  }

  /** A hit on the armoured stat adds the filtered amount to the total. */
  method HitArmoured(health: StatDepletion, amount: int, ghost total: int, ghost filtered: int) returns (remaining: int)
    requires ArmouredWith(health, total) && filtered == FilteredAmount(Armour(), amount)
    requires 0 <= total + filtered <= 100
    modifies health
    ensures ArmouredWith(health, total + filtered) && remaining == 100 - (total + filtered)
  {
    remaining := health.DepleteStat(amount);
  }

  /** A new stat of capacity 100 wearing the armour. */
  method NewArmoured() returns (health: StatDepletion)
    ensures ArmouredWith(health, 0) && fresh(health.Repr())
  {
    health := new StatDepletion(100, 1);
    assert health.depletionFilterSequences[0] in health.Repr();
    Equip(health);
  }

  /**
   * Capacity 100, armour on the default depletion type: constants -2, -4
   * and -5 and a scalar 0.9.  A hit of 2 is absorbed, a hit of 30 takes 17,
   * a second hit of 2 is absorbed again.
   */
  method ArmourAbsorbsHits() returns (left: seq<int>)
    ensures left == [100, 83, 83]
  {
    var health := NewArmoured();
    ArmourAmounts();
    var r1 := HitArmoured(health, 2, 0, 0);
    var r2 := HitArmoured(health, 30, 0, 17);
    var r3 := HitArmoured(health, 2, 17, 0);
    assert r1 == 100 && r2 == 83 && r3 == 83;
    left := [r1, r2, r3];
  }

  // ------------------------------------------------------------ the enemy

  /** The health of an enemy: a depletion stat built with base 0 and given its base of 10 afterwards. */
  method NewEnemyHealth() returns (health: StatDepletion)
    ensures TenWith(health, 0) && fresh(health.Repr())
  {
    health := new StatDepletion(0, 1);
    assert health.stat.Repr() <= health.Repr();
    var _ := health.SetStatBase(10);
    FreshValueIsBase(0);
  }

  /**
   * An enemy of base health 10 takes four hits of 3 and a heal of 4: the
   * health reads 7, 4, 1 and then 0, the last hit cut off at the capacity,
   * and the heal brings it back to 4.
   */
  method EnemyTakesDamageAndHeals() returns (h1: int, h2: int, h3: int, h4: int, healed: int)
    ensures h1 == 7 && h2 == 4 && h3 == 1 && h4 == 0 && healed == 4
  {
    var health := NewEnemyHealth();
    h1 := DepleteTen(health, 3, 0);
    h2 := DepleteTen(health, 3, 3);
    h3 := DepleteTen(health, 3, 6);
    h4 := DepleteTen(health, 3, 9);
    healed := GainTen(health, 4, 10);
  }

  // ------------------------------------------------ custom interaction types

  /** The interaction types of the ice giant, numbered from 0 in their declared order. */
  const CRUSH: nat := 0
  const PIERCE: nat := 1
  const SLASH: nat := 2
  const FIRE: nat := 3
  const ICE: nat := 4

  /** An empty sequence that rounds half away from zero. */
  function Middle(): Pipeline {
    Empty().(rounding := MIDDLE)
  }

  /** One scalar filter in a sequence that rounds half away from zero. */
  function MiddleScalar(name: string, factor: real): Pipeline {
    Middle().(scalars := [ScalarFilter(name, factor)])
  }

  /** The ice giant's depletion sequences, one per interaction type. */
  function IceGiantDefence(): seq<Pipeline> {
    [MiddleScalar("CrushDepletion", 1.5), MiddleScalar("PierceDepletion", 0.7), MiddleScalar("SlashDepletion", 0.5),
     MiddleScalar("FireDepletion", 2.0), MiddleScalar("IceDepletion", 0.2)]
  }

  /** A hit of 10 through one scalar filter whose product with 10 is the integer `n` counts as `n`. */
  lemma MiddleScalarHit(name: string, factor: real, n: int)
    requires n >= 0 && factor * 10.0 == n as real
    ensures FilteredAmount(MiddleScalar(name, factor), 10) == n
  {
    var p := MiddleScalar(name, factor);
    DefaultOrderValue(p, 10);
    assert Fold(p.scalars, 1.0) == factor by {
      assert p.scalars[..0] == [];
    }
    assert Fold(p.constants, 10.0) == 10.0;
    assert Scale(factor, 10.0) == n as real;
  }

  /** Hits of 10 count as 15 crushing, 7 piercing, 5 slashing, 20 burning and 2 freezing. */
  lemma IceGiantAmounts()
    ensures FilteredAmount(IceGiantDefence()[CRUSH], 10) == 15
    ensures FilteredAmount(IceGiantDefence()[PIERCE], 10) == 7
    ensures FilteredAmount(IceGiantDefence()[SLASH], 10) == 5
    ensures FilteredAmount(IceGiantDefence()[FIRE], 10) == 20
    ensures FilteredAmount(IceGiantDefence()[ICE], 10) == 2
  {
    MiddleScalarHit("CrushDepletion", 1.5, 15);
    MiddleScalarHit("PierceDepletion", 0.7, 7);
    MiddleScalarHit("SlashDepletion", 0.5, 5);
    MiddleScalarHit("FireDepletion", 2.0, 20);
    MiddleScalarHit("IceDepletion", 0.2, 2);
  }

  /** Rounding half away from zero on every depletion type of a new stat of five types. */
  lemma AllRoundMiddle()
    ensures SetAllRoundings(NewAccount(100, 5, false, false), DepletionSide, MIDDLE)
         == NewAccount(100, 5, false, false).(depletion := [Middle(), Middle(), Middle(), Middle(), Middle()])
  {
  }

  /** A stat of capacity 100 with the ice giant's defences and `total` depleted. */
  ghost predicate IceGiantWith(health: StatDepletion, total: int)
    reads health.Repr()
  {
    && health.Valid() && health.TypeCount() == 5
    && health.Snapshot() == NewAccount(100, 5, false, false).(depletion := IceGiantDefence(), totalDepletion := total)
  }

  /** A stat of capacity 100 with five types, nothing depleted and the depletion sequences `ds`. */
  ghost predicate FiveTypesWith(health: StatDepletion, ds: seq<Pipeline>)
    reads health.Repr()
  {
    && health.Valid() && health.TypeCount() == 5
    && health.Snapshot() == NewAccount(100, 5, false, false).(depletion := ds)
  }

  /** Adds one scalar filter under type `t`, whose sequence is still empty. */
  method ArmType(health: StatDepletion, t: nat, name: string, factor: real, ghost ds: seq<Pipeline>)
    requires FiveTypesWith(health, ds) && t < 5 && ds[t] == Middle()
    modifies health.depletionFilterSequences[t]
    ensures FiveTypesWith(health, ds[t := MiddleScalar(name, factor)])
  {
    assert Middle().AddFilter(Some(ScalarFilter(name, factor))) == MiddleScalar(name, factor) by {
      assert NamesIn([]) == {};
      assert [] + [ScalarFilter(name, factor)] == [ScalarFilter(name, factor)];
    }
    var _ := health.AddDepletionFilter(Some(ScalarFilter(name, factor)), t);
  }

  /** A new stat of 100 with five types, every depletion type rounding half away from zero. */
  method NewMiddleStat() returns (health: StatDepletion)
    ensures FiveTypesWith(health, [Middle(), Middle(), Middle(), Middle(), Middle()]) && fresh(health.Repr())
  {
    health := new StatDepletion(100, 5);
    assert forall s | s in health.depletionFilterSequences :: s in health.Repr();
    health.SetDepletionAfterFilterRoundingForAll(MIDDLE, true);
    AllRoundMiddle();
  }

  /** Scalar depletion filters for crushing and piercing. */
  method ArmAgainstBlows(health: StatDepletion)
    requires FiveTypesWith(health, [Middle(), Middle(), Middle(), Middle(), Middle()])
    modifies set s | s in health.depletionFilterSequences
    ensures FiveTypesWith(health, IceGiantDefence()[..2] + [Middle(), Middle(), Middle()])
  {
    var d := IceGiantDefence();
    ArmType(health, CRUSH, "CrushDepletion", 1.5, [Middle(), Middle(), Middle(), Middle(), Middle()]);
    assert [Middle(), Middle(), Middle(), Middle(), Middle()][CRUSH := d[CRUSH]] == [d[CRUSH], Middle(), Middle(), Middle(), Middle()];
    ArmType(health, PIERCE, "PierceDepletion", 0.7, [d[CRUSH], Middle(), Middle(), Middle(), Middle()]);
    assert [d[CRUSH], Middle(), Middle(), Middle(), Middle()][PIERCE := d[PIERCE]] == d[..2] + [Middle(), Middle(), Middle()];
  }

  /** Scalar depletion filters for slashing and fire. */
  method ArmAgainstBladesAndFire(health: StatDepletion)
    requires FiveTypesWith(health, IceGiantDefence()[..2] + [Middle(), Middle(), Middle()])
    modifies set s | s in health.depletionFilterSequences
    ensures FiveTypesWith(health, IceGiantDefence()[..4] + [Middle()])
  {
    var d := IceGiantDefence();
    ArmType(health, SLASH, "SlashDepletion", 0.5, d[..2] + [Middle(), Middle(), Middle()]);
    assert (d[..2] + [Middle(), Middle(), Middle()])[SLASH := d[SLASH]] == d[..3] + [Middle(), Middle()];
    ArmType(health, FIRE, "FireDepletion", 2.0, d[..3] + [Middle(), Middle()]);
    assert (d[..3] + [Middle(), Middle()])[FIRE := d[FIRE]] == d[..4] + [Middle()];
  }

  /** A scalar depletion filter for ice. */
  method ArmAgainstIce(health: StatDepletion)
    requires FiveTypesWith(health, IceGiantDefence()[..4] + [Middle()])
    modifies set s | s in health.depletionFilterSequences
    ensures IceGiantWith(health, 0)
  {
    var d := IceGiantDefence();
    ArmType(health, ICE, "IceDepletion", 0.2, d[..4] + [Middle()]);
    assert (d[..4] + [Middle()])[ICE := d[ICE]] == d;
  }

  /** A new stat of 100 with five types, rounding half away from zero and one scalar depletion filter per type. */
  method NewIceGiant() returns (health: StatDepletion)
    ensures IceGiantWith(health, 0) && fresh(health.Repr())
  {
    health := NewMiddleStat();
    assert forall s | s in health.depletionFilterSequences :: s in health.Repr();
    ArmAgainstBlows(health);
    ArmAgainstBladesAndFire(health);
    ArmAgainstIce(health);
  }

  /** A hit of 10 of type `t` adds that type's filtered amount to the total. */
  method HitIceGiant(health: StatDepletion, t: nat, ghost total: int, ghost filtered: int) returns (remaining: int)
    requires IceGiantWith(health, total) && t < 5 && filtered == FilteredAmount(IceGiantDefence()[t], 10)
    requires 0 <= total + filtered <= 100
    modifies health
    ensures IceGiantWith(health, total + filtered) && remaining == 100 - (total + filtered)
  {
    remaining := health.DepleteStat(10, t);
  }

  /**
   * Capacity 100, five custom interaction types each with its own scalar
   * depletion filter, rounding half away from zero: a hit of 10 of each type
   * in turn leaves 85, 78, 73, 53 and 51.
   */
  method IceGiantTakesHits() returns (r1: int, r2: int, r3: int, r4: int, r5: int)
    ensures r1 == 85 && r2 == 78 && r3 == 73 && r4 == 53 && r5 == 51
  {
    var health := NewIceGiant();
    IceGiantAmounts();
    r1 := HitIceGiant(health, CRUSH, 0, 15);
    r2 := HitIceGiant(health, PIERCE, 15, 7);
    r3 := HitIceGiant(health, SLASH, 22, 5);
    r4 := HitIceGiant(health, FIRE, 27, 20);
    r5 := HitIceGiant(health, ICE, 47, 2);
  }
}
