/**
 * Worked examples of filter sequences and filtered integers: constant
 * filters added to and removed from a filtered integer, and one scalar
 * filter under each rounding strategy.
 */
module FilterScenarios {
  import opened Wrappers
  import opened Filters
  import opened FilteredInts

  /** With the default order and no custom filters, the value is the constants' result times the scalars' product. */
  lemma DefaultOrderValue(p: Pipeline, x: int)
    requires p.order == DEFAULT_ORDER && p.customs == []
    ensures RunCategories(p, Categories(p.order), x as real) == Scale(Fold(p.scalars, 1.0), Fold(p.constants, x as real))
  {
    var cs := Categories(p.order);
    var x := x as real;
    assert cs == [Constant, Scalar, Custom];
    assert cs[..2][..1] == cs[..1] && cs[..1][..0] == [];
    assert RunCategories(p, cs[..1], x) == Fold(p.constants, x);
    assert RunCategories(p, cs[..2], x) == Scale(Fold(p.scalars, 1.0), Fold(p.constants, x));
  }

  // ------------------------------------------------ constant filters on 20

  const Filter1: Filter := ConstantFilter("filter1", 5)
  const Filter2: Filter := ConstantFilter("filter2", -10)

  /** A sequence holding only the given constant filters, in the default order and rounding. */
  function Constants(cs: seq<Filter>): Pipeline {
    Empty().(constants := cs)
  }

  /** Adding filter1 and filter2 and removing them in turn gives the sequences below. */
  lemma ConstantSteps()
    ensures Empty().AddFilter(Some(Filter1)) == Constants([Filter1])
    ensures Constants([Filter1]).AddFilter(Some(Filter2)) == Constants([Filter1, Filter2])
    ensures Constants([Filter1, Filter2]).Remove("filter1") == Constants([Filter2])
    ensures Constants([Filter2]).Remove("filter2") == Empty()
    ensures Empty().Accepts(Some(Filter1)) && Constants([Filter1]).Accepts(Some(Filter2))
  {
    assert [Filter1, Filter2][..1] == [Filter1];
    assert NamesIn([Filter1]) == {"filter1"};
  }

  /** Base 20: filter1 (+5) gives 25, filter2 (-10) then 15; removing filter1 gives 10, removing filter2 gives 20. */
  lemma ConstantValues()
    ensures Apply(Constants([Filter1]), 20) == 25
    ensures Apply(Constants([Filter1, Filter2]), 20) == 15
    ensures Apply(Constants([Filter2]), 20) == 10
    ensures Apply(Empty(), 20) == 20
  {
    assert [Filter1, Filter2][..1] == [Filter1];
    DefaultOrderValue(Constants([Filter1]), 20);
    DefaultOrderValue(Constants([Filter1, Filter2]), 20);
    DefaultOrderValue(Constants([Filter2]), 20);
    EmptyIsIdentity(DEFAULT_ORDER, DEFAULT_ROUNDING, 20);
  }

  /** One filter added to a filtered integer of base 20, followed by a read of its value. */
  method AddConstant(fint: IntConstFiltered, f: Filter, ghost from: Pipeline, ghost to: Pipeline) returns (value: int)
    requires fint.Valid() && fint.Snapshot() == FilteredValue(20, from)
    requires from.Accepts(Some(f)) && from.AddFilter(Some(f)) == to
    modifies fint.Repr()
    ensures fint.Valid() && fint.Snapshot() == FilteredValue(20, to) && value == Apply(to, 20)
  {
    var _ := fint.AddFilter(Some(f));
    value := fint.GetFilteredInt();
  }

  /** One filter removed by name from a filtered integer of base 20, followed by a read of its value. */
  method RemoveConstant(fint: IntConstFiltered, name: string, ghost from: Pipeline, ghost to: Pipeline) returns (value: int)
    requires fint.Valid() && fint.Snapshot() == FilteredValue(20, from) && from.Remove(name) == to
    modifies fint.Repr()
    ensures fint.Valid() && fint.Snapshot() == FilteredValue(20, to) && value == Apply(to, 20)
  {
    var _ := fint.RemoveFilter(name);
    value := fint.GetFilteredInt();
  }

  /** A filtered integer of base 20 reads 25, 15, 10 and 20 as two constant filters come and go. */
  method AddAndRemoveConstants() returns (v1: int, v2: int, v3: int, v4: int)
    ensures v1 == 25 && v2 == 15 && v3 == 10 && v4 == 20
  {
    ConstantSteps();
    ConstantValues();
    var fint := new IntConstFiltered(20);
    v1 := AddConstant(fint, Filter1, Empty(), Constants([Filter1]));
    v2 := AddConstant(fint, Filter2, Constants([Filter1]), Constants([Filter1, Filter2]));
    v3 := RemoveConstant(fint, "filter1", Constants([Filter1, Filter2]), Constants([Filter2]));
    v4 := RemoveConstant(fint, "filter2", Constants([Filter2]), Empty());
  }

  // --------------------------------------------- one scalar, three roundings

  /** A sequence holding one scalar filter, with the given rounding. */
  function OneScalar(name: string, factor: real, mode: Rounding): Pipeline {
    Empty().(scalars := [ScalarFilter(name, factor)], rounding := mode)
  }

  /** Through a single scalar filter, 1 becomes the factor rounded by the sequence's strategy. */
  lemma ScalarOfOne(name: string, factor: real, mode: Rounding)
    ensures Apply(OneScalar(name, factor, mode), 1) == Round(mode, factor)
    ensures Empty().(rounding := mode).AddFilter(Some(ScalarFilter(name, factor))) == OneScalar(name, factor, mode)
    ensures OneScalar(name, factor, mode).Remove(name) == Empty().(rounding := mode)
  {
    DefaultOrderValue(OneScalar(name, factor, mode), 1);
    assert Fold([ScalarFilter(name, factor)], 1.0) == factor;
  }

  /** The factors the rounding test tries in turn. */
  const Factors: seq<real> := [0.1, 0.4, 0.5, 0.6, 0.9]

  /** Rounding down every factor gives 0, rounding up gives 1, rounding half away from zero gives 0, 0, 1, 1, 1. */
  lemma FactorRoundings()
    ensures forall i :: 0 <= i < |Factors| ==> Round(DOWN, Factors[i]) == 0 && Round(UP, Factors[i]) == 1
    ensures forall i :: 0 <= i < |Factors| ==> Round(MIDDLE, Factors[i]) == (if i < 2 then 0 else 1)
  {
  }

  /** Adds a scalar filter to an empty sequence, runs 1 through it and removes the filter again. */
  method TryScalar(fs: FilterSequence, name: string, factor: real, ghost mode: Rounding) returns (value: int)
    requires fs.Valid() && fs.Model() == Empty().(rounding := mode)
    modifies fs
    ensures fs.Valid() && fs.Model() == Empty().(rounding := mode)
    ensures value == Round(mode, factor)
  {
    ScalarOfOne(name, factor, mode);
    var _ := fs.AddFilter(Some(ScalarFilter(name, factor)));
    value := fs.ApplyFilters(1);
    var _ := fs.RemoveFilter(name);
  }

  /** Every factor of the test in turn, under the sequence's current rounding. */
  method TryFactors(fs: FilterSequence, ghost mode: Rounding) returns (values: seq<int>)
    requires fs.Valid() && fs.Model() == Empty().(rounding := mode)
    modifies fs
    ensures fs.Valid() && fs.Model() == Empty().(rounding := mode)
    ensures |values| == |Factors| && forall i :: 0 <= i < |Factors| ==> values[i] == Round(mode, Factors[i])
  {
    var v1 := TryScalar(fs, "scalar1", 0.1, mode);
    var v4 := TryScalar(fs, "scalar4", 0.4, mode);
    var v5 := TryScalar(fs, "scalar5", 0.5, mode);
    var v6 := TryScalar(fs, "scalar6", 0.6, mode);
    var v9 := TryScalar(fs, "scalar9", 0.9, mode);
    values := [v1, v4, v5, v6, v9];
  }

  /**
   * Base 1 through a single scalar of 0.1, 0.4, 0.5, 0.6 or 0.9: rounding
   * down (the default) always gives 0, rounding up always 1, and rounding
   * half away from zero gives 1 from 0.5 on.
   */
  method RoundingOptions() returns (down: seq<int>, up: seq<int>, middle: seq<int>)
    ensures down == [0, 0, 0, 0, 0] && up == [1, 1, 1, 1, 1] && middle == [0, 0, 1, 1, 1]
  {
    FactorRoundings();
    var fs := new FilterSequence();
    down := TryFactors(fs, DOWN);
    fs.SetAfterFilterRounding(UP);
    up := TryFactors(fs, UP);
    fs.SetAfterFilterRounding(MIDDLE);
    middle := TryFactors(fs, MIDDLE);
  }
}
