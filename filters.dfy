/**
 * IntFilterSequence: named filters kept in three category stores and applied
 * to an integer in a configurable category order, followed by one rounding
 * step.  The pure part (filters, pipelines, the order table, rounding) comes
 * first; the class FilterSequence is the mutable object, proved against it.
 */
module Filters {
  import opened Wrappers

  /** How the filtered value is turned back into an integer. */
  datatype Rounding = DOWN | UP | MIDDLE

  const DEFAULT_ROUNDING: Rounding := DOWN

  /** The category of a filter; each category has a store of its own. */
  datatype Category = Constant | Scalar | Custom

  /** The fifteen orders in which the categories can be applied. */
  datatype Order =
    | CONSTANT | SCALAR | CUSTOM
    | CONSTANT_SCALAR | SCALAR_CONSTANT
    | CONSTANT_CUSTOM | CUSTOM_CONSTANT
    | SCALAR_CUSTOM | CUSTOM_SCALAR
    | CONSTANT_SCALAR_CUSTOM | SCALAR_CONSTANT_CUSTOM | CONSTANT_CUSTOM_SCALAR
    | SCALAR_CUSTOM_CONSTANT | CUSTOM_CONSTANT_SCALAR | CUSTOM_SCALAR_CONSTANT

  const DEFAULT_ORDER: Order := CONSTANT_SCALAR_CUSTOM

  /** No category is listed twice. */
  predicate Distinct(cs: seq<Category>) {
    forall i, j :: 0 <= i < j < |cs| ==> cs[i] != cs[j]
  }

  /** The application-order table: the categories an order visits, in sequence. */
  function Categories(o: Order): (cs: seq<Category>)
    ensures 1 <= |cs| <= 3 && Distinct(cs)
  {
    match o
    case CONSTANT => [Constant]
    case SCALAR => [Scalar]
    case CUSTOM => [Custom]
    case CONSTANT_SCALAR => [Constant, Scalar]
    case SCALAR_CONSTANT => [Scalar, Constant]
    case CONSTANT_CUSTOM => [Constant, Custom]
    case CUSTOM_CONSTANT => [Custom, Constant]
    case SCALAR_CUSTOM => [Scalar, Custom]
    case CUSTOM_SCALAR => [Custom, Scalar]
    case CONSTANT_SCALAR_CUSTOM => [Constant, Scalar, Custom]
    case SCALAR_CONSTANT_CUSTOM => [Scalar, Constant, Custom]
    case CONSTANT_CUSTOM_SCALAR => [Constant, Custom, Scalar]
    case SCALAR_CUSTOM_CONSTANT => [Scalar, Custom, Constant]
    case CUSTOM_CONSTANT_SCALAR => [Custom, Constant, Scalar]
    case CUSTOM_SCALAR_CONSTANT => [Custom, Scalar, Constant]
  }

  /** Reading the table backwards: the order, if any, that visits exactly `cs`. */
  function OrderFor(cs: seq<Category>): Option<Order> {
    if |cs| == 1 then
      Some(match cs[0] case Constant => CONSTANT case Scalar => SCALAR case Custom => CUSTOM)
    else if |cs| == 2 then
      match (cs[0], cs[1])
      case (Constant, Scalar) => Some(CONSTANT_SCALAR)
      case (Scalar, Constant) => Some(SCALAR_CONSTANT)
      case (Constant, Custom) => Some(CONSTANT_CUSTOM)
      case (Custom, Constant) => Some(CUSTOM_CONSTANT)
      case (Scalar, Custom) => Some(SCALAR_CUSTOM)
      case (Custom, Scalar) => Some(CUSTOM_SCALAR)
      case _ => None
    else if |cs| == 3 then
      match (cs[0], cs[1], cs[2])
      case (Constant, Scalar, Custom) => Some(CONSTANT_SCALAR_CUSTOM)
      case (Scalar, Constant, Custom) => Some(SCALAR_CONSTANT_CUSTOM)
      case (Constant, Custom, Scalar) => Some(CONSTANT_CUSTOM_SCALAR)
      case (Scalar, Custom, Constant) => Some(SCALAR_CUSTOM_CONSTANT)
      case (Custom, Constant, Scalar) => Some(CUSTOM_CONSTANT_SCALAR)
      case (Custom, Scalar, Constant) => Some(CUSTOM_SCALAR_CONSTANT)
      case _ => None
    else None
  }

  /** Every order is found again from its categories: the table has no duplicate rows. */
  lemma OrderTableIsInjective(o: Order)
    ensures OrderFor(Categories(o)) == Some(o)
  {
    match o
    case CONSTANT =>
    case SCALAR =>
    case CUSTOM =>
    case CONSTANT_SCALAR =>
    case SCALAR_CONSTANT =>
    case CONSTANT_CUSTOM =>
    case CUSTOM_CONSTANT =>
    case SCALAR_CUSTOM =>
    case CUSTOM_SCALAR =>
    case CONSTANT_SCALAR_CUSTOM =>
    case SCALAR_CONSTANT_CUSTOM =>
    case CONSTANT_CUSTOM_SCALAR =>
    case SCALAR_CUSTOM_CONSTANT =>
    case CUSTOM_CONSTANT_SCALAR =>
    case CUSTOM_SCALAR_CONSTANT =>
  }

  /** Every non-empty arrangement of distinct categories is some order of the table. */
  lemma EveryArrangementIsAnOrder(cs: seq<Category>)
    requires 1 <= |cs| <= 3 && Distinct(cs)
    ensures OrderFor(cs).Some? && Categories(OrderFor(cs).value) == cs
  {
    if |cs| == 2 {
      assert cs[0] != cs[1];
      assert cs == [cs[0], cs[1]];
    } else if |cs| == 3 {
      assert cs[0] != cs[1] && cs[0] != cs[2] && cs[1] != cs[2];
      assert cs == [cs[0], cs[1], cs[2]];
    } else {
      assert cs == [cs[0]];
    }
  }

  // ---------------------------------------------------------------- filters

  /**
   * A named filter.  A constant filter adds its integer amount, a scalar
   * filter multiplies by its factor, a custom filter applies its function
   * (a custom filter built without a function behaves as the identity, which
   * is `CustomFilter(name, x => x)` here).
   */
  datatype Filter =
    | ConstantFilter(name: string, amount: int)
    | ScalarFilter(name: string, factor: real)
    | CustomFilter(name: string, fn: real -> real)
  {
    /** The category store the filter goes to. */
    function GetType(): Category {
      match this
      case ConstantFilter(_, _) => Constant
      case ScalarFilter(_, _) => Scalar
      case CustomFilter(_, _) => Custom
    }

    /** The stored value; a custom filter never sets it, so it keeps the default 0. */
    function GetValue(): real {
      match this
      case ConstantFilter(_, a) => a as real
      case ScalarFilter(_, f) => f
      case CustomFilter(_, _) => 0.0
    }

    function DoFilter(x: real): real {
      match this
      case ConstantFilter(_, a) => x + a as real
      case ScalarFilter(_, f) => x * f
      case CustomFilter(_, g) => g(x)
    }
  }

  /** The names of the filters in `fs`. */
  ghost function NamesIn(fs: seq<Filter>): set<string>
    decreases |fs|
  {
    if fs == [] then {} else NamesIn(fs[..|fs| - 1]) + {fs[|fs| - 1].name}
  }

  /** No two filters of `fs` share a name (a store is a dictionary keyed by name). */
  ghost predicate UniqueNames(fs: seq<Filter>)
    decreases |fs|
  {
    fs == [] || (UniqueNames(fs[..|fs| - 1]) && fs[|fs| - 1].name !in NamesIn(fs[..|fs| - 1]))
  }

  /** Every filter of `fs` belongs to category `c`. */
  ghost predicate OfCategory(fs: seq<Filter>, c: Category)
    decreases |fs|
  {
    fs == [] || (OfCategory(fs[..|fs| - 1], c) && fs[|fs| - 1].GetType() == c)
  }

  lemma AppendOne(fs: seq<Filter>, f: Filter)
    ensures NamesIn(fs + [f]) == NamesIn(fs) + {f.name}
    ensures UniqueNames(fs + [f]) <==> UniqueNames(fs) && f.name !in NamesIn(fs)
    ensures forall c :: OfCategory(fs + [f], c) <==> OfCategory(fs, c) && f.GetType() == c
  {
    assert (fs + [f])[..|fs|] == fs;
  }

  /** `fs` with the filter named `n` taken out, the rest kept in sequence. */
  function Without(fs: seq<Filter>, n: string): (r: seq<Filter>)
    ensures NamesIn(r) == NamesIn(fs) - {n}
    ensures UniqueNames(fs) ==> UniqueNames(r)
    ensures forall c :: OfCategory(fs, c) ==> OfCategory(r, c)
    ensures n !in NamesIn(fs) ==> r == fs
    decreases |fs|
  {
    if fs == [] then []
    else
      var init, last := fs[..|fs| - 1], fs[|fs| - 1];
      assert fs == init + [last];
      var rest := Without(init, n);
      AppendOne(rest, last);
      if last.name == n then rest else rest + [last]
  }

  // -------------------------------------------------------------- pipelines

  /** The three category stores, in insertion order, with the order and rounding settings. */
  datatype Pipeline = Pipeline(
    constants: seq<Filter>, scalars: seq<Filter>, customs: seq<Filter>,
    order: Order, rounding: Rounding)
  {
    function Stored(c: Category): seq<Filter> {
      match c
      case Constant => constants
      case Scalar => scalars
      case Custom => customs
    }

    ghost function Names(): set<string> {
      NamesIn(constants) + NamesIn(scalars) + NamesIn(customs)
    }

    /** Each store holds its own category only, and every name is registered once. */
    ghost predicate Valid() {
      && OfCategory(constants, Constant) && OfCategory(scalars, Scalar) && OfCategory(customs, Custom)
      && UniqueNames(constants) && UniqueNames(scalars) && UniqueNames(customs)
      && NamesIn(constants) !! NamesIn(scalars)
      && NamesIn(constants) !! NamesIn(customs)
      && NamesIn(scalars) !! NamesIn(customs)
    }

    /** A filter is accepted when it is present and its name is not registered yet. */
    ghost predicate Accepts(f: Option<Filter>) {
      f.Some? && f.value.name !in Names()
    }

    /** Appends `f` to the store of its category. */
    ghost function Add(f: Filter): Pipeline {
      match f.GetType()
      case Constant => this.(constants := constants + [f])
      case Scalar => this.(scalars := scalars + [f])
      case Custom => this.(customs := customs + [f])
    }

    /** The effect of AddFilter: a refused filter leaves everything as it was. */
    ghost function AddFilter(f: Option<Filter>): Pipeline {
      if Accepts(f) then Add(f.value) else this
    }

    /** Takes the filter named `n` out of whichever store holds it. */
    ghost function Remove(n: string): Pipeline {
      this.(constants := Without(constants, n), scalars := Without(scalars, n),
            customs := Without(customs, n))
    }
  }

  /** Adding registers exactly the new name, and keeps the pipeline valid when that name was free. */
  lemma AddKeepsValid(p: Pipeline, f: Filter)
    ensures p.Add(f).Names() == p.Names() + {f.name}
    ensures p.Valid() && f.name !in p.Names() ==> p.Add(f).Valid()
  {
    AppendOne(p.Stored(f.GetType()), f);
  }

  /** Removing unregisters exactly the given name and keeps the pipeline valid. */
  lemma RemoveKeepsValid(p: Pipeline, n: string)
    ensures p.Remove(n).Names() == p.Names() - {n}
    ensures p.Valid() ==> p.Remove(n).Valid()
  {
  }

  /** Removing a name that is not registered changes nothing. */
  lemma RemoveAbsent(p: Pipeline, n: string)
    requires n !in p.Names()
    ensures p.Remove(n) == p
  {
  }

  /** A new sequence: three empty stores, the default order and rounding. */
  function Empty(): Pipeline {
    Pipeline([], [], [], DEFAULT_ORDER, DEFAULT_ROUNDING)
  }

  /** Taking out the name of a filter just appended to a store that lacked it gives the store back. */
  lemma WithoutAppended(fs: seq<Filter>, f: Filter)
    requires f.name !in NamesIn(fs)
    ensures Without(fs + [f], f.name) == fs
  {
    assert (fs + [f])[..|fs|] == fs;
  }

  /** Adding an accepted filter and then removing it by name restores the pipeline. */
  lemma AddThenRemove(p: Pipeline, f: Filter)
    requires p.Valid() && p.Accepts(Some(f))
    ensures p.AddFilter(Some(f)).Remove(f.name) == p
  {
    var q := p.Add(f);
    var n := f.name;
    assert n !in NamesIn(p.constants) && n !in NamesIn(p.scalars) && n !in NamesIn(p.customs);
    match f.GetType()
    case Constant =>
      WithoutAppended(p.constants, f);
      assert q.Remove(n) == p.(constants := Without(p.constants + [f], n));
    case Scalar =>
      WithoutAppended(p.scalars, f);
      assert q.Remove(n) == p.(scalars := Without(p.scalars + [f], n));
    case Custom =>
      WithoutAppended(p.customs, f);
      assert q.Remove(n) == p.(customs := Without(p.customs + [f], n));
  }

  // ------------------------------------------------------------ application

  /** Runs the filters of `fs` over `x`, the first stored filter first. */
  function Fold(fs: seq<Filter>, x: real): real
    decreases |fs|
  {
    if fs == [] then x else fs[|fs| - 1].DoFilter(Fold(fs[..|fs| - 1], x))
  }

  /**
   * One category step.  Scalar filters are folded into a running total that
   * starts at 1, and the value is multiplied by that total once.
   */
  function ApplyCategory(p: Pipeline, c: Category, x: real): real {
    match c
    case Constant => Fold(p.constants, x)
    case Scalar => Scale(Fold(p.scalars, 1.0), x)
    case Custom => Fold(p.customs, x)
  }

  /** The value multiplied by the scalar total (kept as a function so that
   *  proofs can rewrite its arguments without arithmetic). */
  function Scale(total: real, x: real): real {
    total * x
  }

  /** The category steps of `cs`, applied in sequence. */
  function RunCategories(p: Pipeline, cs: seq<Category>, x: real): real
    decreases |cs|
  {
    if cs == [] then x else ApplyCategory(p, cs[|cs| - 1], RunCategories(p, cs[..|cs| - 1], x))
  }

  /** Math.Floor. */
  function RoundDown(r: real): (n: int)
    ensures n as real <= r < n as real + 1.0
  {
    r.Floor
  }

  /** Math.Ceiling. */
  function RoundUp(r: real): (n: int)
    ensures n as real - 1.0 < r <= n as real
  {
    -((-r).Floor)
  }

  /** Math.Round with MidpointRounding.AwayFromZero: the nearest integer, halves away from 0. */
  function RoundHalfAwayFromZero(r: real): (n: int)
    ensures r >= 0.0 ==> r - 0.5 < n as real <= r + 0.5
    ensures r < 0.0 ==> r - 0.5 <= n as real < r + 0.5
  {
    if r >= 0.0 then (r + 0.5).Floor else -((0.5 - r).Floor)
  }

  function Round(mode: Rounding, r: real): int {
    match mode
    case DOWN => RoundDown(r)
    case UP => RoundUp(r)
    case MIDDLE => RoundHalfAwayFromZero(r)
  }

  /** The filtered value of `x`: the listed categories in sequence, then rounding. */
  function Apply(p: Pipeline, x: int): int {
    Round(p.rounding, RunCategories(p, Categories(p.order), x as real))
  }

  // ---------------------------------------------------------- properties

  /** Running `a` and then `b` is running `a + b`: categories compose in listed sequence. */
  lemma {:induction false} RunCategoriesAppend(p: Pipeline, a: seq<Category>, b: seq<Category>, x: real)
    ensures RunCategories(p, a + b, x) == RunCategories(p, b, RunCategories(p, a, x))
    decreases |b|
  {
    if b != [] {
      assert (a + b)[..|a + b| - 1] == a + b[..|b| - 1];
      RunCategoriesAppend(p, a, b[..|b| - 1], x);
    } else {
      assert a + b == a;
    }
  }

  /** Rounding leaves an integer as it is, whatever the mode. */
  lemma RoundIntegers(mode: Rounding, n: int)
    ensures Round(mode, n as real) == n
  {
  }

  lemma {:induction false} RunEmptyStores(p: Pipeline, cs: seq<Category>, x: real)
    requires p.constants == [] && p.scalars == [] && p.customs == []
    ensures RunCategories(p, cs, x) == x
    decreases |cs|
  {
    if cs != [] {
      RunEmptyStores(p, cs[..|cs| - 1], x);
    }
  }

  /** With no filters stored the filtered value is the base value, in every order and rounding. */
  lemma EmptyIsIdentity(o: Order, mode: Rounding, x: int)
    ensures Apply(Empty().(order := o, rounding := mode), x) == x
  {
    var p := Empty().(order := o, rounding := mode);
    RunEmptyStores(p, Categories(o), x as real);
    RoundIntegers(mode, x);
  }

  lemma {:induction false} RunAgrees(p: Pipeline, q: Pipeline, cs: seq<Category>, x: real)
    requires forall c :: c in cs ==> p.Stored(c) == q.Stored(c)
    ensures RunCategories(p, cs, x) == RunCategories(q, cs, x)
    decreases |cs|
  {
    if cs != [] {
      var c := cs[|cs| - 1];
      assert c in cs;
      assert forall d :: d in cs[..|cs| - 1] ==> d in cs;
      RunAgrees(p, q, cs[..|cs| - 1], x);
      match c
      case Constant => assert p.constants == q.constants;
      case Scalar => assert p.scalars == q.scalars;
      case Custom => assert p.customs == q.customs;
    }
  }

  /** A category the order does not list has no effect on the result. */
  lemma UnlistedCategoriesIgnored(p: Pipeline, q: Pipeline, x: int)
    requires p.order == q.order && p.rounding == q.rounding
    requires forall c :: c in Categories(p.order) ==> p.Stored(c) == q.Stored(c)
    ensures Apply(p, x) == Apply(q, x)
  {
    RunAgrees(p, q, Categories(p.order), x as real);
  }

  /** The sum of the amounts of constant filters. */
  function AmountSum(fs: seq<Filter>): int
    decreases |fs|
  {
    if fs == [] then 0
    else AmountSum(fs[..|fs| - 1]) + (if fs[|fs| - 1].ConstantFilter? then fs[|fs| - 1].amount else 0)
  }

  /** Constant filters add up: the store adds the sum of its amounts, whatever their order. */
  lemma {:induction false} ConstantsAddTheirSum(fs: seq<Filter>, x: real)
    requires OfCategory(fs, Constant)
    ensures Fold(fs, x) == x + AmountSum(fs) as real
    decreases |fs|
  {
    if fs != [] {
      ConstantsAddTheirSum(fs[..|fs| - 1], x);
    }
  }

  /**
   * Folding the scalars into one total and multiplying once equals applying
   * them one at a time (in exact arithmetic).
   */
  lemma {:induction false} ScalarsMultiplyOnce(fs: seq<Filter>, x: real)
    requires OfCategory(fs, Scalar)
    ensures Fold(fs, 1.0) * x == Fold(fs, x)
    decreases |fs|
  {
    if fs != [] {
      var init, f := fs[..|fs| - 1], fs[|fs| - 1].factor;
      ScalarsMultiplyOnce(init, x);
      calc {
        Fold(fs, 1.0) * x;
        (Fold(init, 1.0) * f) * x;
        (Fold(init, 1.0) * x) * f;
        Fold(init, x) * f;
        Fold(fs, x);
      }
    }
  }

  lemma FoldStep(fs: seq<Filter>, j: nat, x: real)
    requires j < |fs|
    ensures Fold(fs[..j + 1], x) == fs[j].DoFilter(Fold(fs[..j], x))
  {
    assert fs[..j + 1][..j] == fs[..j];
  }

  lemma RunStep(p: Pipeline, cs: seq<Category>, i: nat, x: real)
    requires i < |cs|
    ensures RunCategories(p, cs[..i + 1], x) == ApplyCategory(p, cs[i], RunCategories(p, cs[..i], x))
  {
    assert cs[..i + 1][..i] == cs[..i];
  }

  lemma DistinctPrefix(cs: seq<Category>, i: nat)
    requires Distinct(cs) && i < |cs|
    ensures cs[i] !in cs[..i]
    ensures forall c :: c in cs[..i + 1] <==> c in cs[..i] || c == cs[i]
  {
    assert cs[..i + 1] == cs[..i] + [cs[i]];
  }

  /** The category whose store holds `n` (meaningful for a registered name). */
  ghost function CategoryOf(p: Pipeline, n: string): Category {
    if n in NamesIn(p.constants) then Constant
    else if n in NamesIn(p.scalars) then Scalar
    else Custom
  }

  /** The registry a pipeline implies: every stored name with the category of its store. */
  ghost function Registry(p: Pipeline): map<string, Category> {
    map n | n in p.Names() :: CategoryOf(p, n)
  }

  lemma AddStored(p: Pipeline, f: Filter, d: Category)
    ensures p.Add(f).Stored(d) == if d == f.GetType() then p.Stored(d) + [f] else p.Stored(d)
  {
  }

  lemma RemoveStored(p: Pipeline, n: string, d: Category)
    ensures p.Remove(n).Stored(d) == Without(p.Stored(d), n)
  {
  }

  /** After an addition, the stores hold the names they held, plus the new name in its own category. */
  lemma NamesAfterAdd(p: Pipeline, f: Filter)
    ensures NamesIn(p.Add(f).constants) == NamesIn(p.constants) + (if f.GetType() == Constant then {f.name} else {})
    ensures NamesIn(p.Add(f).scalars) == NamesIn(p.scalars) + (if f.GetType() == Scalar then {f.name} else {})
    ensures NamesIn(p.Add(f).customs) == NamesIn(p.customs) + (if f.GetType() == Custom then {f.name} else {})
  {
    AppendOne(p.Stored(f.GetType()), f);
  }

  /** After registering a new filter, its name lies in its own category and every other name where it lay. */
  lemma CategoryAfterAdd(p: Pipeline, f: Filter, n: string)
    requires f.name !in p.Names()
    ensures CategoryOf(p.Add(f), n) == if n == f.name then f.GetType() else CategoryOf(p, n)
  {
    NamesAfterAdd(p, f);
  }

  /** Registering a new filter adds exactly its name, located in its own category. */
  lemma RegistryAdd(p: Pipeline, f: Filter)
    requires f.name !in p.Names()
    ensures Registry(p.Add(f)) == Registry(p)[f.name := f.GetType()]
  {
    var q := p.Add(f);
    AddKeepsValid(p, f);
    var r, s := Registry(q), Registry(p)[f.name := f.GetType()];
    assert r.Keys == s.Keys;
    forall n | n in r ensures r[n] == s[n] {
      CategoryAfterAdd(p, f, n);
    }
  }

  /** Unregistering removes exactly the given name; every other name keeps its category. */
  lemma RegistryRemove(p: Pipeline, n: string)
    ensures Registry(p.Remove(n)) == Registry(p) - {n}
  {
    var q := p.Remove(n);
    RemoveKeepsValid(p, n);
    forall d: Category ensures NamesIn(q.Stored(d)) == NamesIn(p.Stored(d)) - {n} {
      RemoveStored(p, n, d);
    }
    assert NamesIn(q.constants) == NamesIn(q.Stored(Constant));
    assert NamesIn(q.scalars) == NamesIn(q.Stored(Scalar));
    forall m | m in q.Names() ensures CategoryOf(q, m) == CategoryOf(p, m) {
    }
  }

  /** A registered name sits in the store its registry entry names, and in no other store. */
  lemma LocatedIn(p: Pipeline, n: string)
    requires p.Valid() && n in p.Names()
    ensures forall d :: n in NamesIn(p.Stored(d)) <==> d == CategoryOf(p, n)
  {
  }

  /** Removing a registered name changes the store that holds it and no other. */
  lemma RemoveAt(p: Pipeline, n: string)
    requires p.Valid() && n in p.Names()
    ensures forall d :: p.Remove(n).Stored(d) == if d == CategoryOf(p, n) then Without(p.Stored(d), n) else p.Stored(d)
  {
    LocatedIn(p, n);
    forall d ensures p.Remove(n).Stored(d) == if d == CategoryOf(p, n) then Without(p.Stored(d), n) else p.Stored(d) {
      RemoveStored(p, n, d);
    }
  }

  /** The pipeline with the filter named `n` taken out of the store of category `c` only. */
  function RemovedFrom(p: Pipeline, c: Category, n: string): Pipeline {
    match c
    case Constant => p.(constants := Without(p.constants, n))
    case Scalar => p.(scalars := Without(p.scalars, n))
    case Custom => p.(customs := Without(p.customs, n))
  }

  /** Removing a registered name is an update of the one store that holds it. */
  lemma RemoveFromItsStore(p: Pipeline, n: string)
    requires p.Valid() && n in p.Names()
    ensures p.Remove(n) == RemovedFrom(p, CategoryOf(p, n), n)
  {
    RemoveAt(p, n);
    var q := p.Remove(n);
    assert q.Stored(Constant) == q.constants && q.Stored(Scalar) == q.scalars && q.Stored(Custom) == q.customs;
  }

  /** A pipeline together with the registry that locates each of its names. */
  ghost predicate Registered(p: Pipeline, location: map<string, Category>) {
    p.Valid() && location == Registry(p)
  }

  /** Adding an accepted filter keeps the pipeline registered, its name entered under its category. */
  lemma RegisteredAdd(p: Pipeline, f: Filter)
    requires p.Valid() && p.Accepts(Some(f))
    ensures Registered(p.Add(f), Registry(p)[f.name := f.GetType()])
  {
    RegistryAdd(p, f);
    AddKeepsValid(p, f);
  }

  /** Removing a name keeps the pipeline registered, the name struck from the registry. */
  lemma RegisteredRemove(p: Pipeline, n: string)
    requires p.Valid()
    ensures Registered(p.Remove(n), Registry(p) - {n})
  {
    RegistryRemove(p, n);
    RemoveKeepsValid(p, n);
  }

  /** Removing a registered name from the store its registry entry names keeps the pipeline registered. */
  lemma RegisteredRemoveFrom(p: Pipeline, location: map<string, Category>, n: string)
    requires Registered(p, location) && n in location
    ensures RemovedFrom(p, location[n], n) == p.Remove(n)
    ensures Registered(p.Remove(n), location - {n})
  {
    RegisteredRemove(p, n);
    RemoveFromItsStore(p, n);
  }

  // ------------------------------------------------------------ the object

  /**
   * The mutable filter sequence: three stores, the registry of names to
   * categories, and the order and rounding settings.
   */
  class FilterSequence {
    var constants: seq<Filter>
    var scalars: seq<Filter>
    var customs: seq<Filter>
    var filterLocation: map<string, Category>
    var order: Order
    var rounding: Rounding

    function Model(): Pipeline
      reads this
    {
      Pipeline(constants, scalars, customs, order, rounding)
    }

    /** The stores are well formed and the registry locates exactly the stored names. */
    ghost predicate Valid()
      reads this
    {
      Registered(Model(), filterLocation)
    }

    constructor()
      ensures Valid() && Model() == Empty()
    {
      constants, scalars, customs := [], [], [];
      filterLocation := map[];
      order, rounding := DEFAULT_ORDER, DEFAULT_ROUNDING;
    }

    method SetFilterOrder(newOrder: Order)
      requires Valid()
      modifies this
      ensures Valid() && Model() == old(Model()).(order := newOrder)
    {
      order := newOrder;
    }

    method GetFilterOrder() returns (o: Order)
      requires Valid()
      ensures o == Model().order
    {
      o := order;
    }

    method SetAfterFilterRounding(newRounding: Rounding)
      requires Valid()
      modifies this
      ensures Valid() && Model() == old(Model()).(rounding := newRounding)
    {
      rounding := newRounding;
    }

    method GetAfterFilterRounding() returns (r: Rounding)
      requires Valid()
      ensures r == Model().rounding
    {
      r := rounding;
    }

    /** Runs every stored filter over `x`, category by category, then rounds. */
    method ApplyFilters(x: int) returns (filtered: int)
      requires Valid()
      ensures filtered == Apply(Model(), x)
    {
      ghost var p := Model();
      var value: real := x as real;
      var filterOrder := Categories(order);
      var scalarTotal: real := 1.0;
      var i := 0;
      while i < |filterOrder|
        invariant 0 <= i <= |filterOrder|
        invariant value == RunCategories(p, filterOrder[..i], x as real)
        invariant scalarTotal == if Scalar in filterOrder[..i] then Fold(p.scalars, 1.0) else 1.0
      {
        var index := filterOrder[i];
        DistinctPrefix(filterOrder, i);
        RunStep(p, filterOrder, i, x as real);
        var fs := Model().Stored(index);
        ghost var start, startTotal := value, scalarTotal;
        var j := 0;
        while j < |fs|
          invariant 0 <= j <= |fs|
          invariant index == Scalar ==> scalarTotal == Fold(fs[..j], startTotal) && value == start
          invariant index != Scalar ==> value == Fold(fs[..j], start) && scalarTotal == startTotal
        {
          if index == Scalar {
            FoldStep(fs, j, startTotal);
            scalarTotal := fs[j].DoFilter(scalarTotal);
          } else {
            FoldStep(fs, j, start);
            value := fs[j].DoFilter(value);
          }
          j := j + 1;
        }
        assert fs[..j] == fs;
        assert fs == p.Stored(index);
        if index == Scalar {
          assert scalarTotal == Fold(p.scalars, 1.0) && value == start;
          value := Scale(scalarTotal, value);
          assert value == Scale(Fold(p.scalars, 1.0), start);
        } else {
          assert value == ApplyCategory(p, index, start);
        }
        i := i + 1;
      }
      assert filterOrder[..i] == filterOrder;
      filtered := 0;
      if rounding == DOWN {
        filtered := RoundDown(value);
      } else if rounding == UP {
        filtered := RoundUp(value);
      } else if rounding == MIDDLE {
        filtered := RoundHalfAwayFromZero(value);
      }
    }

    method HasFilter(name: string) returns (b: bool)
      requires Valid()
      ensures b <==> name in Model().Names()
    {
      b := name in filterLocation;
    }

    /** Refuses a missing filter or a name already registered; otherwise stores and registers it. */
    method AddFilter(filter: Option<Filter>) returns (ok: bool)
      requires Valid()
      modifies this
      ensures Valid()
      ensures ok <==> old(Model()).Accepts(filter)
      ensures Model() == old(Model()).AddFilter(filter)
    {
      if filter.None? {
        return false;
      }
      var f := filter.value;
      var has := HasFilter(f.name);
      if has {
        return false;
      }
      ghost var before := Model();
      match f.GetType() {
        case Constant => constants := constants + [f];
        case Scalar => scalars := scalars + [f];
        case Custom => customs := customs + [f];
      }
      filterLocation := filterLocation[f.name := f.GetType()];
      assert Model() == before.Add(f);
      RegisteredAdd(before, f);
      ok := true;
    }

    /** Refuses an unregistered name; otherwise takes the filter out of its store and the registry. */
    method RemoveFilter(name: string) returns (ok: bool)
      requires Valid()
      modifies this
      ensures Valid()
      ensures ok <==> name in old(Model()).Names()
      ensures Model() == old(Model()).Remove(name)
    {
      var has := HasFilter(name);
      if !has {
        return false;
      }
      // The registry holds every registered name, so this lookup cannot fail.
      var location := filterLocation[name];
      ghost var before, registry := Model(), filterLocation;
      match location {
        case Constant => constants := Without(constants, name);
        case Scalar => scalars := Without(scalars, name);
        case Custom => customs := Without(customs, name);
      }
      filterLocation := filterLocation - {name};
      assert Model() == RemovedFrom(before, location, name);
      RegisteredRemoveFrom(before, registry, name);
      ok := true;
    }
  }
}
