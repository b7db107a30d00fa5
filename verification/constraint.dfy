/** Constraints on quantities: sets of quantities (intervals and points) and
    an immutable chain of include/exclude tests verified against a quantity
    (src/moebius/constraint.py). */
module Constraints {
  import opened Wrappers
  import opened Quantities

  /** The exceptions the constraint classes raise. `KeyError` comes from a
      quantity constructor called by a set factory. */
  datatype Failure = TypeError | ValueError | KeyError

  /** A Python class passed where a quantity class is expected: one of the
      quantity classes, or any other class. */
  datatype PyType = QuantityClass(kind: Kind) | OtherClass(name: string)

  // ---------------------------------------------------------------------------
  // NoConstraint

  /** `NoConstraint(objtype).verify(obj)`, with `obj` given by its class:
      True for an object of exactly `objtype`, `TypeError` otherwise. */
  function NoConstraintVerify(objtype: PyType, objClass: PyType): (r: Result<bool, Failure>)
    ensures r.Ok? <==> objClass == objtype
    ensures r.Ok? ==> r.value
    ensures r.Err? ==> r.error == TypeError
  {
    if objClass != objtype then Err(TypeError) else Ok(true)
  }

  // ---------------------------------------------------------------------------
  // Sets

  /** One side of an interval: closed or open. */
  datatype Side = Closed | Open

  /** The closure of an interval, left side and right side. */
  datatype Closure = Closure(low: Side, high: Side)

  /** The four closure strings `[]`, `[[`, `]]`, `][`; anything else is None. */
  function ParseClosure(s: string): (c: Option<Closure>)
    ensures c.Some? <==> s in {"[]", "[[", "]]", "]["}
    ensures c.Some? ==> (c.value.low == Closed <==> s[0] == '[')
    ensures c.Some? ==> (c.value.high == Closed <==> s[1] == ']')
  {
    if s == "[]" then Some(Closure(Closed, Closed))
    else if s == "[[" then Some(Closure(Closed, Open))
    else if s == "]]" then Some(Closure(Open, Closed))
    else if s == "][" then Some(Closure(Open, Open))
    else None
  }

  /** A set of quantities:
      - `Interval`: its class (None when both bounds are absent), the closure
        it records and its optional bounds;
      - `Point`: a quantity and an optional tolerance, stored as its absolute
        value. */
  datatype QSet =
    | Interval(kind: Option<Kind>, closure: Closure, low: Option<Qty>, high: Option<Qty>)
    | Point(q: Qty, delta: Option<Qty>)

  /** The `qtype` property of a set. */
  function SetType(s: QSet): Option<Kind> {
    match s
    case Interval(k, _, _, _) => k
    case Point(q, _) => Some(q.kind)
  }

  /** `abs(q)`: the same class and unit with the absolute value. */
  function Abs(q: Qty): (r: Qty)
    ensures r.kind == q.kind && r.unit == q.unit
    ensures r.value >= 0.0 && (r.value == q.value || r.value == -q.value)
  {
    Quantity(q.kind, if q.value < 0.0 then -q.value else q.value, q.unit)
  }

  /** The class of the interval: the high bound's when present, else the low
      bound's, else None. */
  function BoundsType(low: Option<Qty>, high: Option<Qty>): Option<Kind> {
    if high.Some? then Some(high.value.kind)
    else if low.Some? then Some(low.value.kind)
    else None
  }

  /** `QInterval(low, high, closure)`:
      - `ValueError` for a closure other than the four listed;
      - `TypeError` for two bounds of different classes;
      - an absent bound records its side as open;
      - the bounds are swapped when `low > high`. */
  function MakeInterval(low: Option<Qty>, high: Option<Qty>, closure: string): (r: Result<QSet, Failure>)
    ensures ParseClosure(closure).None? ==> r == Err(ValueError)
    ensures ParseClosure(closure).Some? && low.Some? && high.Some? && low.value.kind != high.value.kind ==>
              r == Err(TypeError)
    ensures r.Ok? <==> ParseClosure(closure).Some? &&
                       (low.Some? && high.Some? ==> low.value.kind == high.value.kind)
    ensures r.Ok? ==> r.value.Interval? && r.value.kind == BoundsType(low, high)
    ensures r.Ok? ==> (r.value.closure.low == Closed <==> low.Some? && closure[0] == '[')
    ensures r.Ok? ==> (r.value.closure.high == Closed <==> high.Some? && closure[1] == ']')
    ensures r.Ok? && low.Some? && high.Some? && Compare(low.value, high.value, Gt) == Ok(true) ==>
              r.value.low == high && r.value.high == low
    ensures r.Ok? && !(low.Some? && high.Some? && Compare(low.value, high.value, Gt) == Ok(true)) ==>
              r.value.low == low && r.value.high == high
  {
    match ParseClosure(closure)
    case None => Err(ValueError)
    case Some(c) =>
      var recorded := Closure(if low.Some? then c.low else Open, if high.Some? then c.high else Open);
      if low.Some? && high.Some? then
        if low.value.kind != high.value.kind then Err(TypeError)
        else if Compare(low.value, high.value, Gt).value then
          Ok(Interval(BoundsType(low, high), recorded, high, low))
        else Ok(Interval(BoundsType(low, high), recorded, low, high))
      else Ok(Interval(BoundsType(low, high), recorded, low, high))
  }

  /** `QPoint(quantity, delta)`:
      - `ValueError` for a missing quantity;
      - `TypeError` for a tolerance of another class;
      - the tolerance is stored as its absolute value. */
  function MakePoint(q: Option<Qty>, delta: Option<Qty>): (r: Result<QSet, Failure>)
    ensures q.None? ==> r == Err(ValueError)
    ensures q.Some? && delta.Some? && delta.value.kind != q.value.kind ==> r == Err(TypeError)
    ensures r.Ok? <==> q.Some? && (delta.Some? ==> delta.value.kind == q.value.kind)
    ensures r.Ok? ==> r.value == Point(q.value, if delta.Some? then Some(Abs(delta.value)) else None)
  {
    if q.None? then Err(ValueError)
    else if delta.Some? && delta.value.kind != q.value.kind then Err(TypeError)
    else Ok(Point(q.value, if delta.Some? then Some(Abs(delta.value)) else None))
  }

  /** The comparison a present bound applies: `>=` or `>` at the low side,
      `<=` or `<` at the high side, as the recorded closure says. */
  function LowTest(s: Side): Comparison {
    if s == Closed then Ge else Gt
  }

  function HighTest(s: Side): Comparison {
    if s == Closed then Le else Lt
  }

  /** A comparison whose `TypeError` becomes the constraint's. */
  function Check(r: Result<bool, QuantityError>): Result<bool, Failure> {
    match r
    case Ok(b) => Ok(b)
    case Err(_) => Err(TypeError)
  }

  /** `set.include(q)`.
      - Interval: True when it has no class; `TypeError` for a quantity of
        another class; otherwise each present bound must pass its comparison.
      - Point: `TypeError` for a quantity of another class; without a
        tolerance, `point == q`; with one, `abs(point - q) <= delta`. */
  function Include(s: QSet, q: Qty): (r: Result<bool, Failure>)
    ensures r.Err? ==> r.error == TypeError
    ensures s.Interval? && s.kind.None? ==> r == Ok(true)
    ensures SetType(s).Some? && SetType(s).value != q.kind ==> r == Err(TypeError)
    ensures s.Point? && s.q.kind == q.kind && s.delta.None? ==> r == Ok(Equal(s.q, q))
  {
    match s
    case Interval(k, c, low, high) =>
      if k.None? then Ok(true)
      else if q.kind != k.value then Err(TypeError)
      else
        var lowPass := if low.Some? then Check(Compare(q, low.value, LowTest(c.low))) else Ok(true);
        if lowPass != Ok(true) then lowPass
        else if high.Some? then Check(Compare(q, high.value, HighTest(c.high)))
        else Ok(true)
    case Point(p, delta) =>
      if q.kind != p.kind then Err(TypeError)
      else if delta.None? then Ok(Equal(p, q))
      else
        var d := Sub(p, q);
        if d.Err? then Err(TypeError)
        else Check(Compare(Abs(d.value), delta.value, Le))
  }

  /** `set.exclude(q)`: the negation of `include`, with the same errors. */
  function Exclude(s: QSet, q: Qty): (r: Result<bool, Failure>)
    ensures r.Err? <==> Include(s, q).Err?
    ensures r.Err? ==> r.error == Include(s, q).error
    ensures r.Ok? ==> r.value == !Include(s, q).value
  {
    match Include(s, q)
    case Ok(b) => Ok(!b)
    case Err(e) => Err(e)
  }

  // ---------------------------------------------------------------------------
  // Factories

  /** `qinterval(low, high, unit, closure)` and `qpoint(value, unit, delta)`:
      the numbers of a set, built into quantities of a constraint's class
      when the set is added to the constraint. */
  datatype Factory =
    | IntervalFactory(lowValue: Option<real>, highValue: Option<real>, unit: Option<Unit>, closure: string)
    | PointFactory(value: Option<real>, unit: Option<Unit>, deltaValue: Option<real>)

  /** `qtype(v)` or `qtype(v, unit)`: `KeyError` for a unit `qtype` rejects. */
  function Build(k: Kind, v: real, unit: Option<Unit>): (r: Result<Qty, Failure>)
    ensures r.Err? <==> unit.Some? && IsQuantity(k) && !Accepts(k, unit.value)
    ensures r.Err? ==> r.error == KeyError
    ensures r.Ok? ==> r.value.kind == k && r.value.value == v
    ensures r.Ok? && IsQuantity(k) ==> r.value.unit == (if unit.Some? then unit.value else DefaultUnit(k))
  {
    match New(k, v, if unit.Some? then unit.value else DefaultUnit(k))
    case Ok(q) => Ok(q)
    case Err(_) => Err(KeyError)
  }

  /** An optional number built into an optional quantity. */
  function BuildOption(k: Kind, v: Option<real>, unit: Option<Unit>): (r: Result<Option<Qty>, Failure>)
    ensures v.None? ==> r == Ok(None)
    ensures v.Some? ==> (r.Ok? <==> Build(k, v.value, unit).Ok?)
    ensures v.Some? && r.Ok? ==> r.value == Some(Build(k, v.value, unit).value)
    ensures r.Err? ==> r.error == KeyError
  {
    if v.None? then Ok(None)
    else
      match Build(k, v.value, unit)
      case Ok(q) => Ok(Some(q))
      case Err(e) => Err(e)
  }

  /** The factory builds at least one quantity: a point factory with a
      value, or an interval factory with a bound. */
  predicate Builds(f: Factory) {
    if f.PointFactory? then f.value.Some? else f.lowValue.Some? || f.highValue.Some?
  }

  /** The absolute value of a number. */
  function AbsValue(x: real): real {
    if x < 0.0 then -x else x
  }

  /** The unit the made quantities carry: the factory's, or the class's
      default unit. */
  function UnitOf(f: Factory, k: Kind): Unit {
    if f.unit.Some? then f.unit.value else DefaultUnit(k)
  }

  /** `factory.make(qtype)`. The point factory raises `ValueError` for a
      missing value before building anything. */
  function Make(f: Factory, k: Kind): (r: Result<QSet, Failure>)
    ensures f.PointFactory? && f.value.None? ==> r == Err(ValueError)
    ensures r.Ok? ==> SetType(r.value) == (if f.IntervalFactory? && f.lowValue.None? && f.highValue.None? then None else Some(k))
    ensures r == Err(KeyError) <==> Builds(f) && f.unit.Some? && IsQuantity(k) && !Accepts(k, f.unit.value)
  {
    match f
    case IntervalFactory(lowValue, highValue, unit, closure) =>
      (match BuildOption(k, lowValue, unit)
       case Err(e) => Err(e)
       case Ok(low) =>
         (match BuildOption(k, highValue, unit)
          case Err(e) => Err(e)
          case Ok(high) => MakeInterval(low, high, closure)))
    case PointFactory(value, unit, deltaValue) =>
      if value.None? then Err(ValueError)
      else
        match Build(k, value.value, unit)
        case Err(e) => Err(e)
        case Ok(q) =>
          (match BuildOption(k, deltaValue, unit)
           case Err(e) => Err(e)
           case Ok(d) => MakePoint(Some(q), d))
  }

  // ---------------------------------------------------------------------------
  // QConstraint

  /** Which method of a set a test calls. */
  datatype TestKind = IncludeTest | ExcludeTest

  /** `QTest(optype, set)`. */
  datatype QTest = QTest(optype: TestKind, qset: QSet)

  /** An immutable chain of tests on quantities of class `qtype`. */
  datatype Constraint = Constraint(qtype: Kind, tests: seq<QTest>)

  /** The test's set has a class that is not the constraint's. */
  predicate Clashes(qtype: Kind, t: QTest) {
    SetType(t.qset).Some? && SetType(t.qset).value != qtype
  }

  /** No test of the chain clashes with its class: what the constructor
      checks. */
  predicate Valid(c: Constraint) {
    forall i :: 0 <= i < |c.tests| ==> !Clashes(c.qtype, c.tests[i])
  }

  /** `QConstraint(qtype, tests)`: `TypeError` unless `qtype` is a quantity
      class, and `TypeError` if a test's set has another, non-None, class. */
  function NewConstraint(qtype: PyType, tests: seq<QTest>): (r: Result<Constraint, Failure>)
    ensures r.Ok? <==> qtype.QuantityClass? && forall i :: 0 <= i < |tests| ==> !Clashes(qtype.kind, tests[i])
    ensures r.Err? ==> r.error == TypeError
    ensures r.Ok? ==> r.value == Constraint(qtype.kind, tests) && Valid(r.value)
  {
    if qtype.OtherClass? then Err(TypeError)
    else if exists i :: 0 <= i < |tests| && Clashes(qtype.kind, tests[i]) then Err(TypeError)
    else Ok(Constraint(qtype.kind, tests))
  }

  /** What `include`, `exclude`, `+` and `-` accept: a set, a bare quantity
      (wrapped as a point without tolerance) or, for `+` and `-` only, a
      factory. */
  datatype Item = SetItem(s: QSet) | QuantityItem(q: Qty)

  function AsSet(item: Item): QSet {
    match item
    case SetItem(s) => s
    case QuantityItem(q) => Point(q, None)
  }

  /** `include(item)` and `exclude(item)`: a set without a class returns the
      constraint itself; otherwise a new constraint with one test appended,
      checked by the constructor. */
  function Chain(c: Constraint, optype: TestKind, item: Item): (r: Result<Constraint, Failure>)
    ensures SetType(AsSet(item)).None? ==> r == Ok(c)
    ensures SetType(AsSet(item)).Some? && SetType(AsSet(item)).value != c.qtype ==> r == Err(TypeError)
    ensures SetType(AsSet(item)) == Some(c.qtype) && Valid(c) ==>
              r == Ok(Constraint(c.qtype, c.tests + [QTest(optype, AsSet(item))]))
    ensures r.Ok? && Valid(c) ==> Valid(r.value)
  {
    var s := AsSet(item);
    if SetType(s).None? then Ok(c)
    else if SetType(s).value != c.qtype then Err(TypeError)
    else NewConstraint(QuantityClass(c.qtype), c.tests + [QTest(optype, s)])
  }

  /** `c + other` and `c - other`: a factory is made into a set of the
      constraint's class first. */
  function Plus(c: Constraint, optype: TestKind, other: Result<Item, Factory>): (r: Result<Constraint, Failure>)
    ensures other.Ok? ==> r == Chain(c, optype, other.value)
    ensures other.Err? && Make(other.error, c.qtype).Err? ==> r == Err(Make(other.error, c.qtype).error)
    ensures other.Err? && Make(other.error, c.qtype).Ok? ==> r == Chain(c, optype, SetItem(Make(other.error, c.qtype).value))
  {
    match other
    case Ok(item) => Chain(c, optype, item)
    case Err(f) =>
      match Make(f, c.qtype)
      case Ok(s) => Chain(c, optype, SetItem(s))
      case Err(e) => Err(e)
  }

  /** Runs one test against a quantity. */
  function Apply(t: QTest, q: Qty): Result<bool, Failure> {
    if t.optype == IncludeTest then Include(t.qset, q) else Exclude(t.qset, q)
  }

  /** The tests run in order: the first that raises or fails decides. */
  function RunTests(tests: seq<QTest>, q: Qty): (r: Result<bool, Failure>)
  {
    if |tests| == 0 then Ok(true)
    else
      match Apply(tests[0], q)
      case Err(e) => Err(e)
      case Ok(b) => if !b then Ok(false) else RunTests(tests[1..], q)
  }

  /** `verify(quantity)`: `TypeError` for a quantity of another class,
      otherwise the tests in order. */
  function Verify(c: Constraint, q: Qty): (r: Result<bool, Failure>)
    ensures q.kind != c.qtype ==> r == Err(TypeError)
    ensures q.kind == c.qtype && c.tests == [] ==> r == Ok(true)
  {
    if q.kind != c.qtype then Err(TypeError) else RunTests(c.tests, q)
  }

  // ---------------------------------------------------------------------------
  // Properties

  /** The tests pass exactly when every test passes. */
  lemma {:induction false} RunTestsAll(tests: seq<QTest>, q: Qty)
    ensures RunTests(tests, q) == Ok(true) <==> forall i :: 0 <= i < |tests| ==> Apply(tests[i], q) == Ok(true)
  {
    if |tests| > 0 {
      RunTestsAll(tests[1..], q);
      assert forall i :: 1 <= i < |tests| ==> tests[i] == tests[1..][i - 1];
    }
  }

  /** The tests fail (without raising) exactly when some test fails after all
      the tests before it passed. */
  lemma {:induction false} RunTestsFirstFailure(tests: seq<QTest>, q: Qty)
    ensures RunTests(tests, q) == Ok(false) <==>
              exists i :: 0 <= i < |tests| && Apply(tests[i], q) == Ok(false) && RunTests(tests[..i], q) == Ok(true)
  {
    if |tests| > 0 {
      RunTestsFirstFailure(tests[1..], q);
      if RunTests(tests, q) == Ok(false) {
        if Apply(tests[0], q) == Ok(false) {
          assert tests[..0] == [];
        } else {
          var i :| 0 <= i < |tests[1..]| && Apply(tests[1..][i], q) == Ok(false) && RunTests(tests[1..][..i], q) == Ok(true);
          assert tests[..i + 1][1..] == tests[1..][..i];
        }
      }
      if exists i :: 0 <= i < |tests| && Apply(tests[i], q) == Ok(false) && RunTests(tests[..i], q) == Ok(true) {
        var i :| 0 <= i < |tests| && Apply(tests[i], q) == Ok(false) && RunTests(tests[..i], q) == Ok(true);
        if i > 0 {
          assert tests[..i][0] == tests[0];
          assert tests[..i][1..] == tests[1..][..i - 1];
        }
      }
    }
  }

  /** Appending a test to a chain: the new chain's outcome is the old one's
      unless all old tests passed, in which case it is the new test's. */
  lemma {:induction false} RunTestsAppend(tests: seq<QTest>, t: QTest, q: Qty)
    ensures RunTests(tests + [t], q) == if RunTests(tests, q) == Ok(true) then Apply(t, q) else RunTests(tests, q)
  {
    if |tests| > 0 {
      assert (tests + [t])[1..] == tests[1..] + [t];
      RunTestsAppend(tests[1..], t, q);
    }
  }

  /** Verifying against a constraint with one more set: the new set is
      consulted only when every earlier test passed. */
  lemma ChainThenVerify(c: Constraint, optype: TestKind, item: Item, q: Qty)
    requires SetType(AsSet(item)) == Some(c.qtype) && Valid(c)
    ensures Chain(c, optype, item).Ok?
    ensures Verify(Chain(c, optype, item).value, q) ==
              if Verify(c, q) == Ok(true) then Apply(QTest(optype, AsSet(item)), q) else Verify(c, q)
  {
    RunTestsAppend(c.tests, QTest(optype, AsSet(item)), q);
  }

  /** A constraint without tests accepts every quantity of its class. */
  lemma EmptyConstraintAccepts(k: Kind, q: Qty)
    requires q.kind == k
    ensures NewConstraint(QuantityClass(k), []) == Ok(Constraint(k, []))
    ensures Verify(Constraint(k, []), q) == Ok(true)
  {
  }

  /** An interval without bounds has no class, contains everything, and a
      constraint ignores it. */
  lemma UnboundedInterval(closure: string, q: Qty, c: Constraint, optype: TestKind)
    requires ParseClosure(closure).Some?
    ensures MakeInterval(None, None, closure) == Ok(Interval(None, Closure(Open, Open), None, None))
    ensures Include(MakeInterval(None, None, closure).value, q) == Ok(true)
    ensures Chain(c, optype, SetItem(MakeInterval(None, None, closure).value)) == Ok(c)
  {
  }

  /** Membership in an interval whose bounds and tested quantity share one
      unit: each present bound is compared with `>=`/`>` or `<=`/`<` as the
      closure string says, and an absent bound imposes no limit. */
  lemma IntervalMembership(low: Option<Qty>, high: Option<Qty>, closure: string, q: Qty)
    requires ParseClosure(closure).Some?
    requires low.Some? ==> low.value.kind == q.kind && low.value.unit == q.unit
    requires high.Some? ==> high.value.kind == q.kind && high.value.unit == q.unit
    requires low.Some? && high.Some? ==> low.value.value <= high.value.value
    ensures MakeInterval(low, high, closure).Ok?
    ensures Include(MakeInterval(low, high, closure).value, q) ==
              Ok((low.Some? ==> (if closure[0] == '[' then q.value >= low.value.value else q.value > low.value.value)) &&
                 (high.Some? ==> (if closure[1] == ']' then q.value <= high.value.value else q.value < high.value.value)))
  {
    if low.Some? {
      assert To(low.value, q.unit) == Ok(low.value);
    }
    if high.Some? {
      assert To(high.value, q.unit) == Ok(high.value);
    }
    if low.Some? && high.Some? {
      assert To(high.value, low.value.unit) == Ok(high.value);
    }
  }

  /** Bounds of one unit given in decreasing order are swapped, so the
      interval always runs upwards. */
  lemma IntervalRunsUpwards(low: Qty, high: Qty, closure: string)
    requires ParseClosure(closure).Some?
    requires low.kind == high.kind && low.unit == high.unit
    ensures MakeInterval(Some(low), Some(high), closure).Ok?
    ensures MakeInterval(Some(low), Some(high), closure).value.low.value.value <=
            MakeInterval(Some(low), Some(high), closure).value.high.value.value
  {
    assert To(high, low.unit) == Ok(high);
  }

  /** A point with a tolerance, for the factor kinds and one unit, holds the
      quantities within the tolerance: `|p - q| <= |delta|`. */
  lemma PointWithinTolerance(p: Qty, delta: Qty, q: Qty)
    requires HasFactors(p.kind) && delta.kind == p.kind && q.kind == p.kind
    requires delta.unit == p.unit && q.unit == p.unit
    ensures MakePoint(Some(p), Some(delta)).Ok?
    ensures Include(MakePoint(Some(p), Some(delta)).value, q) ==
              Ok((if p.value >= q.value then p.value - q.value else q.value - p.value) <=
                 (if delta.value >= 0.0 then delta.value else -delta.value))
  {
    assert To(q, p.unit) == Ok(q);
    assert To(Abs(delta), p.unit) == Ok(Abs(delta));
  }

  /** An interval factory makes the interval of its numbers as quantities
      of the class, in its unit or the class's default unit. */
  lemma MakeBuildsInterval(f: Factory, k: Kind)
    requires f.IntervalFactory? && IsQuantity(k) && Accepts(k, UnitOf(f, k))
    ensures var u := UnitOf(f, k);
            Make(f, k) == MakeInterval(if f.lowValue.Some? then Some(Quantity(k, f.lowValue.value, u)) else None,
                                       if f.highValue.Some? then Some(Quantity(k, f.highValue.value, u)) else None,
                                       f.closure)
  {
  }

  /** A point factory makes the point of its value as a quantity of the
      class, with the absolute tolerance in the same unit. */
  lemma MakeBuildsPoint(f: Factory, k: Kind)
    requires f.PointFactory? && f.value.Some? && IsQuantity(k) && Accepts(k, UnitOf(f, k))
    ensures var u := UnitOf(f, k);
            Make(f, k) == Ok(Point(Quantity(k, f.value.value, u),
                                   if f.deltaValue.Some? then Some(Quantity(k, AbsValue(f.deltaValue.value), u)) else None))
  {
  }

  /** `qinterval(lo, hi, unit, closure).make(K)` for a factor class K holds a
      quantity in that unit exactly when its value lies between the bounds,
      each end included as the closure string says. */
  lemma MadeIntervalMembership(lo: real, hi: real, unit: Unit, closure: string, k: Kind, q: Qty)
    requires HasFactors(k) && Accepts(k, unit) && ParseClosure(closure).Some? && lo <= hi
    requires q.kind == k && q.unit == unit
    ensures Make(IntervalFactory(Some(lo), Some(hi), Some(unit), closure), k).Ok?
    ensures Include(Make(IntervalFactory(Some(lo), Some(hi), Some(unit), closure), k).value, q) ==
              Ok((if closure[0] == '[' then q.value >= lo else q.value > lo) &&
                 (if closure[1] == ']' then q.value <= hi else q.value < hi))
  {
    var f := IntervalFactory(Some(lo), Some(hi), Some(unit), closure);
    MakeBuildsInterval(f, k);
    IntervalMembership(Some(Quantity(k, lo, unit)), Some(Quantity(k, hi, unit)), closure, q);
  }

  /** `qpoint(v, unit, delta).make(K)` for a factor class K holds a quantity
      in that unit exactly when it lies within `|delta|` of `v`. */
  lemma MadePointMembership(v: real, unit: Unit, delta: real, k: Kind, q: Qty)
    requires HasFactors(k) && Accepts(k, unit) && q.kind == k && q.unit == unit
    ensures Make(PointFactory(Some(v), Some(unit), Some(delta)), k).Ok?
    ensures Include(Make(PointFactory(Some(v), Some(unit), Some(delta)), k).value, q) ==
              Ok(AbsValue(v - q.value) <= AbsValue(delta))
  {
    var f := PointFactory(Some(v), Some(unit), Some(delta));
    MakeBuildsPoint(f, k);
    PointWithinTolerance(Quantity(k, v, unit), Quantity(k, delta, unit), q);
  }

  /** As written, a temperature point with a tolerance cannot test anything:
      `point - q` is a temperature difference, which does not compare with
      the temperature tolerance. */
  lemma TemperaturePointAsWritten(p: Qty, delta: Qty, q: Qty)
    requires p.kind == Temperature && delta.kind == Temperature && q.kind == Temperature
    ensures MakePoint(Some(p), Some(delta)).Ok?
    ensures Include(MakePoint(Some(p), Some(delta)).value, q) == Err(TypeError)
  {
  }
}
