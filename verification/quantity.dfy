/** Physical quantities: a value tagged with a kind and a unit, the unit
    conversions of each kind, and the kind tables of the arithmetic
    (src/moebius/quantity.py). Values are exact reals, so conversions are
    exact where the original works on floats. */
module Quantities {
  import opened Wrappers

  /** The quantity classes: `Scalar`, `Undefined` and the concrete subclasses
      of `Quantity`. */
  datatype Kind = Scalar | Undefined | Frequency | Length | Time | Speed | Temperature | DTemperature

  /** The kinds that subclass `Quantity` (everything but `Scalar` and `Undefined`). */
  predicate IsQuantity(k: Kind) {
    !k.Scalar? && !k.Undefined?
  }

  /** The kinds whose `to` converts by a table of factors. */
  predicate HasFactors(k: Kind) {
    k.Frequency? || k.Length? || k.Time? || k.Speed?
  }

  /** The unit symbols of the module; any other text is `Unlisted`. */
  datatype Unit =
    | Hz | KHz | MHz | GHz
    | Metre | Millimetre | Micrometre | Nanometre | Picometre
    | Second | Millisecond | Microsecond | Nanosecond
    | MetrePerSecond | MillimetrePerSecond | KilometrePerHour
    | Celsius | Kelvin
    | ScalarUnit | UndefinedUnit
    | Unlisted(text: string)

  /** The text of a unit, as the quantities print it. */
  function Symbol(u: Unit): string {
    match u
    case Hz => "Hz"
    case KHz => "kHz"
    case MHz => "MHz"
    case GHz => "GHz"
    case Metre => "m"
    case Millimetre => "mm"
    case Micrometre => "µm"
    case Nanometre => "nm"
    case Picometre => "pm"
    case Second => "s"
    case Millisecond => "ms"
    case Microsecond => "µs"
    case Nanosecond => "ns"
    case MetrePerSecond => "m/s"
    case MillimetrePerSecond => "mm/s"
    case KilometrePerHour => "km/h"
    case Celsius => "°C"
    case Kelvin => "°K"
    case ScalarUnit => "@"
    case UndefinedUnit => "?"
    case Unlisted(t) => t
  }

  /** The units each kind accepts. `Scalar` and `Undefined` carry the fixed
      units `@` and `?`. */
  function Units(k: Kind): (us: seq<Unit>)
    ensures |us| >= 1
  {
    match k
    case Scalar => [ScalarUnit]
    case Undefined => [UndefinedUnit]
    case Frequency => [Hz, KHz, MHz, GHz]
    case Length => [Metre, Millimetre, Micrometre, Nanometre, Picometre]
    case Time => [Second, Millisecond, Microsecond, Nanosecond]
    case Speed => [MetrePerSecond, MillimetrePerSecond, KilometrePerHour]
    case Temperature => [Celsius, Kelvin]
    case DTemperature => [Celsius, Kelvin]
  }

  /** `u` is one of the units of kind `k`. */
  predicate Accepts(k: Kind, u: Unit) {
    match u
    case Hz | KHz | MHz | GHz => k == Frequency
    case Metre | Millimetre | Micrometre | Nanometre | Picometre => k == Length
    case Second | Millisecond | Microsecond | Nanosecond => k == Time
    case MetrePerSecond | MillimetrePerSecond | KilometrePerHour => k == Speed
    case Celsius | Kelvin => k == Temperature || k == DTemperature
    case ScalarUnit => k == Scalar
    case UndefinedUnit => k == Undefined
    case Unlisted(_) => false
  }

  /** The unit list of a kind holds exactly the units it accepts. */
  lemma UnitsListed(k: Kind, u: Unit)
    ensures u in Units(k) <==> Accepts(k, u)
  {
  }

  /** The unit a kind's constructor uses when none is given. */
  function DefaultUnit(k: Kind): (u: Unit)
    ensures Accepts(k, u)
  {
    Units(k)[0]
  }

  /** The factor of a unit in the table of its kind: the size of the unit
      relative to the kind's first unit. The Speed table is kept as written.
      Units outside the factor kinds never reach it. */
  function Factor(u: Unit): (f: real)
    ensures f > 0.0
  {
    match u
    case KHz => 1000.0
    case MHz => 1000000.0
    case GHz => 1000000000.0
    case Millimetre => 0.001
    case Micrometre => 0.000001
    case Nanometre => 0.000000001
    case Picometre => 0.000000000001
    case Millisecond => 0.001
    case Microsecond => 0.000001
    case Nanosecond => 0.000000001
    case MillimetrePerSecond => 1000.0
    case KilometrePerHour => 3.6
    case _ => 1.0
  }

  /** A quantity instance. */
  datatype Quantity = Quantity(kind: Kind, value: real, unit: Unit)

  /** Every instance the constructors let through carries a unit of its kind. */
  type Qty = q: Quantity | Accepts(q.kind, q.unit) witness Quantity(Scalar, 1.0, ScalarUnit)

  /** `KeyError` for a unit outside the table, `TypeError` for operands of
      different classes, `ZeroDivisionError` for a zero divisor. */
  datatype QuantityError = WrongUnit(unit: Unit) | OperandTypes(left: Kind, right: Kind) | ZeroDivision

  /** A constructor call `K(value, unit)`: a quantity kind rejects a unit
      outside its list; `Scalar` and `Undefined` ignore the unit argument. */
  function New(k: Kind, value: real, unit: Unit): (r: Result<Qty, QuantityError>)
    ensures r.Err? <==> IsQuantity(k) && !Accepts(k, unit)
    ensures r.Err? ==> r.error == WrongUnit(unit)
    ensures r.Ok? ==> r.value.kind == k && r.value.value == value
    ensures r.Ok? && IsQuantity(k) ==> r.value.unit == unit
  {
    if !IsQuantity(k) then Ok(Quantity(k, value, DefaultUnit(k)))
    else if Accepts(k, unit) then Ok(Quantity(k, value, unit))
    else Err(WrongUnit(unit))
  }

  /** The opposite temperature unit. */
  function OtherScale(u: Unit): Unit {
    if u == Celsius then Kelvin else Celsius
  }

  const ZERO_CELSIUS_IN_KELVIN: real := 273.15

  /** `to(unit)`: a new quantity in `unit`, or `KeyError`.
      - the same unit returns the receiver;
      - `Scalar` and `Undefined` return the receiver for any unit;
      - a factor kind scales the value by `F[old] / F[unit]`;
      - `Temperature` and `DTemperature` follow their own `to`, as written:
        the result keeps the receiver's unit label, a temperature shifts by
        273.15 in the direction opposite to the one asked for, and a
        temperature difference keeps its value. */
  function To(q: Qty, unit: Unit): (r: Result<Qty, QuantityError>)
    ensures r.Err? <==> IsQuantity(q.kind) && !Accepts(q.kind, unit)
    ensures r.Err? ==> r.error == WrongUnit(unit)
    ensures r.Ok? ==> r.value.kind == q.kind
    ensures unit == q.unit ==> r == Ok(q)
  {
    if unit == q.unit || !IsQuantity(q.kind) then Ok(q)
    else if !Accepts(q.kind, unit) then Err(WrongUnit(unit))
    else if HasFactors(q.kind) then Ok(Quantity(q.kind, q.value * (Factor(q.unit) / Factor(unit)), unit))
    else if q.kind.Temperature? then
      if unit == Celsius then Ok(Quantity(Temperature, q.value + ZERO_CELSIUS_IN_KELVIN, Kelvin))
      else Ok(Quantity(Temperature, q.value - ZERO_CELSIUS_IN_KELVIN, Celsius))
    else
      Ok(Quantity(DTemperature, q.value, OtherScale(unit)))
  }

  /** `q[unit]`, the value of `q` converted into `unit`, for a unit `q`'s
      kind accepts (the operators only ask for those). */
  function Seen(q: Qty, unit: Unit): real
    requires Accepts(q.kind, unit)
  {
    To(q, unit).value.value
  }

  /** `update(value, unit)`: a new instance of the same class with the given
      value and/or unit, validated like the constructor. `Scalar.update` and
      `Undefined.update` take exactly one value. */
  function Update(q: Qty, value: Option<real>, unit: Option<Unit>): (r: Result<Qty, QuantityError>)
    ensures IsQuantity(q.kind) ==>
              (r.Err? <==> unit.Some? && !Accepts(q.kind, unit.value))
    ensures !IsQuantity(q.kind) ==> (r.Err? <==> value.None? || unit.Some?)
    ensures r.Ok? ==> r.value.kind == q.kind
    ensures r.Ok? ==> r.value.value == (if value.Some? then value.value else q.value)
    ensures r.Ok? ==> r.value.unit == (if unit.Some? then unit.value else q.unit)
  {
    if !IsQuantity(q.kind) then
      if value.None? || unit.Some? then Err(OperandTypes(q.kind, q.kind))
      else New(q.kind, value.value, q.unit)
    else
      New(q.kind, if value.Some? then value.value else q.value, if unit.Some? then unit.value else q.unit)
  }

  /** `a == b`: False across classes, otherwise the values compared after
      converting `b` into `a`'s unit. */
  function Equal(a: Qty, b: Qty): bool {
    a.kind == b.kind && a.value == Seen(b, a.unit)
  }

  /** The class of `a ± b`, or None for the `TypeError` of the base rule:
      operands of one class keep it, except that T ± T gives ΔT; T ± ΔT and
      ΔT ± T give T. */
  function SumKind(a: Kind, b: Kind): (k: Option<Kind>)
    ensures k.Some? && a == b && !a.Temperature? ==> k.value == a
  {
    if a.Temperature? && b.Temperature? then Some(DTemperature)
    else if a.Temperature? && b.DTemperature? then Some(Temperature)
    else if a.DTemperature? && b.Temperature? then Some(Temperature)
    else if a == b then Some(a)
    else None
  }

  /** `a + b`: `b` converted into `a`'s unit and added; the result takes
      `a`'s unit and the class `SumKind` gives, or `TypeError`. */
  function Add(a: Qty, b: Qty): (r: Result<Qty, QuantityError>)
    ensures r.Err? <==> a.kind != b.kind && !(a.kind.Temperature? && b.kind.DTemperature?)
                                          && !(a.kind.DTemperature? && b.kind.Temperature?)
    ensures r.Err? ==> r.error == OperandTypes(a.kind, b.kind)
    ensures r.Ok? ==> r.value.unit == a.unit
  {
    match SumKind(a.kind, b.kind)
    case None => Err(OperandTypes(a.kind, b.kind))
    case Some(k) => Ok(Quantity(k, a.value + Seen(b, a.unit), a.unit))
  }

  /** `a - b`: like `+` with a difference, except that `DTemperature.__sub__`
      falls back to the base `__add__` for anything but a Temperature, so
      ΔT - ΔT adds. */
  function Sub(a: Qty, b: Qty): (r: Result<Qty, QuantityError>)
    ensures r.Err? <==> Add(a, b).Err?
    ensures r.Err? ==> r.error == OperandTypes(a.kind, b.kind)
    ensures r.Ok? ==> r.value.unit == a.unit && r.value.kind == Add(a, b).value.kind
  {
    match SumKind(a.kind, b.kind)
    case None => Err(OperandTypes(a.kind, b.kind))
    case Some(k) =>
      if a.kind.DTemperature? && b.kind.DTemperature? then Add(a, b)
      else Ok(Quantity(k, a.value - Seen(b, a.unit), a.unit))
  }

  /** The comparison operators `<`, `<=`, `>`, `>=`. */
  datatype Comparison = Lt | Le | Gt | Ge

  function Holds(op: Comparison, x: real, y: real): bool {
    match op
    case Lt => x < y
    case Le => x <= y
    case Gt => x > y
    case Ge => x >= y
  }

  /** `_compare`: `TypeError` across classes, otherwise the values compared
      after converting `b` into `a`'s unit. */
  function Compare(a: Qty, b: Qty, op: Comparison): (r: Result<bool, QuantityError>)
    ensures r.Err? <==> a.kind != b.kind
    ensures r.Err? ==> r.error == OperandTypes(a.kind, b.kind)
  {
    if a.kind == b.kind then Ok(Holds(op, a.value, Seen(b, a.unit)))
    else Err(OperandTypes(a.kind, b.kind))
  }

  /** The right operand of `*` and `/`: another quantity or a plain number. */
  datatype Operand = Of(q: Qty) | Number(x: real)

  function Magnitude(b: Operand): real {
    match b
    case Of(q) => q.value
    case Number(x) => x
  }

  function UndefinedOf(v: real): Qty {
    Quantity(Undefined, v, UndefinedUnit)
  }

  function ScalarOf(v: real): Qty {
    Quantity(Scalar, v, ScalarUnit)
  }

  /** `a * b`: `Quantity._mul`, `Scalar.__mul__` and `Undefined.__mul__`. */
  function Mul(a: Qty, b: Operand): (r: Qty) {
    if a.kind.Undefined? then UndefinedOf(a.value * Magnitude(b))
    else if a.kind.Scalar? then
      match b
      case Of(c) => Quantity(c.kind, a.value * c.value, c.unit)
      case Number(x) => ScalarOf(a.value * x)
    else
      match b
      case Number(x) => Quantity(a.kind, a.value * x, a.unit)
      case Of(c) =>
        if c.kind.Undefined? then UndefinedOf(a.value * c.value)
        else if c.kind.Scalar? then Quantity(a.kind, a.value * c.value, a.unit)
        else if c.kind == a.kind then UndefinedOf(a.value * Seen(c, a.unit))
        else UndefinedOf(a.value * c.value)
  }

  /** The two divisions: `/` and `//`. */
  datatype Division = TrueDiv | FloorDiv

  /** `op(x, y)` on floats: `ZeroDivisionError` for a zero divisor; floor
      division rounds the quotient down. */
  function Divide(op: Division, x: real, y: real): (r: Result<real, QuantityError>)
    ensures r.Err? <==> y == 0.0
    ensures r.Err? ==> r.error == ZeroDivision
    ensures r.Ok? && op.TrueDiv? ==> r.value * y == x
    ensures r.Ok? && op.FloorDiv? ==> r.value == (x / y).Floor as real
  {
    if y == 0.0 then Err(ZeroDivision)
    else if op.TrueDiv? then Ok(x / y)
    else Ok((x / y).Floor as real)
  }

  /** Wraps a division result into a quantity of kind `k` and unit `u`. */
  function Wrap(d: Result<real, QuantityError>, k: Kind, u: Unit): (r: Result<Qty, QuantityError>)
    requires Accepts(k, u)
    ensures r.Ok? <==> d.Ok?
    ensures r.Err? ==> r.error == d.error
    ensures r.Ok? ==> r.value == Quantity(k, d.value, u)
  {
    match d
    case Ok(v) => Ok(Quantity(k, v, u))
    case Err(e) => Err(e)
  }

  /** `a / b` and `a // b`: `Quantity._div`, `Scalar._div` and the divisions
      of `Undefined`. */
  function Div(a: Qty, b: Operand, op: Division): (r: Result<Qty, QuantityError>) {
    if a.kind.Undefined? then Wrap(Divide(op, a.value, Magnitude(b)), Undefined, UndefinedUnit)
    else if a.kind.Scalar? then
      match b
      case Of(c) =>
        if IsQuantity(c.kind) then Wrap(Divide(op, a.value, c.value), Undefined, UndefinedUnit)
        else Wrap(Divide(op, a.value, c.value), c.kind, c.unit)
      case Number(x) => Wrap(Divide(op, a.value, x), Scalar, ScalarUnit)
    else
      match b
      case Number(x) => Wrap(Divide(op, a.value, x), a.kind, a.unit)
      case Of(c) =>
        if c.kind.Undefined? then Wrap(Divide(op, a.value, c.value), Undefined, UndefinedUnit)
        else if c.kind.Scalar? then Wrap(Divide(op, a.value, c.value), a.kind, a.unit)
        else if c.kind == a.kind then Wrap(Divide(op, a.value, Seen(c, a.unit)), Scalar, ScalarUnit)
        else Wrap(Divide(op, a.value, c.value), Undefined, UndefinedUnit)
  }

  // ---------------------------------------------------------------------------
  // Properties

  lemma FactorsCancel(v: real, f: real, g: real)
    requires f > 0.0 && g > 0.0
    ensures v * (f / g) * (g / f) == v
  {
    assert (f / g) * (g / f) == 1.0;
    calc {
      v * (f / g) * (g / f);
      v * ((f / g) * (g / f));
    }
  }

  lemma FactorsCompose(v: real, f: real, g: real, h: real)
    requires f > 0.0 && g > 0.0 && h > 0.0
    ensures v * (f / g) * (g / h) == v * (f / h)
  {
    assert (f / g) * (g / h) == f / h;
    calc {
      v * (f / g) * (g / h);
      v * ((f / g) * (g / h));
    }
  }

  /** A factor kind converts by `F[old] / F[new]`, and every unit of its list
      is accepted. */
  lemma FactorConversion(q: Qty, unit: Unit)
    requires HasFactors(q.kind) && Accepts(q.kind, unit)
    ensures To(q, unit) == Ok(Quantity(q.kind, q.value * (Factor(q.unit) / Factor(unit)), unit))
  {
    if unit == q.unit {
      var f := Factor(unit);
      assert f / f == 1.0;
      assert q.value * (f / f) == q.value;
      assert To(q, unit) == Ok(q);
    } else {
      assert To(q, unit) == Ok(Quantity(q.kind, q.value * (Factor(q.unit) / Factor(unit)), unit));
    }
  }

  /** Converting a factor-kind quantity to another unit and back restores it
      exactly. */
  lemma ConversionRoundTrip(q: Qty, unit: Unit)
    requires HasFactors(q.kind) && Accepts(q.kind, unit)
    ensures To(To(q, unit).value, q.unit) == Ok(q)
  {
    FactorConversion(q, unit);
    var c := To(q, unit).value;
    FactorConversion(c, q.unit);
    FactorsCancel(q.value, Factor(q.unit), Factor(unit));
  }

  /** Two conversions in a row are one conversion. */
  lemma ConversionComposes(q: Qty, u1: Unit, u2: Unit)
    requires HasFactors(q.kind) && Accepts(q.kind, u1) && Accepts(q.kind, u2)
    ensures To(To(q, u1).value, u2) == To(q, u2)
  {
    FactorConversion(q, u1);
    var c1 := To(q, u1).value;
    FactorConversion(c1, u2);
    FactorConversion(q, u2);
    FactorsCompose(q.value, Factor(q.unit), Factor(u1), Factor(u2));
  }

  /** A factor-kind quantity equals its own conversion into any of its units,
      in both directions, and equality is reflexive. */
  lemma ConversionKeepsEquality(q: Qty, unit: Unit)
    requires HasFactors(q.kind) && Accepts(q.kind, unit)
    ensures Equal(q, To(q, unit).value) && Equal(To(q, unit).value, q)
    ensures Equal(q, q)
  {
    ConversionRoundTrip(q, unit);
  }

  /** Equality of two factor-kind quantities compares the right value scaled
      into the left unit. */
  lemma FactorEquality(x: Qty, y: Qty)
    requires HasFactors(x.kind) && y.kind == x.kind
    ensures Equal(x, y) <==> x.value == y.value * (Factor(y.unit) / Factor(x.unit))
  {
    FactorConversion(y, x.unit);
  }

  /** The sum of two factor-kind quantities, in the left operand's unit: the
      right value is scaled into that unit first. */
  lemma FactorSum(a: Qty, b: Qty)
    requires HasFactors(a.kind) && b.kind == a.kind
    ensures Add(a, b) == Ok(Quantity(a.kind, a.value + b.value * (Factor(b.unit) / Factor(a.unit)), a.unit))
  {
    FactorConversion(b, a.unit);
  }

  /** The difference of two factor-kind quantities, in the left operand's
      unit: the right value is scaled into that unit first. */
  lemma FactorDifference(a: Qty, b: Qty)
    requires HasFactors(a.kind) && b.kind == a.kind
    ensures Sub(a, b) == Ok(Quantity(a.kind, a.value - b.value * (Factor(b.unit) / Factor(a.unit)), a.unit))
  {
    FactorConversion(b, a.unit);
  }

  /** A comparison of two factor-kind quantities compares the left value with
      the right value scaled into the left unit. */
  lemma FactorCompare(a: Qty, b: Qty, op: Comparison)
    requires HasFactors(a.kind) && b.kind == a.kind
    ensures Compare(a, b, op) == Ok(Holds(op, a.value, b.value * (Factor(b.unit) / Factor(a.unit))))
  {
    FactorConversion(b, a.unit);
  }

  /** The four comparisons agree with each other and with `==`: `<=` is `<`
      or `==`, `>=` is the negation of `<`, and `>` the negation of `<=`. */
  lemma ComparisonsAgree(a: Qty, b: Qty)
    requires a.kind == b.kind
    ensures Compare(a, b, Le) == Ok(Compare(a, b, Lt).value || Equal(a, b))
    ensures Compare(a, b, Ge) == Ok(!Compare(a, b, Lt).value)
    ensures Compare(a, b, Gt) == Ok(!Compare(a, b, Le).value)
  {
  }

  /** The result classes of `*`: Q×Q and Q×Undefined give Undefined, Q×Scalar
      and Q×number keep Q, Scalar×X takes X's class, Undefined×anything is
      Undefined. */
  lemma MulKinds(a: Qty, b: Operand)
    ensures IsQuantity(a.kind) && b.Of? && IsQuantity(b.q.kind) ==> Mul(a, b).kind == Undefined
    ensures IsQuantity(a.kind) && b.Of? && b.q.kind == Undefined ==> Mul(a, b).kind == Undefined
    ensures IsQuantity(a.kind) && (b.Number? || b.q.kind == Scalar) ==> Mul(a, b) == Quantity(a.kind, a.value * Magnitude(b), a.unit)
    ensures a.kind == Scalar && b.Of? ==> Mul(a, b) == Quantity(b.q.kind, a.value * b.q.value, b.q.unit)
    ensures a.kind == Scalar && b.Number? ==> Mul(a, b).kind == Scalar
    ensures a.kind == Undefined ==> Mul(a, b).kind == Undefined
  {
  }

  /** The result classes of `/` and `//` when the divisor is not zero: Q/Q of
      one class is the Scalar ratio after conversion, Q/Scalar keeps Q,
      Q/Undefined and Q/other class give Undefined, Scalar/Q gives Undefined,
      Scalar/Scalar gives Scalar, Undefined/anything gives Undefined. A zero
      divisor raises `ZeroDivisionError`. */
  lemma DivKinds(a: Qty, b: Operand, op: Division)
    ensures IsQuantity(a.kind) && b.Of? && b.q.kind == a.kind ==>
              Div(a, b, op) == Wrap(Divide(op, a.value, Seen(b.q, a.unit)), Scalar, ScalarUnit)
    ensures IsQuantity(a.kind) && b.Of? && b.q.kind != a.kind && !b.q.kind.Scalar? && Div(a, b, op).Ok? ==>
              Div(a, b, op).value.kind == Undefined
    ensures IsQuantity(a.kind) && (b.Number? || b.q.kind == Scalar) && Div(a, b, op).Ok? ==>
              Div(a, b, op).value.kind == a.kind && Div(a, b, op).value.unit == a.unit
    ensures a.kind == Scalar && b.Of? && IsQuantity(b.q.kind) && Div(a, b, op).Ok? ==>
              Div(a, b, op).value.kind == Undefined
    ensures a.kind == Scalar && (b.Number? || b.q.kind == Scalar) && Div(a, b, op).Ok? ==>
              Div(a, b, op).value.kind == Scalar
    ensures a.kind == Undefined && Div(a, b, op).Ok? ==> Div(a, b, op).value.kind == Undefined
    ensures !(IsQuantity(a.kind) && b.Of? && b.q.kind == a.kind) ==>
              (Div(a, b, op).Err? <==> Magnitude(b) == 0.0)
  {
  }

  /** Temperature arithmetic with matching units: T ± T gives a temperature
      difference, T ± ΔT and ΔT ± T give a temperature, each valued as the
      plain sum or difference. */
  lemma TemperatureArithmetic(t1: Qty, t2: Qty, d: Qty)
    requires t1.kind == Temperature && t2.kind == Temperature && d.kind == DTemperature
    requires t2.unit == t1.unit && d.unit == t1.unit
    ensures Add(t1, t2) == Ok(Quantity(DTemperature, t1.value + t2.value, t1.unit))
    ensures Sub(t1, t2) == Ok(Quantity(DTemperature, t1.value - t2.value, t1.unit))
    ensures Add(t1, d) == Ok(Quantity(Temperature, t1.value + d.value, t1.unit))
    ensures Sub(t1, d) == Ok(Quantity(Temperature, t1.value - d.value, t1.unit))
    ensures Add(d, t1) == Ok(Quantity(Temperature, d.value + t1.value, t1.unit))
    ensures Sub(d, t1) == Ok(Quantity(Temperature, d.value - t1.value, t1.unit))
  {
  }

  /** As written, `Temperature.to` keeps the receiver's unit label and shifts
      the value the wrong way: 0 °C asked in °K comes back as -273.15 labelled
      °C. The conversion therefore changes the value under equality. */
  lemma TemperatureToAsWritten(t: Qty)
    requires t.kind == Temperature
    ensures To(t, OtherScale(t.unit)).Ok?
    ensures To(t, OtherScale(t.unit)).value.unit == t.unit
    ensures t.unit == Celsius ==> To(t, Kelvin).value.value == t.value - ZERO_CELSIUS_IN_KELVIN
    ensures t.unit == Kelvin ==> To(t, Celsius).value.value == t.value + ZERO_CELSIUS_IN_KELVIN
    ensures !Equal(t, To(t, OtherScale(t.unit)).value)
  {
  }

  /** As written, `DTemperature.to` returns an equal difference (same value,
      same label) and `DTemperature.__sub__` adds another difference instead of
      subtracting it. */
  lemma DTemperatureAsWritten(d1: Qty, d2: Qty, unit: Unit)
    requires d1.kind == DTemperature && d2.kind == DTemperature && Accepts(DTemperature, unit)
    ensures To(d1, unit) == Ok(d1)
    ensures Sub(d1, d2) == Ok(Quantity(DTemperature, d1.value + d2.value, d1.unit))
  {
  }

  /** As written, the Speed table turns 1 m/s into 0.001 mm/s. */
  lemma SpeedTableAsWritten()
    ensures To(Quantity(Speed, 1.0, MetrePerSecond), MillimetrePerSecond) == Ok(Quantity(Speed, 0.001, MillimetrePerSecond))
  {
  }

  /** `update` with neither value nor unit rebuilds an equal instance for
      quantity kinds, and an update is validated like the constructor. */
  lemma UpdateMatchesConstructor(q: Qty, value: real, unit: Unit)
    requires IsQuantity(q.kind)
    ensures Update(q, None, None) == Ok(q)
    ensures Update(q, Some(value), Some(unit)) == New(q.kind, value, unit)
  {
  }
}
