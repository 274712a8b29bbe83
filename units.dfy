/**
 * The consumed interface of the external units-and-time crate: units with a scale and a
 * dimension vector, quantities (a sequence of reals tagged with a unit), unit conversion,
 * elementwise arithmetic, and GPS time. The crate's own code is not part of this model; the
 * behaviour below is the contract the library relies on, over exact reals.
 */
module Units {
  import opened Wrappers

  /**
   * Exponents of the seven SI base dimensions. They are integers in practice; they are held as
   * reals because they are only ever compared, added and subtracted, which integers and reals do
   * alike.
   */
  datatype Dims = Dims(length: real, mass: real, time: real, current: real,
                       temperature: real, amount: real, luminosity: real)

  const NoDims := Dims(0.0, 0.0, 0.0, 0.0, 0.0, 0.0, 0.0)
  const TimeDims := Dims(0.0, 0.0, 1.0, 0.0, 0.0, 0.0, 0.0)
  const FrequencyDims := Dims(0.0, 0.0, -1.0, 0.0, 0.0, 0.0, 0.0)

  function DimsPlus(a: Dims, b: Dims): Dims {
    Dims(a.length + b.length, a.mass + b.mass, a.time + b.time, a.current + b.current,
         a.temperature + b.temperature, a.amount + b.amount, a.luminosity + b.luminosity)
  }

  function DimsMinus(a: Dims, b: Dims): Dims {
    Dims(a.length - b.length, a.mass - b.mass, a.time - b.time, a.current - b.current,
         a.temperature - b.temperature, a.amount - b.amount, a.luminosity - b.luminosity)
  }

  /** A unit's scale factor relative to the coherent SI unit of its dimensions. */
  type Scale = r: real | r > 0.0 witness 1.0

  datatype Unit = Unit(name: string, scale: Scale, dims: Dims)

  /** The unit named "" with scale 1 and no dimensions. */
  function Dimensionless(): (u: Unit)
    ensures u.name == "" && u.scale == 1.0 && u.dims == NoDims
  {
    Unit("", 1.0, NoDims)
  }

  const Second := Unit("s", 1.0, TimeDims)
  const Hertz := Unit("Hz", 1.0, FrequencyDims)

  datatype Quantity = Quantity(values: seq<real>, unit: Unit)

  predicate IsScalar(q: Quantity) {
    |q.values| == 1
  }

  /** An instant, held as a count of GPS seconds. */
  datatype Time = Time(gpsSeconds: real)

  function FromGpsSeconds(x: real): Time {
    Time(x)
  }

  function AsGpsSeconds(t: Time): real {
    t.gpsSeconds
  }

  lemma GpsSecondsRoundTrip(t: Time, x: real)
    ensures FromGpsSeconds(AsGpsSeconds(t)) == t
    ensures AsGpsSeconds(FromGpsSeconds(x)) == x
  {
  }

  datatype QuantityError =
    | InvalidQuantity(msg: string)
    | MismatchError(msg: string)
    | IncompatibleUnits(from: string, to: string)
    | IncompatibleAddition(lhs: string, rhs: string)
    | IncompatibleSubtraction(lhs: string, rhs: string)
    | DivisionByZero

  /** Conversion of every value of `q` into `target`; fails when the dimensions differ. */
  function To(q: Quantity, target: Unit): (r: Result<Quantity, QuantityError>)
    ensures r.Success? <==> q.unit.dims == target.dims
    ensures r.Failure? ==> r.error == IncompatibleUnits(q.unit.name, target.name)
    ensures r.Success? ==> r.value.unit == target && |r.value.values| == |q.values|
    ensures r.Success? ==> forall i :: 0 <= i < |q.values| ==>
              r.value.values[i] * target.scale == q.values[i] * q.unit.scale
  {
    if q.unit.dims != target.dims then
      Failure(IncompatibleUnits(q.unit.name, target.name))
    else
      Success(Quantity(seq(|q.values|, i requires 0 <= i < |q.values| =>
                             q.values[i] * q.unit.scale / target.scale), target))
  }

  /** Converting to a unit of the same dimensions and back reproduces the quantity exactly. */
  lemma ToRoundTrip(q: Quantity, u: Unit)
    requires q.unit.dims == u.dims
    ensures To(q, u).Success?
    ensures To(To(q, u).value, q.unit) == Success(q)
  {
    var there := To(q, u).value;
    var back := To(there, q.unit).value;
    forall i | 0 <= i < |q.values|
      ensures back.values[i] == q.values[i]
    {
      assert back.values[i] * q.unit.scale == there.values[i] * u.scale;
      assert there.values[i] * u.scale == q.values[i] * q.unit.scale;
    }
    assert back.values == q.values;
  }

  /** Elementwise operands must have equal lengths, or one of them a single value that is repeated. */
  predicate Broadcastable(m: nat, n: nat) {
    m == n || m == 1 || n == 1
  }

  function BroadcastLen(m: nat, n: nat): (k: nat)
    requires Broadcastable(m, n)
    ensures k == m || k == n
    ensures m != 1 ==> k == m
    ensures n != 1 ==> k == n
  {
    if m == 1 then n else m
  }

  /** The `i`-th operand value once a single value is repeated to the broadcast length. */
  function At(v: seq<real>, i: nat): real
    requires |v| == 1 || i < |v|
  {
    if |v| == 1 then v[0] else v[i]
  }

  predicate NoZero(v: seq<real>) {
    forall i :: 0 <= i < |v| ==> v[i] != 0.0
  }

  function UnitProduct(a: Unit, b: Unit): Unit {
    Unit(a.name + "*" + b.name, a.scale * b.scale, DimsPlus(a.dims, b.dims))
  }

  function UnitQuotient(a: Unit, b: Unit): Unit {
    Unit(a.name + "/" + b.name, a.scale / b.scale, DimsMinus(a.dims, b.dims))
  }

  /** Elementwise sum; the units must be identical, even when only their scales differ. */
  function QAdd(a: Quantity, b: Quantity): (r: Result<Quantity, QuantityError>)
    requires Broadcastable(|a.values|, |b.values|)
    ensures r.Success? <==> a.unit == b.unit
    ensures r.Failure? ==> r.error == IncompatibleAddition(a.unit.name, b.unit.name)
    ensures r.Success? ==> r.value.unit == a.unit
    ensures r.Success? ==> |r.value.values| == BroadcastLen(|a.values|, |b.values|)
  {
    if a.unit != b.unit then
      Failure(IncompatibleAddition(a.unit.name, b.unit.name))
    else
      var n := BroadcastLen(|a.values|, |b.values|);
      Success(Quantity(seq(n, i requires 0 <= i < n => At(a.values, i) + At(b.values, i)), a.unit))
  }

  /** Elementwise difference; the units must be identical. */
  function QSub(a: Quantity, b: Quantity): (r: Result<Quantity, QuantityError>)
    requires Broadcastable(|a.values|, |b.values|)
    ensures r.Success? <==> a.unit == b.unit
    ensures r.Failure? ==> r.error == IncompatibleSubtraction(a.unit.name, b.unit.name)
    ensures r.Success? ==> r.value.unit == a.unit
    ensures r.Success? ==> |r.value.values| == BroadcastLen(|a.values|, |b.values|)
  {
    if a.unit != b.unit then
      Failure(IncompatibleSubtraction(a.unit.name, b.unit.name))
    else
      var n := BroadcastLen(|a.values|, |b.values|);
      Success(Quantity(seq(n, i requires 0 <= i < n => At(a.values, i) - At(b.values, i)), a.unit))
  }

  /** Elementwise product in the product unit; it never fails. */
  function QMul(a: Quantity, b: Quantity): (r: Quantity)
    requires Broadcastable(|a.values|, |b.values|)
    ensures |r.values| == BroadcastLen(|a.values|, |b.values|)
    ensures r.unit.dims == DimsPlus(a.unit.dims, b.unit.dims)
  {
    var n := BroadcastLen(|a.values|, |b.values|);
    Quantity(seq(n, i requires 0 <= i < n => At(a.values, i) * At(b.values, i)),
             UnitProduct(a.unit, b.unit))
  }

  /** Elementwise quotient in the quotient unit; it fails only on a zero divisor. */
  function QDiv(a: Quantity, b: Quantity): (r: Result<Quantity, QuantityError>)
    requires Broadcastable(|a.values|, |b.values|)
    ensures r.Success? <==> NoZero(b.values)
    ensures r.Failure? ==> r.error == DivisionByZero
    ensures r.Success? ==> |r.value.values| == BroadcastLen(|a.values|, |b.values|)
    ensures r.Success? ==> r.value.unit.dims == DimsMinus(a.unit.dims, b.unit.dims)
    ensures r.Success? ==> forall i :: 0 <= i < |r.value.values| ==>
              r.value.values[i] * At(b.values, i) == At(a.values, i)
  {
    if !NoZero(b.values) then
      Failure(DivisionByZero)
    else
      var n := BroadcastLen(|a.values|, |b.values|);
      Success(Quantity(seq(n, i requires 0 <= i < n => At(a.values, i) / At(b.values, i)),
                       UnitQuotient(a.unit, b.unit)))
  }

  /** The single dimensionless value 1, the numerator of a reciprocal. */
  function One(): Quantity {
    Quantity([1.0], Dimensionless())
  }

  /** The reciprocal of a quantity with no zero value: one value per value, in the inverse dimensions. */
  lemma ReciprocalShape(q: Quantity)
    requires NoZero(q.values)
    ensures QDiv(One(), q).Success?
    ensures |QDiv(One(), q).value.values| == |q.values|
    ensures QDiv(One(), q).value.unit.dims == DimsMinus(NoDims, q.unit.dims)
  {
  }

  /** Each value of a reciprocal times the matching value is 1, and so is the product of their scales. */
  lemma ReciprocalValues(q: Quantity)
    requires NoZero(q.values)
    ensures QDiv(One(), q).Success?
    ensures QDiv(One(), q).value.unit.scale * q.unit.scale == 1.0
    ensures forall i :: 0 <= i < |q.values| ==> QDiv(One(), q).value.values[i] * q.values[i] == 1.0
  {
    ReciprocalShape(q);
    var r := QDiv(One(), q).value;
    forall i | 0 <= i < |q.values|
      ensures r.values[i] * q.values[i] == 1.0
    {
      assert r.values[i] * At(q.values, i) == At(One().values, i);
    }
  }

  lemma ProductOfInverses(a: real, b: real, c: real, d: real)
    requires a * b == 1.0 && c * d == 1.0
    ensures (a * c) * (b * d) == 1.0
  {
    calc {
      (a * c) * (b * d);
      (a * b) * (c * d);
    }
  }

  /**
   * The reciprocal of `q`, converted into a unit of the inverse dimensions: each converted value,
   * taken in coherent units, times the matching value of `q`, taken in coherent units, is 1.
   */
  lemma ReciprocalConverted(q: Quantity, target: Unit)
    requires NoZero(q.values) && target.dims == DimsMinus(NoDims, q.unit.dims)
    ensures QDiv(One(), q).Success? && To(QDiv(One(), q).value, target).Success?
    ensures var r := To(QDiv(One(), q).value, target).value;
            && r.unit == target && |r.values| == |q.values|
            && forall i :: 0 <= i < |q.values| ==>
                 (r.values[i] * target.scale) * (q.values[i] * q.unit.scale) == 1.0
  {
    ReciprocalShape(q);
    ReciprocalValues(q);
    var inverse := QDiv(One(), q).value;
    var r := To(inverse, target).value;
    forall i | 0 <= i < |q.values|
      ensures (r.values[i] * target.scale) * (q.values[i] * q.unit.scale) == 1.0
    {
      assert r.values[i] * target.scale == inverse.values[i] * inverse.unit.scale;
      ProductOfInverses(inverse.values[i], q.values[i], inverse.unit.scale, q.unit.scale);
    }
  }
}
