/**
 * Series: a GWArray with an ordered axis, given either as an explicit index or derived from a
 * start value `x0` and a step `dx`. The builder validates and materialises the axis once; after
 * arithmetic, metadata is merged field by field (left operand first) and the axis is reused or
 * re-derived so that it always matches the result's length.
 */
module Series {
  import opened Wrappers
  import opened Units
  import Arrays
  import Decimal

  datatype Series = Series(arrayData: Arrays.GWArray, x0: Option<Quantity>, dx: Option<Quantity>,
                           xindexCache: Option<Quantity>)

  datatype SeriesBuilder = SeriesBuilder(value: Option<seq<real>>, unit: Option<Unit>,
                                         name: Option<string>, epoch: Option<Time>,
                                         channel: Option<Arrays.Channel>, x0: Option<Quantity>,
                                         dx: Option<Quantity>, xindex: Option<Quantity>)

  // ---------------------------------------------------------------------------------------------
  // The builder's setters: each sets one field and leaves the others as they were.

  function NewBuilder(): (b: SeriesBuilder)
    ensures b.value.None? && b.unit.None? && b.name.None? && b.epoch.None?
    ensures b.channel.None? && b.x0.None? && b.dx.None? && b.xindex.None?
  {
    SeriesBuilder(None, None, None, None, None, None, None, None)
  }

  function SetValue(b: SeriesBuilder, value: seq<real>): (r: SeriesBuilder)
    ensures r.value == Some(value) && r.(value := b.value) == b
  {
    b.(value := Some(value))
  }

  function SetUnit(b: SeriesBuilder, unit: Unit): (r: SeriesBuilder)
    ensures r.unit == Some(unit) && r.(unit := b.unit) == b
  {
    b.(unit := Some(unit))
  }

  function SetName(b: SeriesBuilder, name: string): (r: SeriesBuilder)
    ensures r.name == Some(name) && r.(name := b.name) == b
  {
    b.(name := Some(name))
  }

  function SetEpoch(b: SeriesBuilder, epoch: Time): (r: SeriesBuilder)
    ensures r.epoch == Some(epoch) && r.(epoch := b.epoch) == b
  {
    b.(epoch := Some(epoch))
  }

  function SetChannel(b: SeriesBuilder, channel: Arrays.Channel): (r: SeriesBuilder)
    ensures r.channel == Some(channel) && r.(channel := b.channel) == b
  {
    b.(channel := Some(channel))
  }

  function SetX0(b: SeriesBuilder, x0: Quantity): (r: SeriesBuilder)
    ensures r.x0 == Some(x0) && r.(x0 := b.x0) == b
  {
    b.(x0 := Some(x0))
  }

  function SetDx(b: SeriesBuilder, dx: Quantity): (r: SeriesBuilder)
    ensures r.dx == Some(dx) && r.(dx := b.dx) == b
  {
    b.(dx := Some(dx))
  }

  function SetXIndex(b: SeriesBuilder, xindex: Quantity): (r: SeriesBuilder)
    ensures r.xindex == Some(xindex) && r.(xindex := b.xindex) == b
  {
    b.(xindex := Some(xindex))
  }

  // ---------------------------------------------------------------------------------------------
  // Accessors

  function Value(s: Series): seq<real> {
    Arrays.Value(s.arrayData)
  }

  function UnitOf(s: Series): Unit {
    Arrays.UnitOf(s.arrayData)
  }

  function GetName(s: Series): Option<string> {
    Arrays.GetName(s.arrayData)
  }

  function GetEpoch(s: Series): Option<Time> {
    Arrays.GetEpoch(s.arrayData)
  }

  function GetChannel(s: Series): Option<Arrays.Channel> {
    Arrays.GetChannel(s.arrayData)
  }

  function GetX0(s: Series): Option<Quantity> {
    s.x0
  }

  function GetDx(s: Series): Option<Quantity> {
    s.dx
  }

  function GetXIndex(s: Series): Option<Quantity> {
    s.xindexCache
  }

  /** The axis unit: that of the axis, else of `x0`, else of `dx`; absent only when all three are. */
  function GetXUnit(s: Series): (r: Option<Unit>)
    ensures r.None? <==> s.xindexCache.None? && s.x0.None? && s.dx.None?
    ensures s.xindexCache.Some? ==> r == Some(s.xindexCache.value.unit)
    ensures s.xindexCache.None? && s.x0.Some? ==> r == Some(s.x0.value.unit)
    ensures s.xindexCache.None? && s.x0.None? && s.dx.Some? ==> r == Some(s.dx.value.unit)
  {
    if s.xindexCache.Some? then Some(s.xindexCache.value.unit)
    else if s.x0.Some? then Some(s.x0.value.unit)
    else if s.dx.Some? then Some(s.dx.value.unit)
    else None
  }

  /** The invariant every Series keeps: an axis, when present, has one entry per value. */
  predicate AxisAligned(s: Series) {
    s.xindexCache.Some? ==> |s.xindexCache.value.values| == |Value(s)|
  }

  // ---------------------------------------------------------------------------------------------
  // The derived axis

  /** `n` values starting at `start`, each `step` above the one before. */
  function Progression(start: real, step: real, n: nat): (xs: seq<real>)
    ensures |xs| == n
    ensures n > 0 ==> xs[0] == start
    ensures forall i :: 1 <= i < n ==> xs[i] - xs[i - 1] == step
  {
    seq(n, i requires 0 <= i < n => start + (i as real) * step)
  }

  /** The last entry of a progression lies `n - 1` steps above the first. */
  lemma {:induction false} ProgressionSpan(start: real, step: real, n: nat)
    requires n > 0
    ensures Progression(start, step, n)[n - 1] - Progression(start, step, n)[0] == ((n - 1) as real) * step
    decreases n
  {
    if n > 1 {
      ProgressionSpan(start, step, n - 1);
      var xs, ys := Progression(start, step, n), Progression(start, step, n - 1);
      assert xs[n - 2] == ys[n - 2] && xs[0] == ys[0];
    }
  }

  /** Filling an array of `n` entries with `start + i * step`, one index at a time. */
  method FillProgression(start: real, step: real, n: nat) returns (xs: seq<real>)
    ensures xs == Progression(start, step, n)
  {
    var xValues := new real[n];
    for i := 0 to n
      invariant forall k :: 0 <= k < i ==> xValues[k] == start + (k as real) * step
    {
      xValues[i] := start + (i as real) * step;
    }
    xs := xValues[..];
    assert forall k :: 0 <= k < n ==> xs[k] == Progression(start, step, n)[k];
  }

  /** `x0` and `dx` are single values of the same dimensions, so `dx` converts into `x0`'s unit. */
  predicate AxisDefinable(start: Quantity, step: Quantity) {
    IsScalar(start) && IsScalar(step) && start.unit.dims == step.unit.dims
  }

  /** The step expressed in the start's unit. */
  function StepIn(start: Quantity, step: Quantity): (d: real)
    requires AxisDefinable(start, step)
    ensures d * start.unit.scale == step.values[0] * step.unit.scale
  {
    Units.To(step, start.unit).value.values[0]
  }

  /** The axis `x0 + i * dx` for `i` in `0..n`, carrying `x0`'s unit. */
  function DerivedAxis(start: Quantity, step: Quantity, n: nat): (q: Quantity)
    requires AxisDefinable(start, step)
    ensures q.unit == start.unit && |q.values| == n
    ensures forall i :: 0 <= i < n ==> q.values[i] == start.values[0] + (i as real) * StepIn(start, step)
  {
    Quantity(Progression(start.values[0], StepIn(start, step), n), start.unit)
  }

  // ---------------------------------------------------------------------------------------------
  // build

  const MissingValueMessage := "Value is required to build Series"
  const ScalarStartStepMessage := "x0 and dx must be single-value quantities"

  function IndexLengthMessage(indexLen: nat, dataLen: nat): string {
    "Index length (" + Decimal.NatToString(indexLen) + ") must match value length ("
    + Decimal.NatToString(dataLen) + ")"
  }

  /** The mismatch message names both lengths exactly: different lengths give different messages. */
  lemma IndexLengthMessageInjective(indexLen: nat, dataLen: nat, otherIndexLen: nat, otherDataLen: nat)
    requires IndexLengthMessage(indexLen, dataLen) == IndexLengthMessage(otherIndexLen, otherDataLen)
    ensures indexLen == otherIndexLen && dataLen == otherDataLen
  {
    var middle := ") must match value length (";
    var i, d := Decimal.NatToString(indexLen), Decimal.NatToString(dataLen);
    var j, e := Decimal.NatToString(otherIndexLen), Decimal.NatToString(otherDataLen);
    IndexLengthMessageParts(indexLen, dataLen);
    IndexLengthMessageParts(otherIndexLen, otherDataLen);
    Decimal.DropPrefix("Index length (", i + (middle + (d + ")")), j + (middle + (e + ")")));
    Decimal.SplitAtNonDigit(i, middle + (d + ")"), j, middle + (e + ")"));
    Decimal.NatToStringInjective(indexLen, otherIndexLen);
    Decimal.DropPrefix(middle, d + ")", e + ")");
    Decimal.SplitAtNonDigit(d, ")", e, ")");
    Decimal.NatToStringInjective(dataLen, otherDataLen);
  }

  lemma IndexLengthMessageParts(indexLen: nat, dataLen: nat)
    ensures IndexLengthMessage(indexLen, dataLen) ==
            "Index length (" + (Decimal.NatToString(indexLen) + (") must match value length ("
            + (Decimal.NatToString(dataLen) + ")")))
  {
  }

  /** The axis `build` settles on for `n` values, or the error that rejects the builder. */
  function ResolveIndex(xindex: Option<Quantity>, x0: Option<Quantity>, dx: Option<Quantity>, n: nat)
    : (r: Result<Option<Quantity>, QuantityError>)
    ensures r.Success? && r.value.Some? ==> |r.value.value.values| == n
  {
    if xindex.Some? then
      if |xindex.value.values| != n then
        Failure(MismatchError(IndexLengthMessage(|xindex.value.values|, n)))
      else
        Success(xindex)
    else if x0.Some? && dx.Some? then
      if !IsScalar(x0.value) || !IsScalar(dx.value) then
        Failure(MismatchError(ScalarStartStepMessage))
      else if x0.value.unit.dims != dx.value.unit.dims then
        Failure(IncompatibleUnits(x0.value.unit.name, dx.value.unit.name))
      else
        Success(Some(DerivedAxis(x0.value, dx.value, n)))
    else
      Success(None)
  }

  /** What `build` returns for a builder. */
  function Build(b: SeriesBuilder): (r: Result<Series, QuantityError>)
    ensures r.Success? ==> AxisAligned(r.value)
  {
    match b.value
    case None => Failure(InvalidQuantity(MissingValueMessage))
    case Some(value) =>
      var arrayData := Arrays.New(value, b.unit, b.name, b.epoch, b.channel);
      match ResolveIndex(b.xindex, b.x0, b.dx, |value|)
      case Failure(e) => Failure(e)
      case Success(index) => Success(Series(arrayData, b.x0, b.dx, index))
  }

  method BuildSeries(b: SeriesBuilder) returns (r: Result<Series, QuantityError>)
    ensures r == Build(b)
  {
    if b.value.None? {
      return Failure(InvalidQuantity(MissingValueMessage));
    }
    var arrayData := Arrays.New(b.value.value, b.unit, b.name, b.epoch, b.channel);
    var dataLen := |Arrays.Value(arrayData)|;
    var resolvedIndex: Option<Quantity>;
    if b.xindex.Some? {
      var indexQuantity := b.xindex.value;
      if |indexQuantity.values| != dataLen {
        return Failure(MismatchError(IndexLengthMessage(|indexQuantity.values|, dataLen)));
      }
      resolvedIndex := Some(indexQuantity);
    } else if b.x0.Some? && b.dx.Some? {
      var startQuantity, stepQuantity := b.x0.value, b.dx.value;
      if |startQuantity.values| != 1 || |stepQuantity.values| != 1 {
        return Failure(MismatchError(ScalarStartStepMessage));
      }
      if startQuantity.unit.dims != stepQuantity.unit.dims {
        return Failure(IncompatibleUnits(startQuantity.unit.name, stepQuantity.unit.name));
      }
      // With equal dimensions the conversion of the step cannot fail.
      var convertedDx := Units.To(stepQuantity, startQuantity.unit).value.values[0];
      var xValues := FillProgression(startQuantity.values[0], convertedDx, dataLen);
      resolvedIndex := Some(Quantity(xValues, startQuantity.unit));
    } else {
      resolvedIndex := None;
    }
    return Success(Series(arrayData, b.x0, b.dx, resolvedIndex));
  }

  /** Without a value the builder is rejected first, whatever else it holds. */
  lemma BuildRequiresValue(b: SeriesBuilder)
    requires b.value.None?
    ensures Build(b) == Failure(InvalidQuantity("Value is required to build Series"))
  {
  }

  /** A successful build stores the value, unit (or the default), name, epoch, channel, x0 and dx as given. */
  lemma BuildStoresInputs(b: SeriesBuilder)
    requires Build(b).Success?
    ensures b.value.Some? && Value(Build(b).value) == b.value.value
    ensures UnitOf(Build(b).value) == Arrays.DefaultUnit(b.unit)
    ensures GetName(Build(b).value) == b.name && GetEpoch(Build(b).value) == b.epoch
    ensures GetChannel(Build(b).value) == b.channel
    ensures GetX0(Build(b).value) == b.x0 && GetDx(Build(b).value) == b.dx
  {
  }

  /** An explicit index wins: it is used verbatim when its length fits, and x0 and dx are not checked. */
  lemma BuildExplicitIndex(b: SeriesBuilder)
    requires b.value.Some? && b.xindex.Some?
    ensures |b.xindex.value.values| != |b.value.value| ==>
              Build(b) == Failure(MismatchError(IndexLengthMessage(|b.xindex.value.values|, |b.value.value|)))
    ensures |b.xindex.value.values| == |b.value.value| ==>
              Build(b).Success? && GetXIndex(Build(b).value) == b.xindex
  {
  }

  /** The mismatch message cites both lengths. */
  lemma IndexLengthMessageExample()
    ensures IndexLengthMessage(2, 3) == "Index length (2) must match value length (3)"
  {
  }

  /**
   * Without an index but with both x0 and dx: each must be a single value (checked first), their
   * dimensions must agree (checked second), and then the axis is `x0 + i * dx` in x0's unit.
   */
  lemma BuildStartStep(b: SeriesBuilder)
    requires b.value.Some? && b.xindex.None? && b.x0.Some? && b.dx.Some?
    ensures !IsScalar(b.x0.value) || !IsScalar(b.dx.value) ==>
              Build(b) == Failure(MismatchError("x0 and dx must be single-value quantities"))
    ensures IsScalar(b.x0.value) && IsScalar(b.dx.value) && b.x0.value.unit.dims != b.dx.value.unit.dims ==>
              Build(b) == Failure(IncompatibleUnits(b.x0.value.unit.name, b.dx.value.unit.name))
    ensures AxisDefinable(b.x0.value, b.dx.value) ==>
              && Build(b).Success?
              && GetXIndex(Build(b).value) == Some(DerivedAxis(b.x0.value, b.dx.value, |b.value.value|))
              && GetXUnit(Build(b).value) == Some(b.x0.value.unit)
  {
  }

  /** Without an index and without both x0 and dx, there is no axis and the build succeeds. */
  lemma BuildNoAxis(b: SeriesBuilder)
    requires b.value.Some? && b.xindex.None? && !(b.x0.Some? && b.dx.Some?)
    ensures Build(b).Success? && GetXIndex(Build(b).value).None?
  {
  }

  /** x0 = 0 W and dx = 2 W over six values give the axis 0, 2, 4, 6, 8, 10 in W. */
  lemma BuildSixSampleAxis()
    ensures var watt := Unit("W", 1.0, Dims(2.0, 1.0, -3.0, 0.0, 0.0, 0.0, 0.0));
            var b := SeriesBuilder(Some([1.0, 2.0, 3.0, 2.0, 4.0, 3.0]), None, None, None, None,
                                   Some(Quantity([0.0], watt)), Some(Quantity([2.0], watt)), None);
            Build(b).Success? &&
            GetXIndex(Build(b).value) == Some(Quantity([0.0, 2.0, 4.0, 6.0, 8.0, 10.0], watt))
  {
    var watt := Unit("W", 1.0, Dims(2.0, 1.0, -3.0, 0.0, 0.0, 0.0, 0.0));
    var b := SeriesBuilder(Some([1.0, 2.0, 3.0, 2.0, 4.0, 3.0]), None, None, None, None,
                           Some(Quantity([0.0], watt)), Some(Quantity([2.0], watt)), None);
    var x0, dx := Quantity([0.0], watt), Quantity([2.0], watt);
    assert StepIn(x0, dx) == 2.0;
    assert DerivedAxis(x0, dx, 6).values == [0.0, 2.0, 4.0, 6.0, 8.0, 10.0];
  }

  // ---------------------------------------------------------------------------------------------
  // Metadata propagation after arithmetic

  /** Whenever an axis has to be re-derived from x0 and dx, dx converts into x0's unit. */
  predicate RecomputeConverts(cache: Option<Quantity>, x0: Option<Quantity>, dx: Option<Quantity>, n: nat) {
    (cache.None? || |cache.value.values| != n) && x0.Some? && dx.Some? && IsScalar(x0.value) && IsScalar(dx.value)
    ==> x0.value.unit.dims == dx.value.unit.dims
  }

  /** The axis a result of `n` values gets: the cached one if it fits, else one re-derived from x0 and dx. */
  function ReDerivedAxis(cache: Option<Quantity>, x0: Option<Quantity>, dx: Option<Quantity>, n: nat)
    : (r: Option<Quantity>)
    requires RecomputeConverts(cache, x0, dx, n)
    ensures r.Some? ==> |r.value.values| == n
    ensures cache.Some? && |cache.value.values| == n ==> r == cache
  {
    if cache.Some? && |cache.value.values| == n then cache
    else if x0.Some? && dx.Some? && IsScalar(x0.value) && IsScalar(dx.value) then
      Some(DerivedAxis(x0.value, dx.value, n))
    else None
  }

  /** `propagate_metadata_series` does not panic on these operands. */
  predicate PropagationDefined(q: Quantity, lhs: Series, rhs: Series) {
    RecomputeConverts(Or(lhs.xindexCache, rhs.xindexCache), Or(lhs.x0, rhs.x0), Or(lhs.dx, rhs.dx), |q.values|)
  }

  /** The Series an arithmetic result `q` becomes, with metadata merged from `lhs` then `rhs`. */
  function Propagate(q: Quantity, lhs: Series, rhs: Series): (s: Series)
    requires PropagationDefined(q, lhs, rhs)
    ensures AxisAligned(s)
  {
    var x0 := Or(lhs.x0, rhs.x0);
    var dx := Or(lhs.dx, rhs.dx);
    var cache := Or(lhs.xindexCache, rhs.xindexCache);
    Series(Arrays.New(q.values, Some(q.unit), Or(GetName(lhs), GetName(rhs)), Or(GetEpoch(lhs), GetEpoch(rhs)),
                      Or(GetChannel(lhs), GetChannel(rhs))),
           x0, dx, ReDerivedAxis(cache, x0, dx, |q.values|))
  }

  method PropagateMetadataSeries(q: Quantity, lhs: Series, rhs: Series) returns (s: Series)
    requires PropagationDefined(q, lhs, rhs)
    ensures s == Propagate(q, lhs, rhs)
  {
    var newName := Or(lhs.arrayData.name, rhs.arrayData.name);
    var newEpoch := Or(lhs.arrayData.epoch, rhs.arrayData.epoch);
    var newChannel := Or(lhs.arrayData.channel, rhs.arrayData.channel);
    var x0Clone := Or(lhs.x0, rhs.x0);
    var dxClone := Or(lhs.dx, rhs.dx);
    var xindexClone := Or(lhs.xindexCache, rhs.xindexCache);
    var dataLen := |q.values|;
    var reDerived: Option<Quantity>;
    if xindexClone.Some? && |xindexClone.value.values| == dataLen {
      reDerived := xindexClone;
    } else if x0Clone.Some? && dxClone.Some? {
      var startQuantity, stepQuantity := x0Clone.value, dxClone.value;
      if |startQuantity.values| != 1 || |stepQuantity.values| != 1 {
        reDerived := None;
      } else {
        var convertedDx := Units.To(stepQuantity, startQuantity.unit).value.values[0];
        var xValues := FillProgression(startQuantity.values[0], convertedDx, dataLen);
        reDerived := Some(Quantity(xValues, startQuantity.unit));
      }
    } else {
      reDerived := None;
    }
    s := Series(Arrays.New(q.values, Some(q.unit), newName, newEpoch, newChannel), x0Clone, dxClone, reDerived);
  }

  /** Value and unit come from the result; name, epoch, channel, x0 and dx each from `lhs` if present, else `rhs`. */
  lemma PropagateMetadata(q: Quantity, lhs: Series, rhs: Series)
    requires PropagationDefined(q, lhs, rhs)
    ensures var s := Propagate(q, lhs, rhs);
            && Value(s) == q.values && UnitOf(s) == q.unit
            && (GetName(lhs).Some? ==> GetName(s) == GetName(lhs))
            && (GetName(lhs).None? ==> GetName(s) == GetName(rhs))
            && (GetEpoch(lhs).Some? ==> GetEpoch(s) == GetEpoch(lhs))
            && (GetEpoch(lhs).None? ==> GetEpoch(s) == GetEpoch(rhs))
            && (GetChannel(lhs).Some? ==> GetChannel(s) == GetChannel(lhs))
            && (GetChannel(lhs).None? ==> GetChannel(s) == GetChannel(rhs))
            && (lhs.x0.Some? ==> GetX0(s) == lhs.x0) && (lhs.x0.None? ==> GetX0(s) == rhs.x0)
            && (lhs.dx.Some? ==> GetDx(s) == lhs.dx) && (lhs.dx.None? ==> GetDx(s) == rhs.dx)
  {
  }

  /**
   * The result's axis: the merged cached axis if its length fits; otherwise one re-derived from the
   * merged x0 and dx when both are single values; otherwise none.
   */
  lemma PropagateAxis(q: Quantity, lhs: Series, rhs: Series)
    requires PropagationDefined(q, lhs, rhs)
    ensures var s := Propagate(q, lhs, rhs);
            var cache, x0, dx := Or(lhs.xindexCache, rhs.xindexCache), Or(lhs.x0, rhs.x0), Or(lhs.dx, rhs.dx);
            && (cache.Some? && |cache.value.values| == |q.values| ==> GetXIndex(s) == cache)
            && (!(cache.Some? && |cache.value.values| == |q.values|) && x0.Some? && dx.Some?
                && IsScalar(x0.value) && IsScalar(dx.value) ==>
                  GetXIndex(s) == Some(DerivedAxis(x0.value, dx.value, |q.values|)))
            && (!(cache.Some? && |cache.value.values| == |q.values|)
                && !(x0.Some? && dx.Some? && IsScalar(x0.value) && IsScalar(dx.value)) ==>
                  GetXIndex(s).None?)
  {
  }

  // ---------------------------------------------------------------------------------------------
  // Arithmetic

  /** The operands broadcast, and the result's axis can be re-derived wherever it has to be. */
  predicate ArithmeticDefined(lhs: Series, rhs: Series) {
    && Broadcastable(|Value(lhs)|, |Value(rhs)|)
    && RecomputeConverts(Or(lhs.xindexCache, rhs.xindexCache), Or(lhs.x0, rhs.x0), Or(lhs.dx, rhs.dx),
                         BroadcastLen(|Value(lhs)|, |Value(rhs)|))
  }

  /** The outcome of a GWArray operation turned into a Series: its error unchanged, or its quantity with merged metadata. */
  function Combine(arr: Result<Arrays.GWArray, QuantityError>, lhs: Series, rhs: Series)
    : (r: Result<Series, QuantityError>)
    requires arr.Success? ==> PropagationDefined(arr.value.quantity, lhs, rhs)
    ensures r.Failure? <==> arr.Failure?
    ensures r.Failure? ==> r.error == arr.error
    ensures r.Success? ==> r.value == Propagate(arr.value.quantity, lhs, rhs) && AxisAligned(r.value)
  {
    match arr
    case Failure(e) => Failure(e)
    case Success(a) => Success(Propagate(a.quantity, lhs, rhs))
  }

  function Plus(lhs: Series, rhs: Series): (r: Result<Series, QuantityError>)
    requires ArithmeticDefined(lhs, rhs)
    ensures r.Failure? <==> UnitOf(lhs) != UnitOf(rhs)
    ensures r.Failure? ==> r.error == IncompatibleAddition(UnitOf(lhs).name, UnitOf(rhs).name)
    ensures r.Success? ==> UnitOf(r.value) == UnitOf(lhs) && AxisAligned(r.value)
  {
    Combine(Arrays.Add(lhs.arrayData, rhs.arrayData), lhs, rhs)
  }

  function Minus(lhs: Series, rhs: Series): (r: Result<Series, QuantityError>)
    requires ArithmeticDefined(lhs, rhs)
    ensures r.Failure? <==> UnitOf(lhs) != UnitOf(rhs)
    ensures r.Failure? ==> r.error == IncompatibleSubtraction(UnitOf(lhs).name, UnitOf(rhs).name)
    ensures r.Success? ==> UnitOf(r.value) == UnitOf(lhs) && AxisAligned(r.value)
  {
    Combine(Arrays.Sub(lhs.arrayData, rhs.arrayData), lhs, rhs)
  }

  function Times(lhs: Series, rhs: Series): (r: Result<Series, QuantityError>)
    requires ArithmeticDefined(lhs, rhs)
    ensures r.Success? && AxisAligned(r.value)
    ensures UnitOf(r.value).dims == DimsPlus(UnitOf(lhs).dims, UnitOf(rhs).dims)
  {
    Combine(Arrays.Mul(lhs.arrayData, rhs.arrayData), lhs, rhs)
  }

  function Over(lhs: Series, rhs: Series): (r: Result<Series, QuantityError>)
    requires ArithmeticDefined(lhs, rhs)
    ensures r.Failure? <==> !NoZero(Value(rhs))
    ensures r.Failure? ==> r.error == DivisionByZero
    ensures r.Success? ==> UnitOf(r.value).dims == DimsMinus(UnitOf(lhs).dims, UnitOf(rhs).dims)
    ensures r.Success? ==> AxisAligned(r.value)
  {
    Combine(Arrays.Div(lhs.arrayData, rhs.arrayData), lhs, rhs)
  }

  /** Every successful result has the broadcast length and merges the operands' metadata. */
  lemma ArithmeticResults(lhs: Series, rhs: Series)
    requires ArithmeticDefined(lhs, rhs)
    ensures forall r <- [Plus(lhs, rhs), Minus(lhs, rhs), Times(lhs, rhs), Over(lhs, rhs)] ::
              r.Success? ==>
                && |Value(r.value)| == BroadcastLen(|Value(lhs)|, |Value(rhs)|)
                && GetName(r.value) == Or(GetName(lhs), GetName(rhs))
                && GetEpoch(r.value) == Or(GetEpoch(lhs), GetEpoch(rhs))
                && GetChannel(r.value) == Or(GetChannel(lhs), GetChannel(rhs))
                && GetX0(r.value) == Or(lhs.x0, rhs.x0) && GetDx(r.value) == Or(lhs.dx, rhs.dx)
  {
    Arrays.OperationLengths(lhs.arrayData, rhs.arrayData);
  }

  method Add(lhs: Series, rhs: Series) returns (r: Result<Series, QuantityError>)
    requires ArithmeticDefined(lhs, rhs)
    ensures r == Plus(lhs, rhs)
  {
    var added := Arrays.Add(lhs.arrayData, rhs.arrayData);
    if added.Failure? {
      return Failure(added.error);
    }
    var s := PropagateMetadataSeries(added.value.quantity, lhs, rhs);
    return Success(s);
  }

  method Sub(lhs: Series, rhs: Series) returns (r: Result<Series, QuantityError>)
    requires ArithmeticDefined(lhs, rhs)
    ensures r == Minus(lhs, rhs)
  {
    var subtracted := Arrays.Sub(lhs.arrayData, rhs.arrayData);
    if subtracted.Failure? {
      return Failure(subtracted.error);
    }
    var s := PropagateMetadataSeries(subtracted.value.quantity, lhs, rhs);
    return Success(s);
  }

  method Mul(lhs: Series, rhs: Series) returns (r: Result<Series, QuantityError>)
    requires ArithmeticDefined(lhs, rhs)
    ensures r == Times(lhs, rhs)
  {
    var multiplied := Arrays.Mul(lhs.arrayData, rhs.arrayData);
    var s := PropagateMetadataSeries(multiplied.value.quantity, lhs, rhs);
    return Success(s);
  }

  method Div(lhs: Series, rhs: Series) returns (r: Result<Series, QuantityError>)
    requires ArithmeticDefined(lhs, rhs)
    ensures r == Over(lhs, rhs)
  {
    var divided := Arrays.Div(lhs.arrayData, rhs.arrayData);
    if divided.Failure? {
      return Failure(divided.error);
    }
    var s := PropagateMetadataSeries(divided.value.quantity, lhs, rhs);
    return Success(s);
  }
}
