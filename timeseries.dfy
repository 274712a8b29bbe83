/**
 * TimeSeriesBase: a Series whose axis is GPS time in seconds. Its builder maps `times`, an epoch
 * (a Time or a raw count of seconds), `dt` and `sample_rate` onto the Series builder's `xindex`,
 * `x0` and `dx`; epoch, sample rate and duration are computed from the axis when asked for.
 */
module TimeSeries {
  import opened Wrappers
  import opened Units
  import Arrays
  import Series

  datatype TimeSeriesBase = TimeSeriesBase(seriesData: Series.Series)

  datatype TimeSeriesBaseBuilder = TimeSeriesBaseBuilder(
    value: Option<seq<real>>, unit: Option<Unit>, name: Option<string>, channel: Option<Arrays.Channel>,
    t0: Option<Time>, dt: Option<Quantity>, sampleRate: Option<Quantity>, times: Option<Quantity>,
    rawT0: Option<real>)

  // ---------------------------------------------------------------------------------------------
  // The builder's setters: each sets one field and leaves the others as they were.

  function NewBuilder(): (b: TimeSeriesBaseBuilder)
    ensures b.value.None? && b.unit.None? && b.name.None? && b.channel.None? && b.t0.None?
    ensures b.dt.None? && b.sampleRate.None? && b.times.None? && b.rawT0.None?
  {
    TimeSeriesBaseBuilder(None, None, None, None, None, None, None, None, None)
  }

  function SetValue(b: TimeSeriesBaseBuilder, value: seq<real>): (r: TimeSeriesBaseBuilder)
    ensures r.value == Some(value) && r.(value := b.value) == b
  {
    b.(value := Some(value))
  }

  function SetUnit(b: TimeSeriesBaseBuilder, unit: Unit): (r: TimeSeriesBaseBuilder)
    ensures r.unit == Some(unit) && r.(unit := b.unit) == b
  {
    b.(unit := Some(unit))
  }

  function SetName(b: TimeSeriesBaseBuilder, name: string): (r: TimeSeriesBaseBuilder)
    ensures r.name == Some(name) && r.(name := b.name) == b
  {
    b.(name := Some(name))
  }

  function SetChannel(b: TimeSeriesBaseBuilder, channel: Arrays.Channel): (r: TimeSeriesBaseBuilder)
    ensures r.channel == Some(channel) && r.(channel := b.channel) == b
  {
    b.(channel := Some(channel))
  }

  /** `epoch(...)`: the GPS epoch as a Time. */
  function SetEpoch(b: TimeSeriesBaseBuilder, epoch: Time): (r: TimeSeriesBaseBuilder)
    ensures r.t0 == Some(epoch) && r.(t0 := b.t0) == b
  {
    b.(t0 := Some(epoch))
  }

  /** `t0(...)`: the GPS epoch as a raw count of seconds. */
  function SetT0(b: TimeSeriesBaseBuilder, t0: real): (r: TimeSeriesBaseBuilder)
    ensures r.rawT0 == Some(t0) && r.(rawT0 := b.rawT0) == b
  {
    b.(rawT0 := Some(t0))
  }

  function SetDt(b: TimeSeriesBaseBuilder, dt: Quantity): (r: TimeSeriesBaseBuilder)
    ensures r.dt == Some(dt) && r.(dt := b.dt) == b
  {
    b.(dt := Some(dt))
  }

  function SetSampleRate(b: TimeSeriesBaseBuilder, sampleRate: Quantity): (r: TimeSeriesBaseBuilder)
    ensures r.sampleRate == Some(sampleRate) && r.(sampleRate := b.sampleRate) == b
  {
    b.(sampleRate := Some(sampleRate))
  }

  function SetTimes(b: TimeSeriesBaseBuilder, times: Quantity): (r: TimeSeriesBaseBuilder)
    ensures r.times == Some(times) && r.(times := b.times) == b
  {
    b.(times := Some(times))
  }

  // ---------------------------------------------------------------------------------------------
  // build

  const MissingValueMessage := "Value is required to build TimeSeriesBase"
  const SampleRateScalarMessage := "Sample rate must be a scalar quantity."

  /** The start of the axis: an epoch Time wins over a raw float; either becomes one value in seconds. */
  function ResolvedT0(b: TimeSeriesBaseBuilder): (r: Option<Quantity>)
    ensures r.Some? <==> b.t0.Some? || b.rawT0.Some?
    ensures b.t0.Some? ==> r == Some(Quantity([AsGpsSeconds(b.t0.value)], Second))
    ensures b.t0.None? && b.rawT0.Some? ==> r == Some(Quantity([b.rawT0.value], Second))
  {
    if b.t0.Some? then Some(Quantity([AsGpsSeconds(b.t0.value)], Second))
    else if b.rawT0.Some? then Some(Quantity([b.rawT0.value], Second))
    else None
  }

  /** The step: `dt` wins over `sample_rate`, which must be a single value and becomes `1 / sample_rate` in seconds. */
  function ResolvedDt(b: TimeSeriesBaseBuilder): (r: Result<Option<Quantity>, QuantityError>)
    ensures b.dt.Some? ==> r == Success(b.dt)
    ensures b.dt.None? && b.sampleRate.None? ==> r == Success(None)
    ensures b.dt.None? && b.sampleRate.Some? && !IsScalar(b.sampleRate.value) ==>
              r == Failure(InvalidQuantity(SampleRateScalarMessage))
    ensures b.dt.None? && r.Success? && r.value.Some? ==>
              b.sampleRate.Some? && r.value.value.unit == Second && IsScalar(r.value.value)
  {
    if b.dt.Some? then Success(b.dt)
    else if b.sampleRate.Some? then
      var sampleRate := b.sampleRate.value;
      if |sampleRate.values| != 1 then
        Failure(InvalidQuantity(SampleRateScalarMessage))
      else
        match QDiv(One(), sampleRate)
        case Failure(e) => Failure(e)
        case Success(inverse) =>
          match Units.To(inverse, Second)
          case Failure(e) => Failure(e)
          case Success(converted) => Success(Some(converted))
    else
      Success(None)
  }

  /** The Series builder that `build` fills in from the time-domain arguments. */
  function SeriesBuilderFor(b: TimeSeriesBaseBuilder, value: seq<real>)
    : (r: Result<Series.SeriesBuilder, QuantityError>)
    ensures r.Success? ==>
              && r.value.value == Some(value) && r.value.unit == Some(Arrays.DefaultUnit(b.unit))
              && r.value.name == b.name && r.value.channel == b.channel && r.value.epoch.None?
    ensures b.times.Some? ==>
              r.Success? && r.value.xindex == b.times && r.value.x0.None? && r.value.dx.None?
    ensures b.times.None? ==> (r.Failure? <==> ResolvedDt(b).Failure?)
    ensures b.times.None? && r.Failure? ==> r.error == ResolvedDt(b).error
    ensures b.times.None? && r.Success? ==>
              r.value.xindex.None? && r.value.x0 == ResolvedT0(b) && r.value.dx == ResolvedDt(b).value
  {
    var sb := Series.SetUnit(Series.SetValue(Series.NewBuilder(), value), Arrays.DefaultUnit(b.unit));
    var sb := if b.name.Some? then Series.SetName(sb, b.name.value) else sb;
    var sb := if b.channel.Some? then Series.SetChannel(sb, b.channel.value) else sb;
    if b.times.Some? then
      Success(Series.SetXIndex(sb, b.times.value))
    else
      var sb := if ResolvedT0(b).Some? then Series.SetX0(sb, ResolvedT0(b).value) else sb;
      match ResolvedDt(b)
      case Failure(e) => Failure(e)
      case Success(dt) => Success(if dt.Some? then Series.SetDx(sb, dt.value) else sb)
  }

  /** What `build` returns for a builder. */
  function Build(b: TimeSeriesBaseBuilder): (r: Result<TimeSeriesBase, QuantityError>)
    ensures b.value.None? ==> r == Failure(InvalidQuantity(MissingValueMessage))
    ensures r.Success? ==> b.value.Some? && Value(r.value) == b.value.value && Valid(r.value)
  {
    match b.value
    case None => Failure(InvalidQuantity(MissingValueMessage))
    case Some(value) =>
      match SeriesBuilderFor(b, value)
      case Failure(e) => Failure(e)
      case Success(sb) =>
        match Series.Build(sb)
        case Failure(e) => Failure(e)
        case Success(s) =>
          Series.BuildStoresInputs(sb);
          Success(TimeSeriesBase(s))
  }

  method BuildTimeSeriesBase(b: TimeSeriesBaseBuilder) returns (r: Result<TimeSeriesBase, QuantityError>)
    ensures r == Build(b)
  {
    if b.value.None? {
      return Failure(InvalidQuantity(MissingValueMessage));
    }
    var seriesBuilder := Series.SetUnit(Series.SetValue(Series.NewBuilder(), b.value.value),
                                        Arrays.DefaultUnit(b.unit));
    if b.name.Some? {
      seriesBuilder := Series.SetName(seriesBuilder, b.name.value);
    }
    if b.channel.Some? {
      seriesBuilder := Series.SetChannel(seriesBuilder, b.channel.value);
    }
    if b.times.Some? {
      seriesBuilder := Series.SetXIndex(seriesBuilder, b.times.value);
    } else {
      var resolvedT0 := ResolvedT0(b);
      if resolvedT0.Some? {
        seriesBuilder := Series.SetX0(seriesBuilder, resolvedT0.value);
      }
      var resolvedDt := ResolvedDt(b);
      if resolvedDt.Failure? {
        return Failure(resolvedDt.error);
      }
      if resolvedDt.value.Some? {
        seriesBuilder := Series.SetDx(seriesBuilder, resolvedDt.value.value);
      }
    }
    var seriesData := Series.BuildSeries(seriesBuilder);
    if seriesData.Failure? {
      return Failure(seriesData.error);
    }
    return Success(TimeSeriesBase(seriesData.value));
  }

  // ---------------------------------------------------------------------------------------------
  // Accessors and computed views

  function Value(ts: TimeSeriesBase): seq<real> {
    Series.Value(ts.seriesData)
  }

  function UnitOf(ts: TimeSeriesBase): Unit {
    Series.UnitOf(ts.seriesData)
  }

  function GetName(ts: TimeSeriesBase): Option<string> {
    Series.GetName(ts.seriesData)
  }

  function GetChannel(ts: TimeSeriesBase): Option<Arrays.Channel> {
    Series.GetChannel(ts.seriesData)
  }

  function GetT0(ts: TimeSeriesBase): Option<Quantity> {
    Series.GetX0(ts.seriesData)
  }

  function GetDt(ts: TimeSeriesBase): Option<Quantity> {
    Series.GetDx(ts.seriesData)
  }

  function GetTimes(ts: TimeSeriesBase): Option<Quantity> {
    Series.GetXIndex(ts.seriesData)
  }

  /**
   * What every TimeSeriesBase keeps: its axis fits its values, and its `t0`, when present, is a
   * single value in seconds.
   */
  predicate Valid(ts: TimeSeriesBase) {
    && Series.AxisAligned(ts.seriesData)
    && (GetT0(ts).Some? ==> IsScalar(GetT0(ts).value) && GetT0(ts).value.unit == Second)
  }

  /** `get_epoch` reads the first value of `t0`, which must exist. */
  predicate EpochDefined(ts: TimeSeriesBase) {
    GetT0(ts).Some? ==> |GetT0(ts).value.values| > 0
  }

  /** The GPS time of the axis start; absent exactly when `t0` is. */
  function GetEpoch(ts: TimeSeriesBase): (r: Option<Time>)
    requires EpochDefined(ts)
    ensures r.None? <==> GetT0(ts).None?
    ensures r.Some? ==> AsGpsSeconds(r.value) == GetT0(ts).value.values[0]
  {
    match GetT0(ts)
    case None => None
    case Some(t0) => Some(FromGpsSeconds(t0.values[0]))
  }

  /** `get_sample_rate` divides by `dt` and converts to hertz, neither of which may fail. */
  predicate SampleRateDefined(ts: TimeSeriesBase) {
    GetDt(ts).Some? ==> NoZero(GetDt(ts).value.values) && GetDt(ts).value.unit.dims == TimeDims
  }

  /** `1 / dt` in hertz, one rate per step; absent exactly when `dt` is. */
  function GetSampleRate(ts: TimeSeriesBase): (r: Option<Quantity>)
    requires SampleRateDefined(ts)
    ensures r.None? <==> GetDt(ts).None?
    ensures r.Some? ==> r.value.unit == Hertz && |r.value.values| == |GetDt(ts).value.values|
    ensures r.Some? ==> var dt := GetDt(ts).value;
              forall i :: 0 <= i < |dt.values| ==> r.value.values[i] * (dt.values[i] * dt.unit.scale) == 1.0
  {
    match GetDt(ts)
    case None => None
    case Some(dt) =>
      ReciprocalConverted(dt, Hertz);
      Some(Units.To(QDiv(One(), dt).value, Hertz).value)
  }

  /** The span of the axis, in the axis unit: `last - first`, or 0 for an empty axis; absent without an axis. */
  function Duration(ts: TimeSeriesBase): (r: Option<Quantity>)
    ensures r.None? <==> GetTimes(ts).None?
    ensures r.Some? ==> IsScalar(r.value) && r.value.unit == GetTimes(ts).value.unit
    ensures r.Some? && |GetTimes(ts).value.values| == 0 ==> r.value.values == [0.0]
    ensures r.Some? && |GetTimes(ts).value.values| > 0 ==>
              var v := GetTimes(ts).value.values;
              r.value.values == [v[|v| - 1] - v[0]]
  {
    match GetTimes(ts)
    case None => None
    case Some(times) =>
      var values := times.values;
      if |values| == 0 then
        Some(Quantity([0.0], times.unit))
      else
        Some(Quantity([values[|values| - 1] - values[0]], times.unit))
  }

  /**
   * On an evenly spaced axis of `n > 0` samples, such as the one derived from `t0` and `dt`, the
   * duration is `n - 1` steps.
   */
  lemma DurationOfEvenAxis(ts: TimeSeriesBase, start: real, step: real, n: nat, unit: Unit)
    requires n > 0 && GetTimes(ts) == Some(Quantity(Series.Progression(start, step, n), unit))
    ensures Duration(ts) == Some(Quantity([((n - 1) as real) * step], unit))
  {
    Series.ProgressionSpan(start, step, n);
  }

  // ---------------------------------------------------------------------------------------------
  // Properties of build

  lemma BuildRequiresValue(b: TimeSeriesBaseBuilder)
    requires b.value.None?
    ensures Build(b) == Failure(InvalidQuantity("Value is required to build TimeSeriesBase"))
  {
  }

  /** A successful build keeps the value, name and channel, defaults the unit, and is Valid. */
  lemma BuildStoresInputs(b: TimeSeriesBaseBuilder)
    requires Build(b).Success?
    ensures var ts := Build(b).value;
            && b.value.Some? && Value(ts) == b.value.value
            && UnitOf(ts) == Arrays.DefaultUnit(b.unit)
            && GetName(ts) == b.name && GetChannel(ts) == b.channel
            && Valid(ts)
  {
    var sb := SeriesBuilderFor(b, b.value.value).value;
    Series.BuildStoresInputs(sb);
  }

  /** Explicit `times` become the axis verbatim; t0, epoch, dt and sample_rate are then ignored. */
  lemma BuildWithTimes(b: TimeSeriesBaseBuilder)
    requires b.value.Some? && b.times.Some?
    ensures Build(b) == Build(b.(t0 := None, rawT0 := None, dt := None, sampleRate := None))
    ensures |b.times.value.values| != |b.value.value| ==>
              Build(b) == Failure(MismatchError(Series.IndexLengthMessage(|b.times.value.values|, |b.value.value|)))
    ensures |b.times.value.values| == |b.value.value| ==>
              var ts := Build(b).value;
              && Build(b).Success? && GetTimes(ts) == b.times
              && GetT0(ts).None? && GetDt(ts).None? && GetEpoch(ts).None? && GetSampleRate(ts).None?
  {
  }

  /** An epoch Time wins over a raw `t0`; the start becomes one value in seconds, and the epoch reads back unchanged. */
  lemma BuildEpochPrecedence(b: TimeSeriesBaseBuilder)
    requires b.value.Some? && b.times.None? && b.t0.Some?
    ensures Build(b) == Build(b.(rawT0 := None))
    ensures Build(b).Success? ==>
              && GetT0(Build(b).value) == Some(Quantity([AsGpsSeconds(b.t0.value)], Second))
              && GetEpoch(Build(b).value) == b.t0
  {
  }

  /** A raw `t0` alone becomes the start, one value in seconds. */
  lemma BuildRawT0(b: TimeSeriesBaseBuilder)
    requires b.value.Some? && b.times.None? && b.t0.None? && b.rawT0.Some?
    ensures Build(b).Success? ==>
              && GetT0(Build(b).value) == Some(Quantity([b.rawT0.value], Second))
              && GetEpoch(Build(b).value) == Some(FromGpsSeconds(b.rawT0.value))
  {
  }

  /** `dt` wins over `sample_rate`, which is then ignored, and is stored as given. */
  lemma BuildDtPrecedence(b: TimeSeriesBaseBuilder)
    requires b.value.Some? && b.times.None? && b.dt.Some?
    ensures Build(b) == Build(b.(sampleRate := None))
    ensures Build(b).Success? ==> GetDt(Build(b).value) == b.dt
  {
  }

  /** A `sample_rate` that is not a single value is rejected. */
  lemma BuildSampleRateNotScalar(b: TimeSeriesBaseBuilder)
    requires b.value.Some? && b.times.None? && b.dt.None? && b.sampleRate.Some?
    requires !IsScalar(b.sampleRate.value)
    ensures Build(b) == Failure(InvalidQuantity("Sample rate must be a scalar quantity."))
  {
  }

  /** A single non-zero frequency gives a step of one value in seconds, its reciprocal. */
  lemma ResolvedDtFromSampleRate(b: TimeSeriesBaseBuilder)
    requires b.dt.None? && b.sampleRate.Some?
    requires IsScalar(b.sampleRate.value) && b.sampleRate.value.values[0] != 0.0
    requires b.sampleRate.value.unit.dims == FrequencyDims
    ensures ResolvedDt(b).Success? && ResolvedDt(b).value.Some?
    ensures var dt, sr := ResolvedDt(b).value.value, b.sampleRate.value;
            && dt.unit == Second && IsScalar(dt)
            && dt.values[0] * (sr.values[0] * sr.unit.scale) == 1.0
  {
    ReciprocalConverted(b.sampleRate.value, Second);
  }

  lemma InverseUnique(a: real, c: real, d: real)
    requires a * d == 1.0 && c * d == 1.0
    ensures a == c
  {
    assert d != 0.0;
  }

  /**
   * Built from a single non-zero frequency (the build succeeds, by `ResolvedDtFromSampleRate` and
   * `BuildWithStep`), the series gives that frequency back in hertz from `get_sample_rate`.
   */
  lemma BuildSampleRateRoundTrip(b: TimeSeriesBaseBuilder, ts: TimeSeriesBase)
    requires b.value.Some? && b.times.None? && b.dt.None? && b.sampleRate.Some?
    requires IsScalar(b.sampleRate.value) && b.sampleRate.value.values[0] != 0.0
    requires b.sampleRate.value.unit.dims == FrequencyDims
    requires Build(b) == Success(ts)
    ensures SampleRateDefined(ts)
    ensures GetSampleRate(ts) == Some(Quantity([b.sampleRate.value.values[0] * b.sampleRate.value.unit.scale], Hertz))
  {
    ResolvedDtFromSampleRate(b);
    BuildWithStep(b);
    SampleRateOfStep(ts, b.sampleRate.value.values[0] * b.sampleRate.value.unit.scale);
  }

  /** A step of one value in seconds whose reciprocal is `f` gives the sample rate `f` hertz. */
  lemma SampleRateOfStep(ts: TimeSeriesBase, f: real)
    requires GetDt(ts).Some? && GetDt(ts).value.unit == Second && IsScalar(GetDt(ts).value)
    requires GetDt(ts).value.values[0] * f == 1.0
    ensures SampleRateDefined(ts) && GetSampleRate(ts) == Some(Quantity([f], Hertz))
  {
    var dt := GetDt(ts).value;
    var rate := GetSampleRate(ts).value;
    assert rate.values[0] * (dt.values[0] * 1.0) == 1.0;
    InverseUnique(rate.values[0], f, dt.values[0]);
    assert rate.values == [f];
  }

  /** Without `times`, a step of one value in seconds always builds, and becomes `dt`. */
  lemma BuildWithStep(b: TimeSeriesBaseBuilder)
    requires b.value.Some? && b.times.None?
    requires ResolvedDt(b).Success? && ResolvedDt(b).value.Some?
    requires ResolvedDt(b).value.value.unit == Second && IsScalar(ResolvedDt(b).value.value)
    ensures Build(b).Success? && GetDt(Build(b).value) == ResolvedDt(b).value
  {
    var sb := SeriesBuilderFor(b, b.value.value).value;
    assert sb.dx == ResolvedDt(b).value && sb.xindex.None? && sb.value.Some?;
    if sb.x0.Some? {
      Series.BuildStartStep(sb);
    } else {
      Series.BuildNoAxis(sb);
    }
    Series.BuildStoresInputs(sb);
  }

  // ---------------------------------------------------------------------------------------------
  // Arithmetic: each operator returns the Series operation's result, rewrapped, or its error.

  function Rewrap(r: Result<Series.Series, QuantityError>): (t: Result<TimeSeriesBase, QuantityError>)
    ensures t.Failure? <==> r.Failure?
    ensures t.Failure? ==> t.error == r.error
    ensures t.Success? ==> t.value.seriesData == r.value
  {
    match r
    case Failure(e) => Failure(e)
    case Success(s) => Success(TimeSeriesBase(s))
  }

  predicate ArithmeticDefined(lhs: TimeSeriesBase, rhs: TimeSeriesBase) {
    Series.ArithmeticDefined(lhs.seriesData, rhs.seriesData)
  }

  /** Arithmetic keeps every TimeSeriesBase Valid, since each merged field comes from a Valid operand. */
  lemma ArithmeticPreservesValid(lhs: TimeSeriesBase, rhs: TimeSeriesBase)
    requires ArithmeticDefined(lhs, rhs) && Valid(lhs) && Valid(rhs)
    ensures forall r <- [Series.Plus(lhs.seriesData, rhs.seriesData), Series.Minus(lhs.seriesData, rhs.seriesData),
                         Series.Times(lhs.seriesData, rhs.seriesData), Series.Over(lhs.seriesData, rhs.seriesData)] ::
              r.Success? ==> Valid(TimeSeriesBase(r.value))
  {
    Series.ArithmeticResults(lhs.seriesData, rhs.seriesData);
  }

  method Add(lhs: TimeSeriesBase, rhs: TimeSeriesBase) returns (r: Result<TimeSeriesBase, QuantityError>)
    requires ArithmeticDefined(lhs, rhs)
    ensures r == Rewrap(Series.Plus(lhs.seriesData, rhs.seriesData))
  {
    var resultSeries := Series.Add(lhs.seriesData, rhs.seriesData);
    if resultSeries.Failure? {
      return Failure(resultSeries.error);
    }
    return Success(TimeSeriesBase(resultSeries.value));
  }

  method Sub(lhs: TimeSeriesBase, rhs: TimeSeriesBase) returns (r: Result<TimeSeriesBase, QuantityError>)
    requires ArithmeticDefined(lhs, rhs)
    ensures r == Rewrap(Series.Minus(lhs.seriesData, rhs.seriesData))
  {
    var resultSeries := Series.Sub(lhs.seriesData, rhs.seriesData);
    if resultSeries.Failure? {
      return Failure(resultSeries.error);
    }
    return Success(TimeSeriesBase(resultSeries.value));
  }

  method Mul(lhs: TimeSeriesBase, rhs: TimeSeriesBase) returns (r: Result<TimeSeriesBase, QuantityError>)
    requires ArithmeticDefined(lhs, rhs)
    ensures r == Rewrap(Series.Times(lhs.seriesData, rhs.seriesData))
  {
    var resultSeries := Series.Mul(lhs.seriesData, rhs.seriesData);
    return Success(TimeSeriesBase(resultSeries.value));
  }

  method Div(lhs: TimeSeriesBase, rhs: TimeSeriesBase) returns (r: Result<TimeSeriesBase, QuantityError>)
    requires ArithmeticDefined(lhs, rhs)
    ensures r == Rewrap(Series.Over(lhs.seriesData, rhs.seriesData))
  {
    var resultSeries := Series.Div(lhs.seriesData, rhs.seriesData);
    if resultSeries.Failure? {
      return Failure(resultSeries.error);
    }
    return Success(TimeSeriesBase(resultSeries.value));
  }
}
