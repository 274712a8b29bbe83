# gwrs core, modelled in Dafny

This project models the data-handling core of gwrs, a Rust library for gravitational-wave data.
It covers four source files:

- `src/segments/core.rs`: `Segment`, the semi-open interval `[start, end)`. It has a normalising
  constructor, containment, emptiness, intersection (`&`), hull union (`|`), a five-way difference
  (`-`) and the derived lexicographic order.
- `src/types/array.rs`: `GWArray`, a unit-carrying quantity with an optional name, epoch and
  channel. Conversion and the four arithmetic operators give the result the left operand's metadata.
- `src/types/series.rs`: `Series` and its `SeriesBuilder`. A series is a `GWArray` plus an x-axis.
  The axis is either given outright (`xindex`) or derived as `x0 + i * dx` by a loop. Arithmetic
  merges the operands' metadata, left first, and re-derives the axis when the cached one no longer
  fits.
- `src/timeseries/core.rs`: `TimeSeriesBase` and its builder. The builder turns an epoch, a raw
  `t0`, `dt`, `sample_rate` or explicit `times` into a `Series`. The accessors are `get_epoch`,
  `get_sample_rate` (`1 / dt` in hertz) and `duration`.

The external units-and-time crate is not part of this model. Its behaviour as gwrs relies on it
(units with a positive scale and a dimension vector, conversion, elementwise arithmetic with
broadcasting, GPS time) is written as the `Units` module, with contracts. `Wrappers` holds
`Option` and `Result`. `Decimal` renders a `usize` the way `{}` does in an error message.

Every builder is a value with one setter per field. Each `build` is a function. A method with the
source's control flow (`Series.BuildSeries`, `TimeSeries.BuildTimeSeriesBase`) is proved equal to
it. The axis loop is `Series.FillProgression`, proved equal to `Series.Progression`.

Segment difference (src/segments/core.rs:145-166) is not the set difference in two cases, and both
are modelled as the code computes them:

- An `rhs` strictly inside `self` keeps only the left part, `[self.start, rhs.start)` (line 158).
- An `rhs` that starts at `self.start` and ends inside `self` falls through to the empty segment at
  line 165, although `[rhs.end, self.end)` remains.

## Model

| member | source | states |
|---|---|---|
| Wrappers.Or | src/types/series.rs:199-208 | `lhs.or(rhs)`: the left value when present, else the right one |
| Decimal.DigitChar | src/types/series.rs:90-94 | the character of a decimal digit is a digit and denotes that digit |
| Decimal.DigitValue | src/types/series.rs:90-94 | the value of a digit character, which renders back to that character |
| Decimal.NatToString | src/types/series.rs:90-94 | a length printed by `{}` is non-empty, all digits, without a leading zero |
| Decimal.ParseNatToString | src/types/series.rs:90-94 | reading the printed length back gives the length, so the message loses nothing |
| Decimal.NatToStringInjective | src/types/series.rs:90-94 | different lengths print differently |
| Units.Dimensionless | src/timeseries/core.rs:104-107 | the default unit is named "", has scale 1 and no dimensions |
| Units.GpsSecondsRoundTrip | src/timeseries/core.rs:119-124 | `Time::from_gps_seconds` and `as_gps_seconds_f64` are inverse |
| Units.To | src/types/array.rs:55-64 | conversion succeeds exactly when dimensions agree, else fails naming both units; it keeps the length, and each value times the target scale equals the source value times the source scale |
| Units.ToRoundTrip | src/types/array.rs:55-64 | converting to a unit of equal dimensions and back restores the quantity exactly |
| Units.BroadcastLen | src/types/array.rs:69-121 | the result length of broadcast operands is the length of the one that is not a single value |
| Units.QAdd | src/types/array.rs:69-82 | `+` succeeds exactly when the units are identical, else fails with IncompatibleAddition naming the left unit, then the right; the sum keeps the unit and has the broadcast length |
| Units.QSub | src/types/array.rs:83-95 | `-` likewise, with IncompatibleSubtraction |
| Units.QMul | src/types/array.rs:96-108 | `*` never fails; its dimensions are the sum of the operands' dimensions, with the broadcast length |
| Units.QDiv | src/types/array.rs:109-121 | `/` fails with DivisionByZero exactly when a divisor value is zero; otherwise its dimensions are the difference, and each quotient times its divisor gives the dividend |
| Units.ReciprocalShape | src/timeseries/core.rs:144-148 | `1 / q` for a `q` without zeros succeeds with one value per value of `q`, in the inverse dimensions |
| Units.ReciprocalValues | src/timeseries/core.rs:203-212 | each value of `1 / q` times the matching value of `q` is 1, and so is the product of their scales |
| Units.ReciprocalConverted | src/timeseries/core.rs:144-148 | `1 / q` converted to a unit of inverse dimensions is, in coherent units, the elementwise inverse of `q` |
| Segments.New | src/segments/core.rs:49-58 | `Segment::new` is normalised and holds the two bounds in some order |
| Segments.NewSymmetric | src/segments/core.rs:49-58 | the order of the arguments of `Segment::new` does not matter |
| Segments.NewOfValid | src/segments/core.rs:49-68 | a normalised segment is rebuilt unchanged from `start()` and `end()` |
| Segments.Start | src/segments/core.rs:61-63 | `start()` of a normalised segment is at most its end |
| Segments.End | src/segments/core.rs:66-68 | `end()` of a normalised segment is at least its start |
| Segments.Contains | src/segments/core.rs:71-73 | `contains`: a segment that contains a normalised segment is itself normalised |
| Segments.IsEmpty | src/segments/core.rs:76-78 | `is_empty`: an empty segment is normalised, and every normalised segment it contains is empty |
| Segments.IsEmptyCoversNothing | src/segments/core.rs:76-78 | a normalised segment is empty exactly when it covers no point |
| Segments.ContainsReflexive | src/segments/core.rs:71-73 | every segment contains itself, the empty one included |
| Segments.ContainsIffCoversSubset | src/segments/core.rs:71-73 | for a non-empty segment, containment is exactly inclusion of covered points |
| Segments.ContainsTransitive | src/segments/core.rs:71-73 | containment is transitive |
| Segments.Intersect | src/segments/core.rs:94-103 | `&` is the overlap when there is one, else the empty segment at the larger start; the result is normalised |
| Segments.IntersectCommutative | src/segments/core.rs:94-103 | `&` is commutative |
| Segments.IntersectCovers | src/segments/core.rs:94-103 | `&` covers exactly the points both operands cover |
| Segments.IntersectContained | src/segments/core.rs:94-103 | a non-empty intersection lies inside both operands |
| Segments.Union | src/segments/core.rs:118-123 | `|` contains both normalised operands |
| Segments.UnionCommutative | src/segments/core.rs:118-123 | `|` is commutative |
| Segments.UnionSmallest | src/segments/core.rs:118-123 | `|` is the smallest segment that contains both operands |
| Segments.UnionFillsGap | src/segments/core.rs:233-243 | `[0,5) | [10,15)` is `[0,15)`, which covers 7, a point that neither operand covers |
| Segments.Difference | src/segments/core.rs:145-166 | the five cases of `-`: disjoint gives `self`; covered gives empty; a cut from inside gives the left part; an overlap from the left gives the right part; otherwise empty at `self.start`; a normalised `self` contains the result |
| Segments.DifferenceSound | src/segments/core.rs:145-166 | every point the difference covers is in `self` and not in `rhs` |
| Segments.DifferenceExact | src/segments/core.rs:145-166 | unless `rhs` starts at or after `self.start` and ends before `self.end`, the difference covers exactly the points of `self` outside `rhs` |
| Segments.DifferenceInteriorKeepsLeft | src/segments/core.rs:154-160 | an `rhs` strictly inside `self` gives the left part and drops points of the right part |
| Segments.DifferenceSharedStartIsEmpty | src/segments/core.rs:158-165 | an `rhs` sharing `self.start` and ending inside `self` gives the empty segment, though `[rhs.end, self.end)` is not covered by `rhs` |
| Segments.Less | src/segments/core.rs:38-42 | the derived `<` never relates a segment to itself and never puts a later start first |
| Segments.LessEq | src/segments/core.rs:38-42 | the derived `<=` holds exactly when `>` does not |
| Segments.LessIsStrictTotalOrder | src/segments/core.rs:38-42 | the derived `<` (by start, then end) is irreflexive, transitive, total and asymmetric; `<=` is the negation of `>`; equality is equality of both bounds |
| Arrays.DefaultUnit | src/types/array.rs:15-33 | a given unit is used; otherwise the dimensionless unit |
| Arrays.New | src/types/array.rs:15-33 | the accessors return the value, name, epoch and channel given and the defaulted unit |
| Arrays.Value | src/types/array.rs:35-38 | `value()`: the stored values; no contract of its own, its results are stated by Arrays.New and the operations |
| Arrays.UnitOf | src/types/array.rs:39-42 | `unit()`: the stored unit; stated through Arrays.New and Arrays.To |
| Arrays.GetName | src/types/array.rs:43-46 | `get_name()`: the stored name; stated through Arrays.New |
| Arrays.GetEpoch | src/types/array.rs:47-50 | `get_epoch()`: the stored epoch; stated through Arrays.New |
| Arrays.GetChannel | src/types/array.rs:51-54 | `get_channel()`: the stored channel; stated through Arrays.New |
| Arrays.WithQuantityOf | src/types/array.rs:55-121 | a collaborator's error is returned unchanged; otherwise its quantity with the left operand's metadata |
| Arrays.To | src/types/array.rs:55-64 | `to` succeeds exactly when the dimensions agree, else IncompatibleUnits; it keeps length and metadata and takes the target unit |
| Arrays.ToRoundTrip | src/types/array.rs:55-64 | converting an array there and back gives the original array |
| Arrays.Add | src/types/array.rs:69-82 | `+` fails exactly when the quantity sum fails, with its error; otherwise it is that sum with the left metadata |
| Arrays.Sub | src/types/array.rs:83-95 | `-` likewise, for the quantity difference |
| Arrays.Mul | src/types/array.rs:96-108 | `*` always succeeds with the quantity product and the left metadata |
| Arrays.Div | src/types/array.rs:109-121 | `/` fails exactly when the quantity quotient fails, with its error; otherwise it is that quotient with the left metadata |
| Arrays.OperationLengths | src/types/array.rs:69-121 | every successful operation has the broadcast length of its operands |
| Arrays.AddDifferentUnitsFails | src/types/array.rs:188-227 | adding arrays whose units differ (even m and cm) fails, naming the left unit, then the right |
| Arrays.AddSameUnit | src/types/array.rs:176-187 | arrays in one unit add elementwise, keep the unit and take the left metadata |
| Series.NewBuilder | src/types/series.rs:28-39 | a new builder has every field unset |
| Series.SetValue | src/types/series.rs:41-45 | sets the value and changes nothing else |
| Series.SetUnit | src/types/series.rs:46-50 | sets the unit and changes nothing else |
| Series.SetName | src/types/series.rs:51-55 | sets the name and changes nothing else |
| Series.SetEpoch | src/types/series.rs:56-60 | sets the epoch and changes nothing else |
| Series.SetChannel | src/types/series.rs:61-65 | sets the channel and changes nothing else |
| Series.SetX0 | src/types/series.rs:66-70 | sets x0 and changes nothing else |
| Series.SetDx | src/types/series.rs:71-75 | sets dx and changes nothing else |
| Series.SetXIndex | src/types/series.rs:76-79 | sets the explicit index and changes nothing else |
| Series.Value | src/types/series.rs:158-160 | `value()`: the array's values; stated through Series.BuildStoresInputs and Series.PropagateMetadata |
| Series.UnitOf | src/types/series.rs:161-163 | `unit()`: the array's unit; stated through Series.BuildStoresInputs and Series.Plus |
| Series.GetName | src/types/series.rs:164-166 | `get_name()`: stated through Series.BuildStoresInputs and Series.PropagateMetadata |
| Series.GetEpoch | src/types/series.rs:167-169 | `get_epoch()`: stated through Series.BuildStoresInputs and Series.PropagateMetadata |
| Series.GetChannel | src/types/series.rs:170-173 | `get_channel()`: stated through Series.BuildStoresInputs and Series.PropagateMetadata |
| Series.GetX0 | src/types/series.rs:174-176 | `get_x0()`: stated through Series.BuildStoresInputs and Series.PropagateMetadata |
| Series.GetDx | src/types/series.rs:177-179 | `get_dx()`: stated through Series.BuildStoresInputs and Series.PropagateMetadata |
| Series.GetXIndex | src/types/series.rs:180-182 | `get_xindex()`: the resolved axis; stated through Series.BuildExplicitIndex, Series.BuildStartStep and Series.PropagateAxis |
| Series.GetXUnit | src/types/series.rs:183-193 | the axis unit is that of the index, else of x0, else of dx; absent exactly when all three are |
| Series.Progression | src/types/series.rs:110-113 | the filled axis has `n` values, starts at the start, and consecutive values differ by the step |
| Series.ProgressionSpan | src/types/series.rs:110-113 | last minus first value of the filled axis is `n - 1` steps |
| Series.FillProgression | src/types/series.rs:108-114 | the loop `x[i] = start + i * step` produces exactly the progression |
| Series.StepIn | src/types/series.rs:104-109 | dx converted into x0's unit denotes the same amount as dx |
| Series.DerivedAxis | src/types/series.rs:97-114 | the derived axis is in x0's unit, has the data length, and its i-th value is `x0 + i * dx` |
| Series.ResolveIndex | src/types/series.rs:88-121 | a resolved index has the data length |
| Series.IndexLengthMessage | src/types/series.rs:90-94 | the mismatch message; its content is stated by Series.IndexLengthMessageInjective and Series.IndexLengthMessageExample |
| Series.IndexLengthMessageInjective | src/types/series.rs:90-94 | the message names both lengths exactly: equal messages mean equal index and value lengths |
| Series.Build | src/types/series.rs:82-131 | every built series has an axis of the data length, if any |
| Series.BuildSeries | src/types/series.rs:82-131 | the step-by-step build returns what `Series.Build` specifies |
| Series.BuildRequiresValue | src/types/series.rs:83-85 | a missing value fails with "Value is required to build Series" |
| Series.BuildStoresInputs | src/types/series.rs:86-131 | a successful build keeps the value, name, epoch, channel, x0 and dx, and defaults the unit |
| Series.BuildExplicitIndex | src/types/series.rs:88-97 | an explicit index of the wrong length fails with the mismatch message; one of the right length is used verbatim |
| Series.IndexLengthMessageExample | src/types/series.rs:512-528 | the mismatch message for lengths 2 and 3 reads "Index length (2) must match value length (3)" |
| Series.BuildStartStep | src/types/series.rs:98-114 | x0 or dx that is not a single value fails first; different dimensions fail second; otherwise the axis is `x0 + i * dx` in x0's unit |
| Series.BuildNoAxis | src/types/series.rs:115-117 | without an index and without both x0 and dx, the build succeeds with no axis |
| Series.BuildSixSampleAxis | src/types/series.rs:322-362 | x0 = 0 W, dx = 2 W over six values give the axis 0, 2, 4, 6, 8, 10 W |
| Series.ReDerivedAxis | src/types/series.rs:211-253 | the re-derived axis has the data length; a cached axis of that length is kept as it is |
| Series.Propagate | src/types/series.rs:197-267 | a propagated series has an axis of its data length, if any |
| Series.PropagateMetadataSeries | src/types/series.rs:197-267 | the step-by-step propagation returns what `Series.Propagate` specifies |
| Series.PropagateMetadata | src/types/series.rs:197-209 | value and unit come from the result; name, epoch, channel, x0 and dx each from the left operand, else the right |
| Series.PropagateAxis | src/types/series.rs:210-253 | the merged cached axis is kept if its length fits; otherwise the axis is re-derived from single-valued merged x0 and dx; otherwise there is none |
| Series.Combine | src/types/series.rs:269-308 | an array error is passed on unchanged; otherwise the result is the propagated series |
| Series.Plus | src/types/series.rs:269-275 | `+` fails exactly when the units differ, with IncompatibleAddition; otherwise it keeps the unit and a fitting axis |
| Series.Minus | src/types/series.rs:298-308 | `-` fails exactly when the units differ, with IncompatibleSubtraction; otherwise it keeps the unit and a fitting axis |
| Series.Times | src/types/series.rs:287-297 | `*` always succeeds, in the product dimensions, with a fitting axis |
| Series.Over | src/types/series.rs:276-286 | `/` fails with DivisionByZero exactly when a divisor is zero; otherwise it is in the quotient dimensions, with a fitting axis |
| Series.ArithmeticResults | src/types/series.rs:197-308 | every successful operator result has the broadcast length and merges name, epoch, channel, x0 and dx left first |
| Series.Add | src/types/series.rs:269-275 | the operator method returns what `Series.Plus` specifies |
| Series.Sub | src/types/series.rs:298-308 | the operator method returns what `Series.Minus` specifies |
| Series.Mul | src/types/series.rs:287-297 | the operator method returns what `Series.Times` specifies |
| Series.Div | src/types/series.rs:276-286 | the operator method returns what `Series.Over` specifies |
| TimeSeries.NewBuilder | src/timeseries/core.rs:41-53 | a new builder has every field unset |
| TimeSeries.SetValue | src/timeseries/core.rs:56-59 | sets the value and changes nothing else |
| TimeSeries.SetUnit | src/timeseries/core.rs:60-63 | sets the unit and changes nothing else |
| TimeSeries.SetName | src/timeseries/core.rs:64-67 | sets the name and changes nothing else |
| TimeSeries.SetChannel | src/timeseries/core.rs:68-72 | sets the channel and changes nothing else |
| TimeSeries.SetEpoch | src/timeseries/core.rs:73-77 | `epoch` sets the t0 Time and changes nothing else |
| TimeSeries.SetT0 | src/timeseries/core.rs:78-82 | `t0` sets the raw float start and changes nothing else |
| TimeSeries.SetDt | src/timeseries/core.rs:83-87 | sets dt and changes nothing else |
| TimeSeries.SetSampleRate | src/timeseries/core.rs:88-92 | sets the sample rate and changes nothing else |
| TimeSeries.SetTimes | src/timeseries/core.rs:93-97 | sets the explicit times and changes nothing else |
| TimeSeries.ResolvedT0 | src/timeseries/core.rs:119-128 | an epoch Time wins over a raw float; either becomes one value in seconds; absent when neither is set |
| TimeSeries.ResolvedDt | src/timeseries/core.rs:134-152 | dt wins; with neither set there is no step; a sample rate that is not a single value is rejected; a derived step is one value in seconds |
| TimeSeries.SeriesBuilderFor | src/timeseries/core.rs:104-156 | the Series builder gets the value, the defaulted unit, name and channel; explicit times become the index with no x0 or dx; otherwise x0 is the resolved t0, dx the resolved step, and a step error is returned unchanged |
| TimeSeries.Build | src/timeseries/core.rs:99-160 | a missing value fails with "Value is required to build TimeSeriesBase"; a built series keeps the value and is Valid (axis of data length, t0 a single value in seconds) |
| TimeSeries.BuildTimeSeriesBase | src/timeseries/core.rs:99-160 | the step-by-step build, threading a reassigned Series builder, returns what `TimeSeries.Build` specifies |
| TimeSeries.Value | src/timeseries/core.rs:177-179 | `value()`: stated through TimeSeries.Build |
| TimeSeries.UnitOf | src/timeseries/core.rs:180-182 | `unit()`: stated through TimeSeries.BuildStoresInputs |
| TimeSeries.GetName | src/timeseries/core.rs:183-185 | `get_name()`: stated through TimeSeries.BuildStoresInputs |
| TimeSeries.GetChannel | src/timeseries/core.rs:186-188 | `get_channel()`: stated through TimeSeries.BuildStoresInputs |
| TimeSeries.GetT0 | src/timeseries/core.rs:189-191 | `get_t0()`: the axis start; stated through TimeSeries.BuildEpochPrecedence and TimeSeries.BuildRawT0 |
| TimeSeries.GetDt | src/timeseries/core.rs:192-194 | `get_dt()`: the step; stated through TimeSeries.BuildDtPrecedence and TimeSeries.BuildWithStep |
| TimeSeries.GetTimes | src/timeseries/core.rs:195-197 | `get_times()`: the axis; stated through TimeSeries.BuildWithTimes |
| TimeSeries.GetEpoch | src/timeseries/core.rs:198-202 | the epoch is absent exactly when t0 is, and its GPS seconds are t0's first value |
| TimeSeries.GetSampleRate | src/timeseries/core.rs:203-212 | the sample rate is absent exactly when dt is; it is in hertz, one rate per step, and each rate times its step in seconds is 1 |
| TimeSeries.Duration | src/timeseries/core.rs:213-226 | absent exactly without an axis; one value in the axis unit: last minus first value, or 0 for an empty axis |
| TimeSeries.DurationOfEvenAxis | src/timeseries/core.rs:213-226 | on an evenly spaced axis of `n > 0` samples the duration is `n - 1` steps |
| TimeSeries.BuildRequiresValue | src/timeseries/core.rs:101-103 | a missing value fails with "Value is required to build TimeSeriesBase" |
| TimeSeries.BuildStoresInputs | src/timeseries/core.rs:101-113 | a successful build keeps value, name and channel, defaults the unit, and yields a Valid series (axis of data length, t0 a single value in seconds) |
| TimeSeries.BuildWithTimes | src/timeseries/core.rs:114-116 | explicit times make t0, epoch, dt and sample rate irrelevant; the wrong length fails with the mismatch message; otherwise times are the axis and t0, dt, epoch and sample rate are absent |
| TimeSeries.BuildEpochPrecedence | src/timeseries/core.rs:119-131 | an epoch Time makes the raw t0 irrelevant; t0 becomes its GPS seconds, and `get_epoch` returns the epoch given |
| TimeSeries.BuildRawT0 | src/timeseries/core.rs:125-131 | a raw t0 alone becomes the start in seconds, and `get_epoch` returns it as GPS time |
| TimeSeries.BuildDtPrecedence | src/timeseries/core.rs:134-135 | dt makes the sample rate irrelevant and is stored as given |
| TimeSeries.BuildSampleRateNotScalar | src/timeseries/core.rs:136-143 | a sample rate that is not a single value fails with "Sample rate must be a scalar quantity." |
| TimeSeries.ResolvedDtFromSampleRate | src/timeseries/core.rs:136-149 | a single non-zero frequency gives a step of one value in seconds whose product with the frequency in hertz is 1 |
| TimeSeries.BuildWithStep | src/timeseries/core.rs:153-159 | without times, a step of one value in seconds always builds and becomes dt |
| TimeSeries.SampleRateOfStep | src/timeseries/core.rs:203-212 | a step in seconds whose inverse is `f` gives the sample rate `f` hertz |
| TimeSeries.BuildSampleRateRoundTrip | src/timeseries/core.rs:136-212 | a series built from a single non-zero frequency gives that frequency back in hertz from `get_sample_rate` |
| TimeSeries.Rewrap | src/timeseries/core.rs:231-264 | a Series error is passed on unchanged; otherwise the Series is wrapped |
| TimeSeries.ArithmeticPreservesValid | src/timeseries/core.rs:231-264 | every successful operator result of Valid operands is Valid |
| TimeSeries.Add | src/timeseries/core.rs:231-238 | the operator returns the Series sum, rewrapped, or its error |
| TimeSeries.Sub | src/timeseries/core.rs:257-264 | the operator returns the Series difference, rewrapped, or its error |
| TimeSeries.Mul | src/timeseries/core.rs:248-255 | the operator returns the Series product, rewrapped |
| TimeSeries.Div | src/timeseries/core.rs:240-247 | the operator returns the Series quotient, rewrapped, or its error |

## Left out

- The units-and-time crate is not part of this model. `Units` states what gwrs relies on, as assumptions:
  - a unit scale is positive;
  - `+` and `-` need identical units and report `IncompatibleAddition` or `IncompatibleSubtraction`;
  - `/` fails with `DivisionByZero` exactly on a zero divisor;
  - a single-valued operand is broadcast;
  - product and quotient units are named `a*b` and `a/b`.
- Units.BroadcastLen: operands that cannot be broadcast make ndarray panic; the model requires broadcastable lengths of every caller instead.
- Dimension exponents are integers in the crate and reals here. The model only compares, adds and subtracts them, so nothing depends on the difference.
- `f64` arithmetic (rounding, NaN, infinities, `-0.0`) is not modelled; values are exact reals. Segment comparisons with NaN, which make the derived `PartialOrd` partial, are therefore out of scope.
- Channel metadata (src/detector/channel.rs) is reduced to its name; gwrs only carries it and compares it.
- The stale duplicate src/array.rs, src/lib.rs, `Default` impls and `Debug`/`Display` output are not part of this model.
- Series.ReDerivedAxis: the `expect` on converting the merged dx into x0's unit panics; the model requires instead that the conversion succeeds wherever it is reached (`Series.RecomputeConverts`).
- TimeSeries.GetEpoch: reading `t0.value[0]` panics on an empty t0; the model requires a non-empty t0 (`TimeSeries.EpochDefined`), which every built series has.
- TimeSeries.GetSampleRate: the two `expect`s panic on a zero step or a step that is not a time; the model requires that dt is neither (`TimeSeries.SampleRateDefined`).
- Series.Build: the `?` on converting dx to x0's unit cannot fail after the dimensions check, so that error path is absent.
- TimeSeries.ResolvedDtFromSampleRate: the step is stated as the value whose product with the frequency is 1, not as the closed form `1 / (v * scale)`.
- TimeSeries.BuildSampleRateRoundTrip: takes the built series as a parameter, together with the requirement that it is the build result.
- TimeSeries.DurationOfEvenAxis: stated for any evenly spaced axis (a `Series.Progression`). The axis derived from t0 and dt is one by `Series.DerivedAxis`.
- Rust's ownership and cloning have no observable effect on the values and are not modelled.
