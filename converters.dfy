/** AQI -> concentration converters (src/aiowaqi/converters.py).

    Each converter is a type/sign guard, an ordered chain of interval tests and a
    fall-through error. A test that passes selects a segment of the breakpoint
    table, and the result is the inverse linear interpolation over that segment,
    rounded to one decimal (PM2.5, CO) or to an integer (the other four series).
    Numbers are exact reals; a Python float NaN and a value that is not an int or
    a float are separate input variants. */
module Converters {
  import opened Results

  /** The argument of a converter: an int or float (as an exact real), a float NaN,
      or a value of any other type (a string, None, ...). */
  datatype AqiInput = Number(value: real) | NaN | NonNumeric

  /** The four `ValueError` messages the converters raise. */
  datatype ConversionError = NotANonNegativeNumber | OutOfRange | UseOneHourOzone | UseEightHourOzone
  {
    function Message(): string
    {
      match this
      case NotANonNegativeNumber => "AQI must be a non-negative number"
      case OutOfRange => "AQI out of range"
      case UseOneHourOzone => "For AQI > 300, use 1-hour Ozone values"
      case UseEightHourOzone => "For AQI <= 100, use 8-hour Ozone values"
    }
  }

  /** `inv_linear`: the concentration on the straight line through
      (aqiLow, concLow) and (aqiHigh, concHigh), at `aqi`. */
  function InvLinear(aqiHigh: real, aqiLow: real, concHigh: real, concLow: real, aqi: real): (r: real)
    requires aqiHigh != aqiLow
    ensures aqi == aqiLow ==> r == concLow
    ensures aqi == aqiHigh ==> r == concHigh
    ensures (r - concLow) * (aqiHigh - aqiLow) == (aqi - aqiLow) * (concHigh - concLow)
  {
    var t := (aqi - aqiLow) / (aqiHigh - aqiLow);
    assert t * (aqiHigh - aqiLow) == aqi - aqiLow;
    t * (concHigh - concLow) + concLow
  }

  /** One row of a breakpoint table: the AQI interval and the concentration interval it maps onto. */
  datatype Segment = Segment(aqiLow: real, aqiHigh: real, concLow: real, concHigh: real)
  {
    predicate Valid()
    {
      aqiLow < aqiHigh && concLow <= concHigh
    }

    /** The interpolated (unrounded) concentration for `aqi` on this segment's line. */
    function At(aqi: real): real
      requires Valid()
    {
      InvLinear(aqiHigh, aqiLow, concHigh, concLow, aqi)
    }

    /** `aqi` lies within the segment's AQI interval. */
    predicate Covers(aqi: real)
    {
      aqiLow <= aqi <= aqiHigh
    }

    /** Both concentration breakpoints are whole numbers. */
    predicate WholeBreakpoints()
    {
      IsWhole(concLow) && IsWhole(concHigh)
    }

    /** Both concentration breakpoints are multiples of 0.1. */
    predicate TenthBreakpoints()
    {
      IsWhole(concLow * 10.0) && IsWhole(concHigh * 10.0)
    }
  }

  predicate IsWhole(v: real)
  {
    v.Floor as real == v
  }

  lemma InvLinearWithin(seg: Segment, aqi: real)
    requires seg.Valid() && seg.aqiLow <= aqi <= seg.aqiHigh
    ensures seg.concLow <= seg.At(aqi) <= seg.concHigh
  {
    var t := (aqi - seg.aqiLow) / (seg.aqiHigh - seg.aqiLow);
    var d := seg.concHigh - seg.concLow;
    assert 0.0 <= t <= 1.0;
    assert 0.0 <= t * d <= d by {
      assert t * d <= 1.0 * d;
    }
  }

  lemma InvLinearMonotone(seg: Segment, x: real, y: real)
    requires seg.Valid() && x <= y
    ensures seg.At(x) <= seg.At(y)
  {
    var w := seg.aqiHigh - seg.aqiLow;
    var d := seg.concHigh - seg.concLow;
    var tx := (x - seg.aqiLow) / w;
    var ty := (y - seg.aqiLow) / w;
    assert tx <= ty;
    assert tx * d <= ty * d;
  }

  /** Python's `round` to an integer: the nearest integer, ties to the even one. */
  function RoundHalfEven(x: real): (n: int)
    ensures x - 0.5 <= n as real <= x + 0.5
    ensures (n as real - x == 0.5 || x - n as real == 0.5) ==> n % 2 == 0
  {
    var f := x.Floor;
    var d := x - f as real;
    if d < 0.5 then f
    else if d > 0.5 then f + 1
    else if f % 2 == 0 then f
    else f + 1
  }

  /** The two postconditions of RoundHalfEven pin its result down. */
  lemma RoundHalfEvenUnique(x: real, n: int)
    requires x - 0.5 <= n as real <= x + 0.5
    requires (n as real - x == 0.5 || x - n as real == 0.5) ==> n % 2 == 0
    ensures n == RoundHalfEven(x)
  {
  }

  lemma RoundHalfEvenMonotone(x: real, y: real)
    requires x <= y
    ensures RoundHalfEven(x) <= RoundHalfEven(y)
  {
  }

  lemma RoundHalfEvenBetween(v: real, lo: int, hi: int)
    requires lo as real <= v <= hi as real
    ensures lo <= RoundHalfEven(v) <= hi
  {
  }

  /** `round(value, 1)` on an exact value. */
  function RoundToTenth(value: real): real
  {
    RoundHalfEven(value * 10.0) as real / 10.0
  }

  /** Rounding to one decimal lands on a whole number of tenths within half a
      tenth of the value. */
  lemma RoundToTenthNearest(value: real)
    ensures IsWhole(RoundToTenth(value) * 10.0)
    ensures value - 0.05 <= RoundToTenth(value) <= value + 0.05
  {
    var n := RoundHalfEven(value * 10.0);
    assert RoundToTenth(value) * 10.0 == n as real;
  }

  /** `to_int`: `int(round(value, 0))`. */
  function ToInt(value: real): int
  {
    RoundHalfEven(value)
  }

  // ---------------------------------------------------------------------------
  // The interval chains. Each returns the segment of the first test that passes,
  // or None when the chain falls through.

  /** converters.py:40-51 */
  function Pm25Segment(aqi: real): (s: Option<Segment>)
    ensures s.Some? ==> s.value.Valid() && s.value.TenthBreakpoints()
    ensures s.Some? ==> s.value.Covers(aqi) || aqi > 500.0 || 300.0 < aqi < 301.0
    ensures s.Some? ==> s.value.At(aqi) >= 0.0
  {
    if 0.0 <= aqi <= 50.0 then Some(Segment(0.0, 50.0, 0.0, 9.0))
    else if 51.0 <= aqi <= 100.0 then Some(Segment(51.0, 100.0, 9.1, 35.4))
    else if 101.0 <= aqi <= 150.0 then Some(Segment(101.0, 150.0, 35.5, 55.4))
    else if 151.0 <= aqi <= 200.0 then Some(Segment(151.0, 200.0, 55.5, 125.4))
    else if 201.0 <= aqi <= 300.0 then Some(Segment(201.0, 300.0, 125.5, 225.4))
    else if 301.0 <= aqi <= 500.0 || aqi > 500.0 then Some(Segment(301.0, 500.0, 225.5, 325.4))
    else None
  }

  /** converters.py:63-74 */
  function Pm10Segment(aqi: real): (s: Option<Segment>)
    ensures s.Some? ==> s.value.Valid() && s.value.WholeBreakpoints()
    ensures s.Some? ==> s.value.Covers(aqi) || aqi > 500.0 || 300.0 < aqi < 301.0
  {
    if 0.0 <= aqi <= 50.0 then Some(Segment(0.0, 50.0, 0.0, 54.0))
    else if 51.0 <= aqi <= 100.0 then Some(Segment(51.0, 100.0, 55.0, 154.0))
    else if 101.0 <= aqi <= 150.0 then Some(Segment(101.0, 150.0, 155.0, 254.0))
    else if 151.0 <= aqi <= 200.0 then Some(Segment(151.0, 200.0, 255.0, 354.0))
    else if 201.0 <= aqi <= 300.0 then Some(Segment(201.0, 300.0, 355.0, 424.0))
    else if 301.0 <= aqi <= 500.0 || aqi > 500.0 then Some(Segment(301.0, 500.0, 425.0, 604.0))
    else None
  }

  /** converters.py:88-99 */
  function CoSegment(aqi: real): (s: Option<Segment>)
    ensures s.Some? ==> s.value.Valid() && s.value.TenthBreakpoints()
    ensures s.Some? ==> s.value.Covers(aqi) || aqi > 500.0 || 300.0 < aqi < 301.0
    ensures s.Some? ==> s.value.At(aqi) >= 0.0
  {
    if 0.0 <= aqi <= 50.0 then Some(Segment(0.0, 50.0, 0.0, 4.4))
    else if 51.0 <= aqi <= 100.0 then Some(Segment(51.0, 100.0, 4.5, 9.4))
    else if 101.0 <= aqi <= 150.0 then Some(Segment(101.0, 150.0, 9.5, 12.4))
    else if 151.0 <= aqi <= 200.0 then Some(Segment(151.0, 200.0, 12.5, 15.4))
    else if 201.0 <= aqi <= 300.0 then Some(Segment(201.0, 300.0, 15.5, 30.4))
    else if 301.0 <= aqi <= 500.0 || aqi > 500.0 then Some(Segment(301.0, 500.0, 30.5, 50.4))
    else None
  }

  /** converters.py:111-120; there is no segment above 300. */
  function Ozone8hSegment(aqi: real): (s: Option<Segment>)
    ensures s.Some? ==> s.value.Valid() && s.value.WholeBreakpoints()
    ensures s.Some? ==> s.value.Covers(aqi) || aqi > 500.0 || 300.0 < aqi < 301.0
  {
    if 0.0 <= aqi <= 50.0 then Some(Segment(0.0, 50.0, 0.0, 54.0))
    else if 51.0 <= aqi <= 100.0 then Some(Segment(51.0, 100.0, 55.0, 70.0))
    else if 101.0 <= aqi <= 150.0 then Some(Segment(101.0, 150.0, 71.0, 85.0))
    else if 151.0 <= aqi <= 200.0 then Some(Segment(151.0, 200.0, 86.0, 105.0))
    else if 201.0 <= aqi <= 300.0 then Some(Segment(201.0, 300.0, 106.0, 200.0))
    else None
  }

  /** converters.py:135-142; the last test is `aqi > 300` but the segment starts at 301. */
  function Ozone1hSegment(aqi: real): (s: Option<Segment>)
    ensures s.Some? ==> s.value.Valid() && s.value.WholeBreakpoints()
    ensures s.Some? ==> s.value.Covers(aqi) || aqi > 500.0 || 300.0 < aqi < 301.0
  {
    if 101.0 <= aqi <= 150.0 then Some(Segment(101.0, 150.0, 125.0, 164.0))
    else if 151.0 <= aqi <= 200.0 then Some(Segment(151.0, 200.0, 165.0, 204.0))
    else if 201.0 <= aqi <= 300.0 then Some(Segment(201.0, 300.0, 205.0, 404.0))
    else if aqi > 300.0 then Some(Segment(301.0, 500.0, 404.0, 604.0))
    else None
  }

  /** converters.py:154-165; the last test is `aqi > 300` but the segment starts at 301. */
  function No2Segment(aqi: real): (s: Option<Segment>)
    ensures s.Some? ==> s.value.Valid() && s.value.WholeBreakpoints()
    ensures s.Some? ==> s.value.Covers(aqi) || aqi > 500.0 || 300.0 < aqi < 301.0
  {
    if 0.0 <= aqi <= 50.0 then Some(Segment(0.0, 50.0, 0.0, 53.0))
    else if 51.0 <= aqi <= 100.0 then Some(Segment(51.0, 100.0, 54.0, 100.0))
    else if 101.0 <= aqi <= 150.0 then Some(Segment(101.0, 150.0, 101.0, 360.0))
    else if 151.0 <= aqi <= 200.0 then Some(Segment(151.0, 200.0, 361.0, 649.0))
    else if 201.0 <= aqi <= 300.0 then Some(Segment(201.0, 300.0, 650.0, 1249.0))
    else if aqi > 300.0 then Some(Segment(301.0, 500.0, 1250.0, 2049.0))
    else None
  }

  // ---------------------------------------------------------------------------
  // The six converters. `isinstance(aqi, (int | float))` fails for NonNumeric; a
  // NaN passes the guard (`nan < 0` is false) and then fails every test of the chain.

  /** The common guard: not a number, or negative. */
  predicate Rejected(aqi: AqiInput)
  {
    aqi.NonNumeric? || (aqi.Number? && aqi.value < 0.0)
  }

  function AqiToPm25(aqi: AqiInput): (r: Result<real, ConversionError>)
    ensures r == Failure(NotANonNegativeNumber) <==> Rejected(aqi)
    ensures r.Success? ==> r.value >= 0.0
  {
    match aqi
    case NonNumeric => Failure(NotANonNegativeNumber)
    case NaN => Failure(OutOfRange)
    case Number(x) =>
      if x < 0.0 then Failure(NotANonNegativeNumber)
      else
        match Pm25Segment(x)
        case Some(seg) => Success(RoundToTenth(seg.At(x)))
        case None => Failure(OutOfRange)
  }

  function AqiToPm10(aqi: AqiInput): (r: Result<int, ConversionError>)
    ensures r == Failure(NotANonNegativeNumber) <==> Rejected(aqi)
    ensures r.Success? ==> r.value >= 0
  {
    match aqi
    case NonNumeric => Failure(NotANonNegativeNumber)
    case NaN => Failure(OutOfRange)
    case Number(x) =>
      if x < 0.0 then Failure(NotANonNegativeNumber)
      else
        match Pm10Segment(x)
        case Some(seg) => Success(ToInt(seg.At(x)))
        case None => Failure(OutOfRange)
  }

  function AqiToCo(aqi: AqiInput): (r: Result<real, ConversionError>)
    ensures r == Failure(NotANonNegativeNumber) <==> Rejected(aqi)
    ensures r.Success? ==> r.value >= 0.0
  {
    match aqi
    case NonNumeric => Failure(NotANonNegativeNumber)
    case NaN => Failure(OutOfRange)
    case Number(x) =>
      if x < 0.0 then Failure(NotANonNegativeNumber)
      else
        match CoSegment(x)
        case Some(seg) => Success(RoundToTenth(seg.At(x)))
        case None => Failure(OutOfRange)
  }

  function AqiToO3EightHour(aqi: AqiInput): (r: Result<int, ConversionError>)
    ensures r == Failure(NotANonNegativeNumber) <==> Rejected(aqi)
    ensures r.Success? ==> r.value >= 0
  {
    match aqi
    case NonNumeric => Failure(NotANonNegativeNumber)
    case NaN => Failure(UseOneHourOzone)
    case Number(x) =>
      if x < 0.0 then Failure(NotANonNegativeNumber)
      else
        match Ozone8hSegment(x)
        case Some(seg) => Success(ToInt(seg.At(x)))
        case None => Failure(UseOneHourOzone)
  }

  function AqiToO3OneHour(aqi: AqiInput): (r: Result<int, ConversionError>)
    ensures r == Failure(NotANonNegativeNumber) <==> Rejected(aqi)
    ensures r.Success? ==> r.value >= 0
  {
    match aqi
    case NonNumeric => Failure(NotANonNegativeNumber)
    case NaN => Failure(OutOfRange)
    case Number(x) =>
      if x < 0.0 then Failure(NotANonNegativeNumber)
      else if x <= 100.0 then Failure(UseEightHourOzone)
      else
        match Ozone1hSegment(x)
        case Some(seg) => Success(ToInt(seg.At(x)))
        case None => Failure(OutOfRange)
  }

  function AqiToNo2(aqi: AqiInput): (r: Result<int, ConversionError>)
    ensures r == Failure(NotANonNegativeNumber) <==> Rejected(aqi)
    ensures r.Success? ==> r.value >= 0
  {
    match aqi
    case NonNumeric => Failure(NotANonNegativeNumber)
    case NaN => Failure(OutOfRange)
    case Number(x) =>
      if x < 0.0 then Failure(NotANonNegativeNumber)
      else
        match No2Segment(x)
        case Some(seg) => Success(ToInt(seg.At(x)))
        case None => Failure(OutOfRange)
  }

  // ---------------------------------------------------------------------------
  // The six series side by side, for properties stated once for all of them.

  datatype Series = Pm25 | Pm10 | CarbonMonoxide | Ozone8h | Ozone1h | NitrogenDioxide

  function AsReal(r: Result<int, ConversionError>): Result<real, ConversionError>
  {
    match r
    case Success(n) => Success(n as real)
    case Failure(e) => Failure(e)
  }

  /** The converter of `series`, its integer results read as reals. */
  function Concentration(series: Series, aqi: AqiInput): Result<real, ConversionError>
  {
    match series
    case Pm25 => AqiToPm25(aqi)
    case Pm10 => AsReal(AqiToPm10(aqi))
    case CarbonMonoxide => AqiToCo(aqi)
    case Ozone8h => AsReal(AqiToO3EightHour(aqi))
    case Ozone1h => AsReal(AqiToO3OneHour(aqi))
    case NitrogenDioxide => AsReal(AqiToNo2(aqi))
  }

  /** The segment the chain of `series` selects for `aqi`. */
  function SegmentFor(series: Series, aqi: real): Option<Segment>
  {
    match series
    case Pm25 => Pm25Segment(aqi)
    case Pm10 => Pm10Segment(aqi)
    case CarbonMonoxide => CoSegment(aqi)
    case Ozone8h => Ozone8hSegment(aqi)
    case Ozone1h => Ozone1hSegment(aqi)
    case NitrogenDioxide => No2Segment(aqi)
  }

  /** The rounding `series` applies to the interpolated value. */
  function RoundFor(series: Series, value: real): real
  {
    if series == Pm25 || series == CarbonMonoxide then RoundToTenth(value) else ToInt(value) as real
  }

  lemma RoundForMonotone(series: Series, x: real, y: real)
    requires x <= y
    ensures RoundFor(series, x) <= RoundFor(series, y)
  {
    if series == Pm25 || series == CarbonMonoxide {
      RoundHalfEvenMonotone(x * 10.0, y * 10.0);
    } else {
      RoundHalfEvenMonotone(x, y);
    }
  }

  /** Every converter is "select a segment, interpolate, round": a selected segment
      gives a result, and a chain that falls through gives that series' error. */
  lemma {:induction false} ConcentrationIsRoundedInterpolant(series: Series, x: real)
    requires x >= 0.0 && (series == Ozone1h ==> x > 100.0)
    ensures SegmentFor(series, x).Some? ==> SegmentFor(series, x).value.Valid()
    ensures SegmentFor(series, x).Some? ==>
      Concentration(series, Number(x)) == Success(RoundFor(series, SegmentFor(series, x).value.At(x)))
    ensures SegmentFor(series, x).None? ==>
      Concentration(series, Number(x)) == Failure(if series == Ozone8h then UseOneHourOzone else OutOfRange)
  {
  }

  /** Every converter rejects a value that is not a number, or is negative, with
      "AQI must be a non-negative number", before any range test, and raises that
      message for no other input. */
  lemma GuardPrecedesRangeTests(series: Series, aqi: AqiInput)
    ensures Concentration(series, aqi) == Failure(NotANonNegativeNumber) <==> Rejected(aqi)
  {
  }

  /** A NaN passes the guard and then matches no test of any chain. */
  lemma NaNMatchesNoSegment(series: Series)
    ensures Concentration(series, NaN) == Failure(if series == Ozone8h then UseOneHourOzone else OutOfRange)
  {
  }

  /** Strictly between two integer segments below 201. */
  predicate InIntegerGap(x: real)
  {
    50.0 < x < 51.0 || 100.0 < x < 101.0 || 150.0 < x < 151.0 || 200.0 < x < 201.0
  }

  /** PM2.5, PM10 and CO accept exactly the non-negative inputs outside the gaps
      between their integer segments (including 300 < aqi < 301), and reject the
      gaps with "AQI out of range"; above 500 they extrapolate instead of rejecting. */
  lemma ParticulateAndCoDomain(series: Series, x: real)
    requires series == Pm25 || series == Pm10 || series == CarbonMonoxide
    requires x >= 0.0
    ensures Concentration(series, Number(x)).Failure? <==> InIntegerGap(x) || 300.0 < x < 301.0
    ensures Concentration(series, Number(x)).Failure? ==> Concentration(series, Number(x)).error == OutOfRange
  {
  }

  /** NO2 rejects only the gaps below 201: its last test is `aqi > 300`. */
  lemma NitrogenDioxideDomain(x: real)
    requires x >= 0.0
    ensures AqiToNo2(Number(x)).Failure? <==> InIntegerGap(x)
    ensures AqiToNo2(Number(x)).Failure? ==> AqiToNo2(Number(x)).error == OutOfRange
    ensures x > 300.0 ==> No2Segment(x) == Some(Segment(301.0, 500.0, 1250.0, 2049.0))
  {
  }

  /** 8-hour ozone raises "For AQI > 300, use 1-hour Ozone values" for every
      non-negative input outside its five segments, gaps included. */
  lemma Ozone8hDomain(x: real)
    requires x >= 0.0
    ensures AqiToO3EightHour(Number(x)).Failure? <==> InIntegerGap(x) || x > 300.0
    ensures AqiToO3EightHour(Number(x)).Failure? ==> AqiToO3EightHour(Number(x)).error == UseOneHourOzone
  {
  }

  /** 1-hour ozone raises "For AQI <= 100, use 8-hour Ozone values" for every
      aqi <= 100; above 100 it rejects only its gaps, and every aqi > 300 uses
      the 301-500 -> 404-604 segment. */
  lemma Ozone1hDomain(x: real)
    requires x >= 0.0
    ensures x <= 100.0 ==> AqiToO3OneHour(Number(x)) == Failure(UseEightHourOzone)
    ensures x > 100.0 ==>
      (AqiToO3OneHour(Number(x)).Failure? <==> 100.0 < x < 101.0 || 150.0 < x < 151.0 || 200.0 < x < 201.0)
    ensures x > 100.0 && AqiToO3OneHour(Number(x)).Failure? ==> AqiToO3OneHour(Number(x)).error == OutOfRange
    ensures x > 300.0 ==> Ozone1hSegment(x) == Some(Segment(301.0, 500.0, 404.0, 604.0))
  {
  }

  /** Every accepted input up to 500, outside the jump at 300, lies in the segment
      its chain selects, and the interpolated value and the rounded result both lie
      between that segment's concentration breakpoints. */
  lemma {:induction false} ResultWithinSegment(series: Series, x: real)
    requires 0.0 <= x <= 500.0 && !(300.0 < x < 301.0)
    requires Concentration(series, Number(x)).Success?
    ensures SegmentFor(series, x).Some? && SegmentFor(series, x).value.Valid()
    ensures SegmentFor(series, x).value.Covers(x)
    ensures SegmentFor(series, x).value.concLow <= SegmentFor(series, x).value.At(x) <= SegmentFor(series, x).value.concHigh
    ensures SegmentFor(series, x).value.concLow <= Concentration(series, Number(x)).value <= SegmentFor(series, x).value.concHigh
  {
    if series == Ozone1h {
      Ozone1hDomain(x);
    }
    ConcentrationIsRoundedInterpolant(series, x);
    var seg := SegmentFor(series, x).value;
    assert seg.Valid() && (if series == Pm25 || series == CarbonMonoxide then seg.TenthBreakpoints() else seg.WholeBreakpoints());
    InvLinearWithin(seg, x);
    var v := seg.At(x);
    if series == Pm25 || series == CarbonMonoxide {
      RoundHalfEvenBetween(v * 10.0, (seg.concLow * 10.0).Floor, (seg.concHigh * 10.0).Floor);
    } else {
      RoundHalfEvenBetween(v, seg.concLow.Floor, seg.concHigh.Floor);
    }
  }

  /** Before rounding, the selected interpolant never decreases as aqi grows, except
      across the jump at 300 of the two series whose last test is `aqi > 300`. */
  lemma {:induction false} InterpolantMonotone(series: Series, x: real, y: real)
    requires 0.0 <= x <= y
    requires SegmentFor(series, x).Some? && SegmentFor(series, y).Some?
    requires !(x <= 300.0 && 300.0 < y < 301.0)
    ensures SegmentFor(series, x).value.Valid() && SegmentFor(series, y).value.Valid()
    ensures SegmentFor(series, x).value.At(x) <= SegmentFor(series, y).value.At(y)
  {
    var sx, sy := SegmentFor(series, x).value, SegmentFor(series, y).value;
    assert sx.Valid() && sy.Valid();
    if sx == sy {
      InvLinearMonotone(sx, x, y);
    } else {
      assert x <= sx.aqiHigh && sy.aqiLow <= y && sx.concHigh <= sy.concLow;
      InvLinearMonotone(sx, x, sx.aqiHigh);
      InvLinearMonotone(sy, sy.aqiLow, y);
    }
  }

  /** Every converter is non-decreasing over the inputs it accepts, except across
      300 < aqi < 301 for NO2 and 1-hour ozone (see DropJustAbove300). */
  lemma {:induction false} ConcentrationMonotone(series: Series, x: real, y: real)
    requires 0.0 <= x <= y
    requires Concentration(series, Number(x)).Success? && Concentration(series, Number(y)).Success?
    requires !(x <= 300.0 && 300.0 < y < 301.0)
    ensures Concentration(series, Number(x)).value <= Concentration(series, Number(y)).value
  {
    ConcentrationIsRoundedInterpolant(series, x);
    ConcentrationIsRoundedInterpolant(series, y);
    InterpolantMonotone(series, x, y);
    RoundForMonotone(series, SegmentFor(series, x).value.At(x), SegmentFor(series, y).value.At(y));
  }

  /** Above 500 the top segment is extrapolated, not rejected: the segment that holds
      500 is used, its line gives the result, and the result is at least the value at 500. */
  lemma {:induction false} TopSegmentExtrapolates(series: Series, x: real)
    requires series != Ozone8h
    requires x > 500.0
    ensures SegmentFor(series, x).Some? && SegmentFor(series, x) == SegmentFor(series, 500.0)
    ensures Concentration(series, Number(x)) == Success(RoundFor(series, SegmentFor(series, 500.0).value.At(x)))
    ensures Concentration(series, Number(x)).Success?
    ensures Concentration(series, Number(500.0)).Success?
    ensures Concentration(series, Number(500.0)).value <= Concentration(series, Number(x)).value
  {
    ConcentrationIsRoundedInterpolant(series, x);
    ConcentrationIsRoundedInterpolant(series, 500.0);
    ConcentrationMonotone(series, 500.0, x);
  }

  /** NO2 and 1-hour ozone test their last branch with `aqi > 300` but interpolate it
      from 301, so just above 300 the result falls below the result at 300. */
  lemma DropJustAbove300()
    ensures AqiToNo2(Number(300.0)) == Success(1249) && AqiToNo2(Number(300.5)) == Success(1248)
    ensures AqiToO3OneHour(Number(300.0)) == Success(404) && AqiToO3OneHour(Number(300.5)) == Success(403)
  {
  }

  // ---------------------------------------------------------------------------
  // The expected values of tests/test_converters.py, none of them a rounding tie.

  lemma InvLinearExample()
    ensures InvLinear(100.0, 0.0, 100.0, 0.0, 50.0) == 50.0
  {
  }

  lemma Pm25Examples()
    ensures AqiToPm25(Number(0.0)) == Success(0.0)
    ensures AqiToPm25(Number(75.0)) == Success(22.0)
    ensures AqiToPm25(Number(150.0)) == Success(55.4)
    ensures AqiToPm25(Number(300.0)) == Success(225.4)
    ensures AqiToPm25(Number(400.0)) == Success(275.2)
    ensures AqiToPm25(Number(501.0)) == Success(325.9)
    ensures AqiToPm25(Number(-1.0)) == Failure(NotANonNegativeNumber)
    ensures AqiToPm25(NonNumeric) == Failure(NotANonNegativeNumber)
  {
  }

  lemma Pm10Examples()
    ensures AqiToPm10(Number(0.0)) == Success(0)
    ensures AqiToPm10(Number(75.0)) == Success(103)
    ensures AqiToPm10(Number(150.0)) == Success(254)
    ensures AqiToPm10(Number(155.0)) == Success(263)
    ensures AqiToPm10(Number(300.0)) == Success(424)
    ensures AqiToPm10(Number(400.0)) == Success(514)
    ensures AqiToPm10(Number(501.0)) == Success(605)
  {
  }

  lemma CoExamples()
    ensures AqiToCo(Number(0.0)) == Success(0.0)
    ensures AqiToCo(Number(75.0)) == Success(6.9)
    ensures AqiToCo(Number(150.0)) == Success(12.4)
    ensures AqiToCo(Number(175.0)) == Success(13.9)
    ensures AqiToCo(Number(300.0)) == Success(30.4)
    ensures AqiToCo(Number(400.0)) == Success(40.4)
    ensures AqiToCo(Number(501.0)) == Success(50.5)
  {
  }

  lemma Ozone8hExamples()
    ensures AqiToO3EightHour(Number(0.0)) == Success(0)
    ensures AqiToO3EightHour(Number(75.0)) == Success(62)
    ensures AqiToO3EightHour(Number(150.0)) == Success(85)
    ensures AqiToO3EightHour(Number(180.0)) == Success(97)
    ensures AqiToO3EightHour(Number(250.0)) == Success(153)
    ensures AqiToO3EightHour(Number(301.0)) == Failure(UseOneHourOzone)
  {
  }

  lemma Ozone1hExamples()
    ensures AqiToO3OneHour(Number(75.0)) == Failure(UseEightHourOzone)
    ensures AqiToO3OneHour(Number(125.0)) == Success(144)
    ensures AqiToO3OneHour(Number(175.0)) == Success(184)
    ensures AqiToO3OneHour(Number(250.0)) == Success(303)
    ensures AqiToO3OneHour(Number(400.0)) == Success(503)
    ensures AqiToO3OneHour(Number(501.0)) == Success(605)
  {
  }

  lemma No2Examples()
    ensures AqiToNo2(Number(0.0)) == Success(0)
    ensures AqiToNo2(Number(75.0)) == Success(77)
    ensures AqiToNo2(Number(150.0)) == Success(360)
    ensures AqiToNo2(Number(180.0)) == Success(531)
    ensures AqiToNo2(Number(300.0)) == Success(1249)
    ensures AqiToNo2(Number(400.0)) == Success(1647)
    ensures AqiToNo2(Number(501.0)) == Success(2053)
  {
  }
}
