/**
 * Rise and set times of the sun for a zenith angle, after the algorithm
 * of the Almanac for Computers, 1990 (Nautical Almanac Office, United
 * States Naval Observatory).
 *
 * Float arithmetic is exact `real` arithmetic here. The trigonometric
 * helpers of the platform's math library are parameters (`Trig`) with no
 * stated properties. The "no rise/set" sentinel of suncalc.h is the
 * parameter `noRiseSet`, compared by value exactly as the C code does.
 */
module SunCalc {
  import opened CStd

  /** The value of M_PI. */
  const Pi: real := 3.14159265358979323846

  /** The math library's trigonometric functions, all working in radians. */
  datatype Trig = Trig(
    sin: real -> real, cos: real -> real, tan: real -> real,
    atan: real -> real, asin: real -> real, acos: real -> real)

  function Radians(degrees: real): real { (Pi / 180.0) * degrees }
  function Degrees(radians: real): real { (180.0 / Pi) * radians }

  // ---------------------------------------------------------------------
  // Step 1: the day of the year, in C integer arithmetic.

  function DayOfYear(year: int, month: int, day: int): int
  {
    var n1 := Div(275 * month, 9);
    var n2 := Div(month + 9, 12);
    var n3 := 1 + Div(year - 4 * Div(year, 4) + 2, 3);
    n1 - n2 * n3 + day - 30
  }

  /** Month lengths of a calendar with a leap day every fourth year. */
  function MonthLength(month: int, leap: bool): int
  {
    if month == 2 then (if leap then 29 else 28)
    else if month == 4 || month == 6 || month == 9 || month == 11 then 30
    else 31
  }

  /** Days in the months before `month`: an independent reference for DayOfYear. */
  function DaysBefore(month: int, leap: bool): (n: int)
    requires 1 <= month <= 13
    decreases month
  {
    if month == 1 then 0 else DaysBefore(month - 1, leap) + MonthLength(month - 1, leap)
  }

  /** The leap indicator used by DayOfYear: `1 + floor((year mod 4 + 2) / 3)`. */
  lemma LeapTerm(year: int)
    requires year >= 0
    ensures 1 + Div(year - 4 * Div(year, 4) + 2, 3) == (if year % 4 == 0 then 1 else 2)
  {
    assert Div(year, 4) == year / 4;
    assert year - 4 * (year / 4) == year % 4;
  }

  /**
   * DayOfYear is the ordinal day of the date, January 1 being day 1, in a
   * calendar whose leap years are the years divisible by four.
   */
  lemma {:induction false} DayOfYearIsOrdinal(year: int, month: int, day: int)
    requires year >= 0 && 1 <= month <= 12
    ensures DayOfYear(year, month, day) == DaysBefore(month, year % 4 == 0) + day
  {
    LeapTerm(year);
    var leap := year % 4 == 0;
    assert DaysBefore(1, leap) == 0;
    assert DaysBefore(2, leap) == 31;
    assert DaysBefore(3, leap) == 31 + MonthLength(2, leap);
    assert DaysBefore(4, leap) == DaysBefore(3, leap) + 31;
    assert DaysBefore(5, leap) == DaysBefore(4, leap) + 30;
    assert DaysBefore(6, leap) == DaysBefore(5, leap) + 31;
    assert DaysBefore(7, leap) == DaysBefore(6, leap) + 30;
    assert DaysBefore(8, leap) == DaysBefore(7, leap) + 31;
    assert DaysBefore(9, leap) == DaysBefore(8, leap) + 31;
    assert DaysBefore(10, leap) == DaysBefore(9, leap) + 30;
    assert DaysBefore(11, leap) == DaysBefore(10, leap) + 31;
    assert DaysBefore(12, leap) == DaysBefore(11, leap) + 30;
  }

  /** January 1 is day 1; March 1 is day 60, or 61 in a leap year; December 31 is day 365 or 366. */
  lemma DayOfYearLandmarks(year: int)
    requires year >= 0
    ensures DayOfYear(year, 1, 1) == 1
    ensures DayOfYear(year, 3, 1) == (if year % 4 == 0 then 61 else 60)
    ensures DayOfYear(year, 12, 31) == (if year % 4 == 0 then 366 else 365)
  {
    DayOfYearIsOrdinal(year, 1, 1);
    DayOfYearIsOrdinal(year, 3, 1);
    DayOfYearIsOrdinal(year, 12, 31);
  }

  /**
   * For a year that is not negative, DayOfYear depends on the year only
   * through its remainder modulo four. Since 1900 is a multiple of four,
   * passing years-since-1900 gives the same day as the full year.
   */
  lemma DayOfYearYearModFour(year: int, month: int, day: int)
    requires year >= 0
    ensures DayOfYear(year, month, day) == DayOfYear(year % 4, month, day)
    ensures DayOfYear(year + 1900, month, day) == DayOfYear(year, month, day)
  {
    LeapTerm(year);
    LeapTerm(year % 4);
    LeapTerm(year + 1900);
  }

  // ---------------------------------------------------------------------
  // Steps 2 to 7: the sun's position.

  /** The approximate time `t`: the rise is taken at 6 h, the set at 18 h local mean time. */
  function ApproxTime(n: int, lngHour: real, sunset: bool): real
  {
    n as real + ((if sunset then 18.0 else 6.0) - lngHour) / 24.0
  }

  /** For the same day and longitude, the set's approximate time is half a day after the rise's. */
  lemma ApproxTimeHalfDayApart(n: int, lngHour: real)
    ensures ApproxTime(n, lngHour, true) - ApproxTime(n, lngHour, false) == 0.5
  {
  }

  /** The single correction by 360 degrees applied to L and to RA. */
  function WrapDegrees(x: real): (r: real)
    ensures r == x || r == x + 360.0 || r == x - 360.0
    ensures -360.0 <= x <= 720.0 ==> 0.0 <= r <= 360.0
    ensures 0.0 <= x <= 360.0 ==> r == x
  {
    var y := if x < 0.0 then x + 360.0 else x;
    if y > 360.0 then y - 360.0 else y
  }

  /**
   * Moves `ra` by whole quadrants so that it lies in the same 90-degree
   * quadrant as `l`.
   */
  function QuadrantFix(l: real, ra: real): (r: real)
    ensures (r / 90.0).Floor == (l / 90.0).Floor
    ensures r - ra == ((l / 90.0).Floor - (ra / 90.0).Floor) as real * 90.0
  {
    var k := (l / 90.0).Floor - (ra / 90.0).Floor;
    var r := ra + (((l / 90.0).Floor as real) * 90.0 - ((ra / 90.0).Floor as real) * 90.0);
    assert r / 90.0 == ra / 90.0 + k as real;
    FloorShift(ra / 90.0, k);
    r
  }

  /** The value of a quotient in IEEE float arithmetic: a zero divisor gives an infinity. */
  datatype Quotient = Finite(value: real) | PlusInfinity | MinusInfinity | NotANumber

  function Divide(num: real, den: real): (q: Quotient)
    ensures den != 0.0 ==> q == Finite(num / den)
    ensures den == 0.0 ==> (q.PlusInfinity? <==> num > 0.0) && (q.MinusInfinity? <==> num < 0.0)
  {
    if den != 0.0 then Finite(num / den)
    else if num > 0.0 then PlusInfinity
    else if num < 0.0 then MinusInfinity
    else NotANumber
  }

  /**
   * The quantities computed before the hour angle: day of year, longitude
   * hour, approximate time, mean anomaly, true longitude, right ascension
   * (in degrees after the quadrant fix, and in hours), declination, and the
   * hour angle's cosine.
   */
  datatype Position = Position(
    n: int, lngHour: real, t: real, m: real, l: real,
    raDegrees: real, raHours: real, sinDec: real, cosDec: real, cosH: Quotient)

  function SunPosition(trig: Trig, year: int, month: int, day: int,
                       latitude: real, longitude: real, sunset: bool, zenith: real): (p: Position)
    ensures p.n == DayOfYear(year, month, day)
    ensures var raw := p.m + 1.916 * trig.sin(Radians(p.m)) + 0.020 * trig.sin(Radians(2.0 * p.m)) + 282.634;
            -360.0 <= raw <= 720.0 ==> 0.0 <= p.l <= 360.0
    ensures (p.raDegrees / 90.0).Floor == (p.l / 90.0).Floor
    ensures p.raHours * 15.0 == p.raDegrees
  {
    SunPositionOnDay(trig, DayOfYear(year, month, day), latitude, longitude, sunset, zenith)
  }

  /** Steps 2 to 7 for day of the year `n`: the date enters the computation only through `n`. */
  function SunPositionOnDay(trig: Trig, n: int, latitude: real, longitude: real,
                            sunset: bool, zenith: real): (p: Position)
    ensures p.n == n
    ensures var raw := p.m + 1.916 * trig.sin(Radians(p.m)) + 0.020 * trig.sin(Radians(2.0 * p.m)) + 282.634;
            -360.0 <= raw <= 720.0 ==> 0.0 <= p.l <= 360.0
    ensures (p.raDegrees / 90.0).Floor == (p.l / 90.0).Floor
    ensures p.raHours * 15.0 == p.raDegrees
  {
    var lngHour := longitude / 15.0;
    var t := ApproxTime(n, lngHour, sunset);
    var m := 0.9856 * t - 3.289;
    var l := WrapDegrees(m + 1.916 * trig.sin(Radians(m)) + 0.020 * trig.sin(Radians(2.0 * m)) + 282.634);
    var ra := WrapDegrees(Degrees(trig.atan(0.91764 * trig.tan(Radians(l)))));
    var raDegrees := QuadrantFix(l, ra);
    var sinDec := 0.39782 * trig.sin(Radians(l));
    var cosDec := trig.cos(trig.asin(sinDec));
    var cosH := Divide(trig.cos(Radians(zenith)) - sinDec * trig.sin(Radians(latitude)),
                       cosDec * trig.cos(Radians(latitude)));
    Position(n, lngHour, t, m, l, raDegrees, raDegrees / 15.0, sinDec, cosDec, cosH)
  }

  /** The test of step 7a: the sun does not reach the zenith angle on this date. */
  predicate NoEvent(cosH: Quotient)
  {
    match cosH
    case Finite(v) => v > 1.0 || v < -1.0
    case PlusInfinity => true
    case MinusInfinity => true
    case NotANumber => true
  }

  // ---------------------------------------------------------------------
  // Steps 7b to 9: hour angle and time.

  /** The hour angle in hours: `360 - acos` for the rise, `acos` for the set, over 15. */
  function HourAngle(trig: Trig, cosH: real, sunset: bool): real
  {
    (if sunset then Degrees(trig.acos(cosH)) else 360.0 - Degrees(trig.acos(cosH))) / 15.0
  }

  /** For the same cosine, the rise and set hour angles add up to a whole day. */
  lemma HourAnglesSumToDay(trig: Trig, cosH: real)
    ensures HourAngle(trig, cosH, false) + HourAngle(trig, cosH, true) == 24.0
  {
  }

  /** The single correction by 24 hours applied to UT. */
  function WrapHours(x: real): (r: real)
    ensures r == x || r == x + 24.0 || r == x - 24.0
    ensures -24.0 <= x <= 48.0 ==> 0.0 <= r <= 24.0
    ensures 0.0 <= x <= 24.0 ==> r == x
  {
    var y := if x < 0.0 then x + 24.0 else x;
    if y > 24.0 then y - 24.0 else y
  }

  /** UT before its correction: `H + RA - 0.06571 t - 6.622 - lngHour`. */
  function RawUniversalTime(trig: Trig, p: Position, cosH: real, sunset: bool): real
  {
    HourAngle(trig, cosH, sunset) + p.raHours - 0.06571 * p.t - 6.622 - p.lngHour
  }

  /**
   * calcSun: the UTC hour and fraction at which the sun crosses `zenith`
   * rising (`sunset` false) or setting, or `noRiseSet` when it does not.
   */
  function CalcSun(trig: Trig, noRiseSet: real, year: int, month: int, day: int,
                   latitude: real, longitude: real, sunset: bool, zenith: real): real
  {
    var p := SunPosition(trig, year, month, day, latitude, longitude, sunset, zenith);
    if NoEvent(p.cosH) then noRiseSet
    else WrapHours(RawUniversalTime(trig, p, p.cosH.value, sunset))
  }

  function CalcSunRise(trig: Trig, noRiseSet: real, year: int, month: int, day: int,
                       latitude: real, longitude: real, zenith: real): real
  {
    CalcSun(trig, noRiseSet, year, month, day, latitude, longitude, false, zenith)
  }

  function CalcSunSet(trig: Trig, noRiseSet: real, year: int, month: int, day: int,
                      latitude: real, longitude: real, zenith: real): real
  {
    CalcSun(trig, noRiseSet, year, month, day, latitude, longitude, true, zenith)
  }

  /**
   * When the hour angle's cosine is outside [-1, 1] (or infinite) the
   * result is the sentinel, whatever acos is: acos is never consulted.
   */
  lemma NoEventGivesSentinel(trig: Trig, noRiseSet: real, year: int, month: int, day: int,
                             latitude: real, longitude: real, sunset: bool, zenith: real)
    requires NoEvent(SunPosition(trig, year, month, day, latitude, longitude, sunset, zenith).cosH)
    ensures CalcSun(trig, noRiseSet, year, month, day, latitude, longitude, sunset, zenith) == noRiseSet
  {
  }

  /**
   * When the cosine is in [-1, 1] the result is the corrected UT, which
   * lies in [0, 24] whenever the uncorrected UT lies in [-24, 48].
   */
  lemma EventGivesHour(trig: Trig, noRiseSet: real, year: int, month: int, day: int,
                       latitude: real, longitude: real, sunset: bool, zenith: real)
    requires !NoEvent(SunPosition(trig, year, month, day, latitude, longitude, sunset, zenith).cosH)
    ensures var p := SunPosition(trig, year, month, day, latitude, longitude, sunset, zenith);
            var raw := RawUniversalTime(trig, p, p.cosH.value, sunset);
            var ut := CalcSun(trig, noRiseSet, year, month, day, latitude, longitude, sunset, zenith);
            p.cosH.Finite? && -1.0 <= p.cosH.value <= 1.0 &&
            (ut == raw || ut == raw + 24.0 || ut == raw - 24.0) &&
            (-24.0 <= raw <= 48.0 ==> 0.0 <= ut <= 24.0)
  {
  }
}
