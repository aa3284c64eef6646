/**
 * The watchface itself: the Julian day and moon glyph, the once-a-day
 * recomputation of the four twilight bands and the sunrise/sunset digits,
 * the 12-hour time text, the band table, and the back-to-front drawing of
 * the dial.
 *
 * The clock, the platform's moon-phase arithmetic and the graphics
 * library's answers are inputs; drawing is recorded as `DialCall` values.
 */
module Sunclock {
  import opened CStd
  import opened SunCalc
  import opened Twilight
  import ConfigData
  import Messaging

  // ---------------------------------------------------------------------
  // Julian day.

  /** The year and month the Julian-day formula works with: January and February count as months 13 and 14 of the previous year. */
  function ShiftedYear(t: Tm): int
  {
    if t.mon + 1 < 3 then t.year + 1900 - 1 else t.year + 1900
  }

  function ShiftedMonth(t: Tm): int
  {
    if t.mon + 1 < 3 then t.mon + 1 + 12 else t.mon + 1
  }

  /** tm2jd: the Julian day number of a date, all in C int arithmetic. */
  function Tm2Jd(t: Tm): int
  {
    var y := ShiftedYear(t);
    var m := ShiftedMonth(t);
    var a := Div(y, 100);
    var b := Div(a, 4);
    var c := 2 - a + b;
    var e := Trunc(365.25 * ((y + 4716) as real));
    var f := Trunc(30.6001 * ((m + 1) as real));
    c + t.mday + e + f - 1524
  }

  /** The parts of the formula once its float products are integer quotients. */
  function CenturyPart(y: int): int
  {
    2 - y / 100 + (y / 100) / 4
  }

  function YearPart(y: int): int
  {
    (1461 * (y + 4716)) / 4
  }

  function MonthPart(m: int): int
  {
    (306001 * (m + 1)) / 10000
  }

  /**
   * For dates from year 1 on, the two float products truncate to exact
   * integer quotients: 1461 (y + 4716) / 4 and 306001 (m + 1) / 10000.
   */
  lemma Tm2JdIntegerForm(t: Tm)
    requires t.year + 1900 >= 1 && 0 <= t.mon <= 11
    ensures 3 <= ShiftedMonth(t) <= 14 && ShiftedYear(t) >= 0
    ensures Tm2Jd(t) == CenturyPart(ShiftedYear(t)) + t.mday + YearPart(ShiftedYear(t))
                        + MonthPart(ShiftedMonth(t)) - 1524
  {
    var y := ShiftedYear(t);
    var m := ShiftedMonth(t);
    assert 365.25 * ((y + 4716) as real) == ((1461 * (y + 4716)) as real) / (4 as real);
    assert 30.6001 * ((m + 1) as real) == ((306001 * (m + 1)) as real) / (10000 as real);
    FloorOfQuotient(1461 * (y + 4716), 4);
    FloorOfQuotient(306001 * (m + 1), 10000);
  }

  /** 1 January 2000 is Julian day 2451545, and 1 January 1900 is 2415021. */
  lemma Tm2JdEpochs(hour: int, min: int)
    ensures Tm2Jd(Tm(100, 0, 1, hour, min)) == 2451545
    ensures Tm2Jd(Tm(0, 0, 1, hour, min)) == 2415021
  {
    Tm2JdIntegerForm(Tm(100, 0, 1, hour, min));
    Tm2JdIntegerForm(Tm(0, 0, 1, hour, min));
    assert YearPart(1999) == 2452653 && MonthPart(13) == 428;
    assert YearPart(1899) == 2416128;
  }

  predicate GregorianLeap(year: int)
  {
    year % 4 == 0 && (year % 100 != 0 || year % 400 == 0)
  }

  /** Days in month `mon` (0 for January) of the full year `year`. */
  function DaysInMonth(year: int, mon: int): int
  {
    if mon == 1 then (if GregorianLeap(year) then 29 else 28)
    else if mon == 3 || mon == 5 || mon == 8 || mon == 10 then 30
    else 31
  }

  predicate ValidDate(t: Tm)
  {
    t.year + 1900 >= 1 && 0 <= t.mon <= 11 && 1 <= t.mday <= DaysInMonth(t.year + 1900, t.mon)
  }

  /** The calendar date after `t`. */
  function NextDay(t: Tm): Tm
  {
    if t.mday < DaysInMonth(t.year + 1900, t.mon) then t.(mday := t.mday + 1)
    else if t.mon < 11 then t.(mon := t.mon + 1, mday := 1)
    else t.(year := t.year + 1, mon := 0, mday := 1)
  }

  /** Between shifted months 3 (March) and 14 (February) the month part steps by the month's length. */
  lemma MonthPartStep(m: int)
    requires 3 <= m <= 13
    ensures MonthPart(m + 1) - MonthPart(m) == (if m == 4 || m == 6 || m == 9 || m == 11 then 30 else 31)
  {
    if m == 3 { assert MonthPart(3) == 122 && MonthPart(4) == 153; }
    else if m == 4 { assert MonthPart(5) == 183; }
    else if m == 5 { assert MonthPart(5) == 183 && MonthPart(6) == 214; }
    else if m == 6 { assert MonthPart(7) == 244; }
    else if m == 7 { assert MonthPart(7) == 244 && MonthPart(8) == 275; }
    else if m == 8 { assert MonthPart(9) == 306; }
    else if m == 9 { assert MonthPart(9) == 306 && MonthPart(10) == 336; }
    else if m == 10 { assert MonthPart(11) == 367; }
    else if m == 11 { assert MonthPart(11) == 367 && MonthPart(12) == 397; }
    else if m == 12 { assert MonthPart(13) == 428; }
    else { assert MonthPart(13) == 428 && MonthPart(14) == 459; }
  }

  /** From 28 or 29 February to 1 March: the year part of the formula grows by a Gregorian year. */
  lemma YearPartStep(y: int)
    requires y >= 1
    ensures YearPart(y) - YearPart(y - 1) == (if y % 4 == 0 then 366 else 365)
    ensures CenturyPart(y) - CenturyPart(y - 1) == (if y % 100 == 0 && y % 400 != 0 then -1 else 0)
  {
    var x := y + 4716;
    assert 1461 * x == 4 * (365 * x) + x;
    assert (1461 * x) / 4 == 365 * x + x / 4;
    assert 1461 * (x - 1) == 4 * (365 * (x - 1)) + (x - 1);
    assert (1461 * (x - 1)) / 4 == 365 * (x - 1) + (x - 1) / 4;
    assert x % 4 == y % 4;
    if y % 100 == 0 {
      assert (y - 1) / 100 == y / 100 - 1;
      assert y % 400 == 0 <==> (y / 100) % 4 == 0;
    } else {
      assert (y - 1) / 100 == y / 100;
    }
  }

  /** The year, century and month parts across the end of February add up to one day. */
  lemma MarchFirstArith(y: int)
    requires y >= 1
    ensures CenturyPart(y) - CenturyPart(y - 1) + 1 - DaysInMonth(y, 1)
            + YearPart(y) - YearPart(y - 1) + MonthPart(3) - MonthPart(14) == 1
  {
    assert MonthPart(3) == 122 && MonthPart(14) == 459;
    YearPartStep(y);
  }

  /** The last day of February, then 1 March. */
  lemma Tm2JdMarchFirst(t: Tm)
    requires ValidDate(t) && t.mon == 1 && t.mday == DaysInMonth(t.year + 1900, 1)
    ensures Tm2Jd(NextDay(t)) == Tm2Jd(t) + 1
  {
    var y := t.year + 1900;
    var t' := t.(mon := 2, mday := 1);
    assert NextDay(t) == t';
    Tm2JdIntegerForm(t);
    Tm2JdIntegerForm(t');
    assert ShiftedYear(t) == y - 1 && ShiftedMonth(t) == 14;
    assert ShiftedYear(t') == y && ShiftedMonth(t') == 3;
    MarchFirstArith(y);
  }

  /** The last day of any other month, then the first of the next. */
  lemma Tm2JdMonthEnd(t: Tm)
    requires ValidDate(t) && t.mon != 1 && t.mday == DaysInMonth(t.year + 1900, t.mon)
    ensures Tm2Jd(NextDay(t)) == Tm2Jd(t) + 1
  {
    var t' := NextDay(t);
    Tm2JdIntegerForm(t);
    Tm2JdIntegerForm(t');
    assert ShiftedYear(t') == ShiftedYear(t);
    assert ShiftedMonth(t') == ShiftedMonth(t) + 1;
    MonthPartStep(ShiftedMonth(t));
  }

  /** Consecutive calendar days, Gregorian leap years included, get consecutive Julian days. */
  lemma Tm2JdNextDay(t: Tm)
    requires ValidDate(t)
    ensures Tm2Jd(NextDay(t)) == Tm2Jd(t) + 1
  {
    if t.mday < DaysInMonth(t.year + 1900, t.mon) {
      Tm2JdIntegerForm(t);
      Tm2JdIntegerForm(NextDay(t));
    } else if t.mon == 1 {
      Tm2JdMarchFirst(t);
    } else {
      Tm2JdMonthEnd(t);
    }
  }

  // ---------------------------------------------------------------------
  // Moon phase glyph.

  /** In the southern hemisphere the phase is mirrored: n becomes 28 - n, except for the new moon. */
  function SouthernFlip(phase: int, latitude: real): int
  {
    if phase > 0 && latitude < 0.0 then 28 - phase else phase
  }

  /** The flip keeps phases in 0..27, fixes 0 and 14, and undoes itself. */
  lemma SouthernFlipInvolution(phase: int, latitude: real)
    requires 0 <= phase <= 27
    ensures 0 <= SouthernFlip(phase, latitude) <= 27
    ensures SouthernFlip(SouthernFlip(phase, latitude), latitude) == phase
    ensures phase == 0 || phase == 14 ==> SouthernFlip(phase, latitude) == phase
    ensures latitude >= 0.0 ==> SouthernFlip(phase, latitude) == phase
  {
  }

  /** The moon-font character for a phase, through the cast to unsigned char. */
  function MoonGlyph(phase: int): char
  {
    if phase == 14 then 48 as char
    else if phase == 0 then 49 as char
    else if phase < 14 then ((phase + 96) % 256) as char
    else ((phase + 95) % 256) as char
  }

  /** The phase a letter of the moon font stands for. */
  function GlyphPhase(c: char): int
  {
    if c <= 'm' then c as int - 96 else c as int - 95
  }

  predicate CrescentOrGibbous(phase: int)
  {
    1 <= phase <= 13 || 15 <= phase <= 27
  }

  /**
   * Full moon is '0' and new moon '1'; the other phases map one to one onto
   * 'a'..'z': 1..13 onto 'a'..'m' and 15..27 onto 'n'..'z'.
   */
  lemma MoonGlyphBijection(phase: int, c: char)
    ensures MoonGlyph(14) == '0' && MoonGlyph(0) == '1'
    ensures CrescentOrGibbous(phase) ==> 'a' <= MoonGlyph(phase) <= 'z' && GlyphPhase(MoonGlyph(phase)) == phase
    ensures 1 <= phase <= 13 ==> MoonGlyph(phase) <= 'm'
    ensures 'a' <= c <= 'z' ==> CrescentOrGibbous(GlyphPhase(c)) && MoonGlyph(GlyphPhase(c)) == c
  {
  }

  // ---------------------------------------------------------------------
  // Sunrise and sunset digits, and the time text.

  /** The hour and minute shown for a time of day: both truncated, not rounded. */
  function TimeDigits(t: real): (hm: (int, int))
    ensures 0.0 <= t ==> 0 <= hm.0 && 0 <= hm.1 <= 59
    ensures 0.0 <= t ==> ((hm.0 * 60 + hm.1) as real) <= 60.0 * t < ((hm.0 * 60 + hm.1 + 1) as real)
    ensures 0.0 <= t ==> hm.0 == t.Floor
  {
    var hour := Trunc(t);
    (hour, Trunc(60.0 * (t - hour as real)))
  }

  /** Size of the time text buffer, terminator included. */
  const TimeTextSize: int := 6

  /** What the memmove of all but the first byte onto the buffer's start leaves. */
  function ShiftedLeft(s: seq<char>): seq<char>
    requires |s| >= 1
  {
    s[1..] + [s[|s| - 1]]
  }

  /** Shifting a text that starts with '0' drops that character and nothing else of the C string. */
  lemma ShiftedLeftDropsFirst(s: seq<char>)
    requires |s| >= 2 && s[0] == '0' && CStringOf(s).Some?
    ensures CStringOf(ShiftedLeft(s)) == Some(CStringOf(s).value[1..])
  {
    var k := NulFrom(s, 0).value;
    var s' := ShiftedLeft(s);
    assert k >= 1;
    assert forall j | 0 <= j < k - 1 :: s'[j] == s[j + 1];
    assert s'[k - 1] == s[k];
    NulFromFirst(s', 0, k - 1);
    assert s'[..k - 1] == s[..k][1..];
  }

  /** In 12-hour style a leading '0' is dropped by shifting the buffer one place left. */
  method StripLeadingZero(text: array<char>, is24h: bool)
    requires text.Length == TimeTextSize
    modifies text
    ensures text[..] == if !is24h && old(text[0]) == '0' then ShiftedLeft(old(text[..])) else old(text[..])
  {
    if !is24h && text[0] == '0' {
      var i := 0;
      while i < text.Length - 1
        invariant 0 <= i <= text.Length - 1
        invariant forall j | 0 <= j < i :: text[j] == old(text[j + 1])
        invariant forall j | i <= j < text.Length :: text[j] == old(text[j])
      {
        text[i] := text[i + 1];
        i := i + 1;
      }
    }
  }

  // ---------------------------------------------------------------------
  // The band table.

  datatype Band = Night | Astro | Nautical | Civil
  datatype ZenithName = ZenithOfficial | ZenithCivil | ZenithNautical | ZenithAstronomical
  datatype Shade = DarkGrey | Grey | LightGrey

  /** Each band's outer edge is the next darker zenith: Night ends at astronomical twilight, and so on. */
  function BandZenith(b: Band): ZenithName
  {
    match b
    case Night => ZenithAstronomical
    case Astro => ZenithNautical
    case Nautical => ZenithCivil
    case Civil => ZenithOfficial
  }

  function BandSide(b: Band): Side
  {
    if b == Night then EncloseBottom else EncloseTop
  }

  function BandShade(b: Band): Option<Shade>
  {
    match b
    case Night => None
    case Astro => Some(DarkGrey)
    case Nautical => Some(Grey)
    case Civil => Some(LightGrey)
  }

  function BandColor(b: Band): Color
  {
    if b == Night then Black else White
  }

  /** The order in which the dial draws the bands. */
  const RenderOrder: seq<Band> := [Night, Astro, Nautical, Civil]

  /** The zenith angles grow from official sunrise to astronomical twilight. */
  predicate ZenithsIncreasing(zenithOf: ZenithName -> real)
  {
    zenithOf(ZenithOfficial) < zenithOf(ZenithCivil) < zenithOf(ZenithNautical) < zenithOf(ZenithAstronomical)
  }

  /**
   * The dial is drawn back to front: each band once, darkest (largest
   * zenith) first. Only Night fills the bottom, in black and without a
   * bitmap; the others fill the top in white over a grey bitmap.
   */
  lemma RenderOrderBackToFront(zenithOf: ZenithName -> real, b: Band)
    requires ZenithsIncreasing(zenithOf)
    ensures forall i, j | 0 <= i < j < |RenderOrder| ::
              zenithOf(BandZenith(RenderOrder[i])) > zenithOf(BandZenith(RenderOrder[j]))
    ensures multiset(RenderOrder)[b] == 1
    ensures (BandSide(b) == EncloseBottom) <==> b == Night
    ensures (BandColor(b) == Black) <==> b == Night
    ensures BandShade(b).None? <==> b == Night
  {
    assert multiset(RenderOrder) == multiset{Night, Astro, Nautical, Civil};
  }

  // ---------------------------------------------------------------------
  // The watchface.

  /** Whether updateDayAndNightInfo recomputes: forced, or the local day is not the one last done. */
  predicate UpdateDue(lastUpdateDay: int, mday: int, updateEverything: bool)
  {
    updateEverything || lastUpdateDay != mday
  }

  /** What the dial's update procedure does, in order. */
  datatype DialCall =
    | ShowStatus(title: string, text: string)
    | RequestedLocation(ok: bool)
    | RenderBand(band: Band, calls: seq<GfxCall>)
    | DrawWatchfaceFrame(frame: Rect)
    | SetCompositingMode(op: CompOp)

  const StatusTitle: string := "Getting Location"
  const StatusText: string := "Obtaining initial location data."

  class Watchface {
    const night: TwilightPath
    const astro: TwilightPath
    const nautical: TwilightPath
    const civil: TwilightPath
    const cfg: ConfigData.ConfigStore
    const msg: Messaging.AppMessaging
    /** The ZENITH_* values. */
    const zenithOf: ZenithName -> real
    /** lastUpdateDay: the local day of the month of the last recomputation, -1 before the first. */
    var lastUpdateDay: int
    var sunriseDigits: (int, int)
    var sunsetDigits: (int, int)
    var moonGlyph: char
    /** Whether the dial layer has been marked for redrawing. */
    var dialDirty: bool

    function Path(b: Band): TwilightPath
    {
      match b
      case Night => night
      case Astro => astro
      case Nautical => nautical
      case Civil => civil
    }

    /** The path and bitmap handles of the four bands, in drawing order. */
    function Handles(): seq<(Option<PathId>, Option<BitmapId>)>
      reads night, astro, nautical, civil
    {
      [(night.path, night.bmpGrey), (astro.path, astro.bmpGrey),
       (nautical.path, nautical.bmpGrey), (civil.path, civil.bmpGrey)]
    }

    /**
     * A band's object: a valid path for that band's zenith and side whose
     * times and slots, once computed, are those of its last inputs.
     */
    ghost predicate BandOk(p: TwilightPath, b: Band)
      reads p, p.points
    {
      p.Valid() && p.Current() && p.zenith == zenithOf(BandZenith(b)) && p.toEnclose == BandSide(b)
    }

    ghost predicate Valid()
      reads night, astro, nautical, civil, night.points, astro.points, nautical.points, civil.points
    {
      BandOk(night, Night) && BandOk(astro, Astro) && BandOk(nautical, Nautical) && BandOk(civil, Civil)
      && night != astro && night != nautical && night != civil
      && astro != nautical && astro != civil && nautical != civil
      && night.points != astro.points && night.points != nautical.points && night.points != civil.points
      && astro.points != nautical.points && astro.points != civil.points && nautical.points != civil.points
    }

    constructor (night: TwilightPath, astro: TwilightPath, nautical: TwilightPath, civil: TwilightPath,
                 cfg: ConfigData.ConfigStore, msg: Messaging.AppMessaging, zenithOf: ZenithName -> real)
      requires night.Valid() && night.Current() && night.zenith == zenithOf(ZenithAstronomical) && night.toEnclose == EncloseBottom
      requires astro.Valid() && astro.Current() && astro.zenith == zenithOf(ZenithNautical) && astro.toEnclose == EncloseTop
      requires nautical.Valid() && nautical.Current() && nautical.zenith == zenithOf(ZenithCivil) && nautical.toEnclose == EncloseTop
      requires civil.Valid() && civil.Current() && civil.zenith == zenithOf(ZenithOfficial) && civil.toEnclose == EncloseTop
      requires night != astro && night != nautical && night != civil
      requires astro != nautical && astro != civil && nautical != civil
      requires night.points != astro.points && night.points != nautical.points && night.points != civil.points
      requires astro.points != nautical.points && astro.points != civil.points && nautical.points != civil.points
      ensures Valid() && lastUpdateDay == -1 && !dialDirty
      ensures this.night == night && this.astro == astro && this.nautical == nautical && this.civil == civil
      ensures this.cfg == cfg && this.msg == msg && this.zenithOf == zenithOf
    {
      this.night, this.astro, this.nautical, this.civil := night, astro, nautical, civil;
      this.cfg, this.msg, this.zenithOf := cfg, msg, zenithOf;
      lastUpdateDay := -1;
      sunriseDigits, sunsetDigits := (0, 0), (0, 0);
      moonGlyph := 'm';
      dialDirty := false;
    }

    /** The inputs each band was last computed from, in drawing order. */
    ghost function ComputedFor(): seq<Option<SunInputs>>
      reads night, astro, nautical, civil
    {
      [night.computedFor, astro.computedFor, nautical.computedFor, civil.computedFor]
    }

    /**
     * updateDayAndNightInfo: unless forced, nothing is done on the local
     * day already done. Otherwise all four bands are recomputed for the
     * local date, the sunrise and sunset digits come from the Civil band's
     * times, the moon glyph from the Julian day of the UTC date (mirrored
     * south of the equator), and the day is remembered.
     */
    method UpdateDayAndNightInfo(updateEverything: bool, trig: Trig, noRiseSet: real,
                                 localNow: Tm, utcNow: Tm, moonPhase: int -> int)
      requires Valid()
      modifies this, night, astro, nautical, civil, night.points, astro.points, nautical.points, civil.points
      ensures Valid()
      ensures !UpdateDue(old(lastUpdateDay), localNow.mday, updateEverything) ==>
                unchanged(this) && unchanged(night, astro, nautical, civil)
                && unchanged(night.points, astro.points, nautical.points, civil.points)
      ensures UpdateDue(old(lastUpdateDay), localNow.mday, updateEverything) ==>
                (var inputs := Some(SunInputs(trig, noRiseSet, cfg.State(), localNow));
                 ComputedFor() == [inputs, inputs, inputs, inputs])
                && sunriseDigits == TimeDigits(civil.dawnTime) && sunsetDigits == TimeDigits(civil.duskTime)
                && moonGlyph == MoonGlyph(SouthernFlip(moonPhase(Tm2Jd(utcNow)), cfg.Latitude()))
                && lastUpdateDay == localNow.mday && dialDirty
      ensures Handles() == old(Handles())
    {
      if lastUpdateDay == localNow.mday && !updateEverything {
        return;
      }
      ComputeBands(trig, noRiseSet, localNow);
      StoreDayInfo(localNow, utcNow, moonPhase);
    }

    /**
     * The rest of updateDayAndNightInfo once the bands are recomputed: the
     * digits from the Civil band, the moon glyph, the day and the redraw.
     */
    method StoreDayInfo(localNow: Tm, utcNow: Tm, moonPhase: int -> int)
      modifies this
      ensures sunriseDigits == TimeDigits(civil.dawnTime) && sunsetDigits == TimeDigits(civil.duskTime)
      ensures moonGlyph == MoonGlyph(SouthernFlip(moonPhase(Tm2Jd(utcNow)), cfg.Latitude()))
      ensures lastUpdateDay == localNow.mday && dialDirty
    {
      sunriseDigits := TimeDigits(civil.dawnTime);
      sunsetDigits := TimeDigits(civil.duskTime);

      var phase := moonPhase(Tm2Jd(utcNow));
      phase := SouthernFlip(phase, cfg.Latitude());
      moonGlyph := MoonGlyph(phase);

      lastUpdateDay := localNow.mday;
      dialDirty := true;
    }

    /** The four twilight_path_compute_current calls of updateDayAndNightInfo, darkest band first. */
    method ComputeBands(trig: Trig, noRiseSet: real, localNow: Tm)
      requires Valid()
      modifies night, astro, nautical, civil, night.points, astro.points, nautical.points, civil.points
      ensures Valid()
      ensures var inputs := Some(SunInputs(trig, noRiseSet, cfg.State(), localNow));
              ComputedFor() == [inputs, inputs, inputs, inputs]
      ensures Handles() == old(Handles())
    {
      night.ComputeCurrent(trig, noRiseSet, cfg, localNow);
      astro.ComputeCurrent(trig, noRiseSet, cfg, localNow);
      nautical.ComputeCurrent(trig, noRiseSet, cfg, localNow);
      civil.ComputeCurrent(trig, noRiseSet, cfg, localNow);
    }

    /**
     * handle_minute_tick, for what it computes: the 12-hour text loses a
     * leading zero, then the daily update runs unforced.
     */
    method MinuteTick(timeText: array<char>, is24h: bool, trig: Trig, noRiseSet: real,
                      localNow: Tm, utcNow: Tm, moonPhase: int -> int)
      requires Valid() && timeText.Length == TimeTextSize
      modifies timeText, this, night, astro, nautical, civil, night.points, astro.points, nautical.points, civil.points
      ensures Valid()
      ensures timeText[..] == if !is24h && old(timeText[0]) == '0' then ShiftedLeft(old(timeText[..])) else old(timeText[..])
      ensures old(lastUpdateDay) == localNow.mday ==> unchanged(this) && unchanged(night, astro, nautical, civil)
      ensures old(lastUpdateDay) != localNow.mday ==>
                (var inputs := Some(SunInputs(trig, noRiseSet, cfg.State(), localNow));
                 ComputedFor() == [inputs, inputs, inputs, inputs])
                && sunriseDigits == TimeDigits(civil.dawnTime) && sunsetDigits == TimeDigits(civil.duskTime)
                && moonGlyph == MoonGlyph(SouthernFlip(moonPhase(Tm2Jd(utcNow)), cfg.Latitude()))
                && lastUpdateDay == localNow.mday && dialDirty
      ensures Handles() == old(Handles())
    {
      StripLeadingZero(timeText, is24h);
      UpdateDayAndNightInfo(false, trig, noRiseSet, localNow, utcNow, moonPhase);
    }

    /**
     * sunclock_coords_recvd: a location that is not the cached one is
     * stored and everything recomputed; the same location changes nothing.
     * The recomputation happens whether or not the store wrote the record.
     */
    method CoordsReceived(latitude: real, longitude: real, utcOffset: int, now: int, bytesWritten: int,
                          trig: Trig, noRiseSet: real, localNow: Tm, utcNow: Tm, moonPhase: int -> int)
      requires Valid()
      modifies cfg, this, night, astro, nautical, civil, night.points, astro.points, nautical.points, civil.points
      ensures Valid()
      ensures !ConfigData.IsDifferent(old(cfg.State()), latitude, longitude, utcOffset) ==>
                unchanged(cfg) && unchanged(this) && unchanged(night, astro, nautical, civil)
      ensures ConfigData.IsDifferent(old(cfg.State()), latitude, longitude, utcOffset) ==>
                cfg.State() == ConfigData.AfterSet(old(cfg.State()), latitude, longitude, utcOffset, now, bytesWritten).0
                && (var inputs := Some(SunInputs(trig, noRiseSet, cfg.State(), localNow));
                    ComputedFor() == [inputs, inputs, inputs, inputs])
                && sunriseDigits == TimeDigits(civil.dawnTime) && sunsetDigits == TimeDigits(civil.duskTime)
                && moonGlyph == MoonGlyph(SouthernFlip(moonPhase(Tm2Jd(utcNow)), cfg.Latitude()))
                && lastUpdateDay == localNow.mday && dialDirty
      ensures Handles() == old(Handles())
    {
      if cfg.Differs(latitude, longitude, utcOffset) {
        var _ := cfg.LocationSet(latitude, longitude, utcOffset, now, bytesWritten);
        UpdateDayAndNightInfo(true, trig, noRiseSet, localNow, utcNow, moonPhase);
      }
    }

    /**
     * graphics_night_layer_update_callback: without location data only the
     * status window and a request; otherwise the four bands back to front,
     * then the watchface frame and the compositing reset.
     */
    method RenderDial(noRiseSet: real, frame: Rect, created: Band -> Option<PathId>,
                      now: int, o: Messaging.Outbox) returns (calls: seq<DialCall>)
      requires Valid()
      modifies night`path, astro`path, nautical`path, civil`path, msg
      ensures Valid()
      ensures !ConfigData.Available(cfg.State()) ==>
                var (s', ok, effects) := Messaging.Request(old(msg.State()), now, o);
                calls == [ShowStatus(StatusTitle, StatusText), RequestedLocation(ok)]
                && msg.State() == s' && msg.log == old(msg.log) + effects
                && unchanged(night, astro, nautical, civil)
      ensures ConfigData.Available(cfg.State()) ==>
                unchanged(msg) && |calls| == 6
                && calls[4] == DrawWatchfaceFrame(frame) && calls[5] == SetCompositingMode(CompOpAssign)
                && forall i | 0 <= i < 4 ::
                     var b := RenderOrder[i];
                     var p := Path(b);
                     var (path', gfx) := RenderStep(noRiseSet, old(p.path), p.bmpGrey, p.dawnTime, p.duskTime,
                                                    p.points[..], BandColor(b), frame, created(b));
                     p.path == path' && calls[i] == RenderBand(b, gfx)
    {
      if !cfg.LocationAvail() {
        calls := [ShowStatus(StatusTitle, StatusText)];
        var ok := msg.RequestLatLong(now, o);
        calls := calls + [RequestedLocation(ok)];
        return;
      }
      calls := RenderBands(noRiseSet, frame, created);
      calls := calls + [DrawWatchfaceFrame(frame), SetCompositingMode(CompOpAssign)];
    }

    /** The four twilight_path_render calls of the dial, back to front. */
    method RenderBands(noRiseSet: real, frame: Rect, created: Band -> Option<PathId>) returns (calls: seq<DialCall>)
      requires Valid()
      modifies night`path, astro`path, nautical`path, civil`path
      ensures Valid()
      ensures |calls| == 4
              && forall i | 0 <= i < 4 ::
                   var b := RenderOrder[i];
                   var p := Path(b);
                   var (path', gfx) := RenderStep(noRiseSet, old(p.path), p.bmpGrey, p.dawnTime, p.duskTime,
                                                  p.points[..], BandColor(b), frame, created(b));
                   p.path == path' && calls[i] == RenderBand(b, gfx)
    {
      var c0 := night.Render(noRiseSet, Black, frame, created(Night));
      var c1 := astro.Render(noRiseSet, White, frame, created(Astro));
      var c2 := nautical.Render(noRiseSet, White, frame, created(Nautical));
      var c3 := civil.Render(noRiseSet, White, frame, created(Civil));
      calls := [RenderBand(Night, c0), RenderBand(Astro, c1), RenderBand(Nautical, c2), RenderBand(Civil, c3)];
    }
  }

  /** Whether twilight_path_create succeeds for a band: malloc works and the band's bitmap, if any, loads. */
  predicate Creatable(b: Band, mallocOk: Band -> bool, loaded: Band -> Option<BitmapId>)
  {
    mallocOk(b) && (BandShade(b).Some? ==> loaded(b).Some?)
  }

  /** Every band. */
  const AllBands: set<Band> := {Night, Astro, Nautical, Civil}

  /** The bands whose twilight_path_create succeeds. */
  function BandsCreated(mallocOk: Band -> bool, loaded: Band -> Option<BitmapId>): (bands: set<Band>)
    ensures forall b :: b in bands <==> Creatable(b, mallocOk, loaded)
    ensures bands == AllBands <==>
              Creatable(Night, mallocOk, loaded) && Creatable(Astro, mallocOk, loaded)
              && Creatable(Nautical, mallocOk, loaded) && Creatable(Civil, mallocOk, loaded)
  {
    var bands := set b | b in AllBands && Creatable(b, mallocOk, loaded);
    assert forall b :: b in AllBands by {
      forall b ensures b in AllBands {
        assert b.Night? || b.Astro? || b.Nautical? || b.Civil?;
      }
    }
    bands
  }

  /**
   * What sunclock_window_load leaves for the dial: whether the dial's
   * update procedure is registered on the root layer, whether the
   * watchface frame bitmap exists, and which bands exist.
   */
  datatype LoadResult = LoadResult(dialRegistered: bool, frameLoaded: bool, bands: set<Band>)

  /**
   * Once location data is cached, a registered dial draws the frame and
   * all four bands, so each of them has to exist.
   */
  predicate DialSafe(r: LoadResult)
  {
    r.dialRegistered ==> r.frameLoaded && r.bands == AllBands
  }

  /**
   * sunclock_window_load as written, up to the bands: the update procedure
   * is registered as soon as the root layer exists, before the frame is
   * loaded and the bands are created; a missing frame returns early, and
   * a missing band returns after all four were attempted.
   */
  function LoadAsWritten(rootOk: bool, frameOk: bool, mallocOk: Band -> bool,
                         loaded: Band -> Option<BitmapId>): LoadResult
  {
    if !rootOk then LoadResult(false, false, {})
    else if !frameOk then LoadResult(true, false, {})
    else LoadResult(true, true, BandsCreated(mallocOk, loaded))
  }

  /**
   * As written, the dial is left registered without what it draws
   * exactly when the root layer exists but the frame or some band does
   * not; for instance when only the Astro band's bitmap fails to load.
   */
  lemma LoadAsWrittenUnsafe(rootOk: bool, frameOk: bool, mallocOk: Band -> bool,
                            loaded: Band -> Option<BitmapId>)
    ensures !DialSafe(LoadAsWritten(rootOk, frameOk, mallocOk, loaded)) <==>
              rootOk && (!frameOk || BandsCreated(mallocOk, loaded) != AllBands)
    ensures mallocOk(Astro) && loaded(Astro).None? ==>
              var r := LoadAsWritten(true, true, mallocOk, loaded);
              r.dialRegistered && Astro !in r.bands
  {
    if mallocOk(Astro) && loaded(Astro).None? {
      assert !Creatable(Astro, mallocOk, loaded);
    }
  }

  /** The load with the update procedure registered last, once the frame and all four bands exist. */
  function LoadCorrected(rootOk: bool, frameOk: bool, mallocOk: Band -> bool,
                         loaded: Band -> Option<BitmapId>): LoadResult
  {
    var bands := if rootOk && frameOk then BandsCreated(mallocOk, loaded) else {};
    LoadResult(rootOk && frameOk && bands == AllBands, rootOk && frameOk, bands)
  }

  /**
   * The corrected load never leaves the dial registered without what it
   * draws, registers it whenever everything exists, and creates the same
   * objects as the code as written.
   */
  lemma LoadCorrectedSafe(rootOk: bool, frameOk: bool, mallocOk: Band -> bool,
                          loaded: Band -> Option<BitmapId>)
    ensures var r := LoadCorrected(rootOk, frameOk, mallocOk, loaded);
            var w := LoadAsWritten(rootOk, frameOk, mallocOk, loaded);
            DialSafe(r)
            && (r.dialRegistered <==> rootOk && frameOk && forall b | b in AllBands :: Creatable(b, mallocOk, loaded))
            && r.frameLoaded == w.frameLoaded && r.bands == w.bands
            && (DialSafe(w) && w.dialRegistered ==> r == w)
  {
    var bands := BandsCreated(mallocOk, loaded);
    if rootOk && frameOk && forall b | b in AllBands :: Creatable(b, mallocOk, loaded) {
      assert bands == AllBands;
    }
  }

  /**
   * The band-creating part of sunclock_window_load as written, given
   * whether the root layer and the watchface frame exist and malloc's and
   * the bitmap loader's answers for each band. The Watchface exists only
   * when everything does, which is when the corrected load registers the
   * dial.
   */
  method WindowLoad(cfg: ConfigData.ConfigStore, msg: Messaging.AppMessaging,
                    zenithOf: ZenithName -> real, imageOf: Shade -> nat, rootOk: bool, frameOk: bool,
                    mallocOk: Band -> bool, loaded: Band -> Option<BitmapId>)
    returns (w: Watchface?, r: LoadResult)
    ensures r == LoadAsWritten(rootOk, frameOk, mallocOk, loaded)
    ensures w != null <==> LoadCorrected(rootOk, frameOk, mallocOk, loaded).dialRegistered
    ensures w != null ==> fresh(w) && w.Valid() && w.cfg == cfg && w.msg == msg && w.zenithOf == zenithOf
    ensures w != null ==> w.lastUpdateDay == -1
    ensures w != null ==> w.Handles() == [(None, None), (None, loaded(Astro)), (None, loaded(Nautical)), (None, loaded(Civil))]
  {
    w := null;
    if !rootOk {
      return w, LoadResult(false, false, {});
    }
    var registered := true;
    if !frameOk {
      return w, LoadResult(registered, false, {});
    }
    var night := CreateTwilightPath(zenithOf(ZenithAstronomical), EncloseBottom, InvalidResource,
                                    mallocOk(Night), loaded(Night));
    var astro := CreateTwilightPath(zenithOf(ZenithNautical), EncloseTop, ResourceId(imageOf(DarkGrey)),
                                    mallocOk(Astro), loaded(Astro));
    var nautical := CreateTwilightPath(zenithOf(ZenithCivil), EncloseTop, ResourceId(imageOf(Grey)),
                                       mallocOk(Nautical), loaded(Nautical));
    var civil := CreateTwilightPath(zenithOf(ZenithOfficial), EncloseTop, ResourceId(imageOf(LightGrey)),
                                    mallocOk(Civil), loaded(Civil));
    r := LoadResult(registered, true, BandsCreated(mallocOk, loaded));
    if night == null || astro == null || nautical == null || civil == null {
      return;
    }
    w := new Watchface(night, astro, nautical, civil, cfg, msg, zenithOf);
  }
}
