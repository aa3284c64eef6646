/**
 * A twilight path: the five-point polygon that encloses the part of the
 * dial above (or below) the line joining the dawn and dusk positions on
 * the 24-hour dial for one zenith angle, with an optional grey bitmap
 * shown beneath it.
 *
 * Coordinates are relative to the hour hand's axis, with y growing
 * downwards as on the screen. Graphics calls are recorded as a trace of
 * `GfxCall` values; allocation results (malloc, bitmap load, path
 * creation) are inputs.
 */
module Twilight {
  import opened CStd
  import opened SunCalc
  import ConfigData

  /** The screen edges used by the fixed corners: one pixel over half of each screen dimension. */
  const XLeft: int := -73
  const XRight: int := 73
  const YTop: int := -84
  const YBottom: int := 84

  const PointsInPath: int := 5

  /** Radius, in pixels, at which dawn and dusk are placed on the dial. */
  const RimRadius: real := 120.0

  /** The half-day added before a time is turned into a dial angle. */
  const TimeFudge: real := 12.0

  datatype Side = EncloseTop | EncloseBottom
  datatype Point = Point(x: int, y: int)
  datatype Rect = Rect(x: int, y: int, w: int, h: int)
  datatype Color = Black | White
  datatype CompOp = CompOpAssign | CompOpAnd

  /** Handles of bitmaps and paths handed out by the graphics library. */
  type BitmapId = nat
  type PathId = nat

  /** A bitmap resource id, or INVALID_RESOURCE. */
  datatype Resource = InvalidResource | ResourceId(id: nat)

  /** The graphics calls a twilight path makes, in the order it makes them. */
  datatype GfxCall =
    | PathDestroy(path: PathId)
    | PathCreate(points: seq<Point>)
    | PathMoveToCenterOf(path: PathId, frame: Rect)
    | SetCompositing(op: CompOp)
    | DrawBitmap(bitmap: BitmapId, frame: Rect)
    | SetFillColor(color: Color)
    | FillPath(path: PathId)
    | BitmapDestroy(bitmap: BitmapId)

  // ---------------------------------------------------------------------
  // Geometry.

  /** Slot 0: the hub, the hour hand's axis. */
  const Hub: Point := Point(0, 9)

  /** Slots 2 and 3: the screen corners, in an order that keeps the path clockwise. */
  function Corners(side: Side): (Point, Point)
  {
    match side
    case EncloseTop => (Point(XLeft, YTop), Point(XRight, YTop))
    case EncloseBottom => (Point(XRight, YBottom), Point(XLeft, YBottom))
  }

  /** Slots 1 and 4: dawn first for the top, dusk first for the bottom. */
  function RimSlots(side: Side, dawn: Point, dusk: Point): (Point, Point)
  {
    match side
    case EncloseTop => (dawn, dusk)
    case EncloseBottom => (dusk, dawn)
  }

  /** All five slots once dawn and dusk are known. */
  function PathPoints(side: Side, dawn: Point, dusk: Point): seq<Point>
  {
    var (c2, c3) := Corners(side);
    var (s1, s4) := RimSlots(side, dawn, dusk);
    [Hub, s1, c2, c3, s4]
  }

  /** The dial angle, in radians, of a local time: midnight at the bottom, noon at the top. */
  function DialAngle(t: real): real
  {
    (t + TimeFudge) / 24.0 * Pi * 2.0
  }

  /**
   * The point on the dial for local time `t`: both coordinates are
   * truncated toward zero by the int16_t casts.
   */
  function RimPoint(trig: Trig, t: real): (p: Point)
    ensures var s := trig.sin(DialAngle(t)) * RimRadius;
            (0.0 <= s ==> p.x as real <= s < p.x as real + 1.0)
            && (s < 0.0 ==> p.x as real - 1.0 < s <= p.x as real)
    ensures var c := trig.cos(DialAngle(t)) * RimRadius;
            (0.0 <= c ==> (9 - p.y) as real <= c < (9 - p.y) as real + 1.0)
            && (c < 0.0 ==> (9 - p.y) as real - 1.0 < c <= (9 - p.y) as real)
    ensures -1.0 <= trig.sin(DialAngle(t)) <= 1.0 ==> -120 <= p.x <= 120
    ensures -1.0 <= trig.cos(DialAngle(t)) <= 1.0 ==> -111 <= p.y <= 129
  {
    var a := DialAngle(t);
    Point(Trunc(trig.sin(a) * RimRadius), 9 - Trunc(trig.cos(a) * RimRadius))
  }

  /** Twice the signed area: positive for a clockwise polygon on a y-down screen. */
  function Cross(p: Point, q: Point): int
  {
    p.x * q.y - q.x * p.y
  }

  function CrossSum(ps: seq<Point>, i: nat): int
    requires i <= |ps|
    decreases |ps| - i
  {
    if i == |ps| then 0 else Cross(ps[i], ps[(i + 1) % |ps|]) + CrossSum(ps, i + 1)
  }

  function Shoelace(ps: seq<Point>): int
  {
    CrossSum(ps, 0)
  }

  /** The shoelace sum of a five-point polygon, written out. */
  lemma ShoelaceOfFive(ps: seq<Point>)
    requires |ps| == 5
    ensures Shoelace(ps) == Cross(ps[0], ps[1]) + Cross(ps[1], ps[2]) + Cross(ps[2], ps[3])
                            + Cross(ps[3], ps[4]) + Cross(ps[4], ps[0])
  {
    assert CrossSum(ps, 5) == 0;
    assert CrossSum(ps, 4) == Cross(ps[4], ps[0]);
    assert CrossSum(ps, 3) == Cross(ps[3], ps[4]) + CrossSum(ps, 4);
    assert CrossSum(ps, 2) == Cross(ps[2], ps[3]) + CrossSum(ps, 3);
    assert CrossSum(ps, 1) == Cross(ps[1], ps[2]) + CrossSum(ps, 2);
  }

  /** The winding of both path shapes, in closed form in the dawn and dusk points. */
  lemma ShoelaceClosedForm(dawn: Point, dusk: Point)
    ensures Shoelace(PathPoints(EncloseTop, dawn, dusk))
            == 93 * (dusk.x - dawn.x) + 73 * (dawn.y + dusk.y) + 12264
    ensures Shoelace(PathPoints(EncloseBottom, dawn, dusk))
            == 75 * (dusk.x - dawn.x) - 73 * (dawn.y + dusk.y) + 12264
  {
    ShoelaceOfFive(PathPoints(EncloseTop, dawn, dusk));
    ShoelaceOfFive(PathPoints(EncloseBottom, dawn, dusk));
  }

  /**
   * Both orderings are clockwise whenever dawn lies left of (or level
   * with) dusk and both lie strictly between the top and bottom edges.
   */
  lemma PathIsClockwise(side: Side, dawn: Point, dusk: Point)
    requires dawn.x <= dusk.x
    requires YTop < dawn.y < YBottom && YTop < dusk.y < YBottom
    ensures Shoelace(PathPoints(side, dawn, dusk)) > 0
  {
    ShoelaceClosedForm(dawn, dusk);
  }

  /**
   * With the sun at the 6 h and 18 h positions (sin = -1, cos = 0 and
   * sin = 1, cos = 0) the rim points are (-120, 9) and (120, 9), and the
   * shoelace sums are 35898 for the top path and 28950 for the bottom one.
   */
  lemma WindingAtSixAndEighteen(trig: Trig)
    requires trig.sin(DialAngle(6.0)) == -1.0 && trig.cos(DialAngle(6.0)) == 0.0
    requires trig.sin(DialAngle(18.0)) == 1.0 && trig.cos(DialAngle(18.0)) == 0.0
    ensures RimPoint(trig, 6.0) == Point(-120, 9) && RimPoint(trig, 18.0) == Point(120, 9)
    ensures Shoelace(PathPoints(EncloseTop, RimPoint(trig, 6.0), RimPoint(trig, 18.0))) == 35898
    ensures Shoelace(PathPoints(EncloseBottom, RimPoint(trig, 6.0), RimPoint(trig, 18.0))) == 28950
  {
    assert RimPoint(trig, 6.0) == Point(-120, 9);
    assert RimPoint(trig, 18.0) == Point(120, 9);
    ShoelaceClosedForm(Point(-120, 9), Point(120, 9));
  }

  // ---------------------------------------------------------------------
  // Times.

  /**
   * adjustTimezone: the sentinel passes through; any other time gets the
   * timezone added, then loses 24 h if above 24 and gains 24 h if below 0.
   * Exactly 0 and exactly 24 are kept.
   */
  function AdjustTimezone(noRiseSet: real, time: real, tz: real): (r: real)
    ensures time == noRiseSet ==> r == noRiseSet
    ensures time != noRiseSet ==> r == time + tz || r == time + tz - 24.0 || r == time + tz + 24.0
    ensures time != noRiseSet && -24.0 <= time + tz <= 48.0 ==> 0.0 <= r <= 24.0
    ensures time != noRiseSet && 0.0 <= time + tz <= 24.0 ==> r == time + tz
  {
    if time != noRiseSet then
      var t1 := time + tz;
      var t2 := if t1 > 24.0 then t1 - 24.0 else t1;
      if t2 < 0.0 then t2 + 24.0 else t2
    else time
  }

  /**
   * calcRiseAndSet: rise and set for the given date and zenith at the
   * cached location, converted to local time. The date's year is passed on
   * as years since 1900 and its month plus one, as the C code does.
   */
  function RiseAndSet(trig: Trig, noRiseSet: real, cfg: ConfigData.Config, date: Tm, zenith: real): (real, real)
  {
    var riseTime := CalcSunRise(trig, noRiseSet, date.year, date.mon + 1, date.mday,
                            cfg.cache.latitude, cfg.cache.longitude, zenith);
    var setTime := CalcSunSet(trig, noRiseSet, date.year, date.mon + 1, date.mday,
                          cfg.cache.latitude, cfg.cache.longitude, zenith);
    (AdjustTimezone(noRiseSet, riseTime, cfg.tzHours), AdjustTimezone(noRiseSet, setTime, cfg.tzHours))
  }

  /**
   * The local times keep the sentinel, and a UTC time of day in [0, 24]
   * with a timezone of at most a day either way stays in [0, 24].
   */
  lemma RiseAndSetLocal(trig: Trig, noRiseSet: real, cfg: ConfigData.Config, date: Tm, zenith: real)
    ensures var (dawn, dusk) := RiseAndSet(trig, noRiseSet, cfg, date, zenith);
            var riseTime := CalcSunRise(trig, noRiseSet, date.year, date.mon + 1, date.mday,
                                    cfg.cache.latitude, cfg.cache.longitude, zenith);
            var setTime := CalcSunSet(trig, noRiseSet, date.year, date.mon + 1, date.mday,
                                  cfg.cache.latitude, cfg.cache.longitude, zenith);
            (riseTime == noRiseSet ==> dawn == noRiseSet) && (setTime == noRiseSet ==> dusk == noRiseSet) &&
            (-24.0 <= cfg.tzHours <= 24.0 && riseTime != noRiseSet && 0.0 <= riseTime <= 24.0 ==> 0.0 <= dawn <= 24.0) &&
            (-24.0 <= cfg.tzHours <= 24.0 && setTime != noRiseSet && 0.0 <= setTime <= 24.0 ==> 0.0 <= dusk <= 24.0)
  {
  }

  /**
   * Passing years since 1900 where the full year is expected changes
   * nothing for any year from 1900 on: the ephemeris uses the year only
   * through the day of the year, which depends on it modulo four.
   */
  lemma YearsSince1900Harmless(trig: Trig, noRiseSet: real, year: int, month: int, day: int,
                               latitude: real, longitude: real, sunset: bool, zenith: real)
    requires year >= 0
    ensures CalcSun(trig, noRiseSet, year, month, day, latitude, longitude, sunset, zenith)
            == CalcSun(trig, noRiseSet, year + 1900, month, day, latitude, longitude, sunset, zenith)
  {
    DayOfYearYearModFour(year, month, day);
    assert SunPosition(trig, year, month, day, latitude, longitude, sunset, zenith)
        == SunPosition(trig, year + 1900, month, day, latitude, longitude, sunset, zenith);
  }

  // ---------------------------------------------------------------------
  // Rendering and release, as functions of the object's fields.

  /** The calls of SAFE_DESTROY on the path and then on the bitmap. */
  function ReleaseCalls(path: Option<PathId>, bmpGrey: Option<BitmapId>): seq<GfxCall>
  {
    (if path.Some? then [PathDestroy(path.value)] else [])
    + (if bmpGrey.Some? then [BitmapDestroy(bmpGrey.value)] else [])
  }

  /** Destroy releases each handle it holds exactly once, the path first, and nothing else. */
  lemma ReleaseOnce(path: Option<PathId>, bmpGrey: Option<BitmapId>)
    ensures var calls := ReleaseCalls(path, bmpGrey);
            |calls| == (if path.Some? then 1 else 0) + (if bmpGrey.Some? then 1 else 0) &&
            (path.Some? ==> calls[0] == PathDestroy(path.value)) &&
            (bmpGrey.Some? ==> calls[|calls| - 1] == BitmapDestroy(bmpGrey.value)) &&
            (forall i | 0 <= i < |calls| :: calls[i].PathDestroy? || calls[i].BitmapDestroy?)
  {
  }

  /**
   * twilight_path_render: the new path handle and the calls made, given
   * what gpath_create returns (`created`).
   */
  function RenderStep(noRiseSet: real, path: Option<PathId>, bmpGrey: Option<BitmapId>,
                      dawnTime: real, duskTime: real, points: seq<Point>,
                      color: Color, frame: Rect, created: Option<PathId>): (Option<PathId>, seq<GfxCall>)
  {
    if dawnTime == noRiseSet || duskTime == noRiseSet then (path, [])
    else
      var released := if path.Some? then [PathDestroy(path.value)] else [];
      var built := released + [PathCreate(points)];
      if created.None? then (None, built)
      else
        var p := created.value;
        var grey := if bmpGrey.Some? then [SetCompositing(CompOpAnd), DrawBitmap(bmpGrey.value, frame)] else [];
        (created, built + [PathMoveToCenterOf(p, frame)] + grey + [SetFillColor(color), FillPath(p)])
  }

  /** With either time the sentinel, render keeps the path handle and makes no call. */
  lemma RenderSkipsSentinel(noRiseSet: real, path: Option<PathId>, bmpGrey: Option<BitmapId>,
                            dawnTime: real, duskTime: real, points: seq<Point>,
                            color: Color, frame: Rect, created: Option<PathId>)
    requires dawnTime == noRiseSet || duskTime == noRiseSet
    ensures RenderStep(noRiseSet, path, bmpGrey, dawnTime, duskTime, points, color, frame, created) == (path, [])
  {
  }

  /**
   * Otherwise render releases the old path (first, and only it), builds a
   * path from the current points, and keeps whatever gpath_create
   * returned. When creation failed nothing is drawn. When it succeeded the
   * bitmap is drawn, with AND compositing, exactly when there is one, and
   * the fill with `color` of the new path comes last.
   */
  lemma RenderRebuilds(noRiseSet: real, path: Option<PathId>, bmpGrey: Option<BitmapId>,
                       dawnTime: real, duskTime: real, points: seq<Point>,
                       color: Color, frame: Rect, created: Option<PathId>)
    requires dawnTime != noRiseSet && duskTime != noRiseSet
    ensures var (path', calls) := RenderStep(noRiseSet, path, bmpGrey, dawnTime, duskTime, points, color, frame, created);
            var k := if path.Some? then 1 else 0;
            path' == created && k < |calls| && calls[k] == PathCreate(points) &&
            (path.Some? ==> calls[0] == PathDestroy(path.value)) &&
            (forall i | 0 <= i < |calls| && calls[i].PathDestroy? :: i == 0 && path == Some(calls[i].path)) &&
            (created.None? ==> |calls| == k + 1) &&
            (created.Some? ==> calls[|calls| - 1] == FillPath(created.value)
                               && calls[|calls| - 2] == SetFillColor(color)) &&
            (created.Some? && bmpGrey.Some? ==> DrawBitmap(bmpGrey.value, frame) in calls) &&
            (forall i | 0 <= i < |calls| && calls[i].DrawBitmap? ::
               bmpGrey == Some(calls[i].bitmap) && calls[i].frame == frame && 0 < i && calls[i - 1] == SetCompositing(CompOpAnd)) &&
            (forall i | 0 <= i < |calls| && calls[i].FillPath? :: created == Some(calls[i].path))
  {
    var (path', calls) := RenderStep(noRiseSet, path, bmpGrey, dawnTime, duskTime, points, color, frame, created);
    var released := if path.Some? then [PathDestroy(path.value)] else [];
    var built := released + [PathCreate(points)];
    if created.Some? {
      var p := created.value;
      var grey := if bmpGrey.Some? then [SetCompositing(CompOpAnd), DrawBitmap(bmpGrey.value, frame)] else [];
      var tail := [PathMoveToCenterOf(p, frame)] + grey + [SetFillColor(color), FillPath(p)];
      assert calls == built + tail;
      assert forall i | |built| <= i < |calls| :: calls[i] == tail[i - |built|];
      if bmpGrey.Some? {
        assert calls[|built| + 2] == DrawBitmap(bmpGrey.value, frame);
      }
    }
  }

  // ---------------------------------------------------------------------
  // The object.

  /** Everything the dawn and dusk times are computed from: math library, sentinel, location cache and local date. */
  datatype SunInputs = SunInputs(trig: Trig, noRiseSet: real, config: ConfigData.Config, date: Tm)

  class TwilightPath {
    /** aPathPoints; pathInfo always describes all five of them. */
    const points: array<Point>
    const zenith: real
    const toEnclose: Side
    /** pBmpGrey; None is NULL. */
    var bmpGrey: Option<BitmapId>
    /** pPath; None is NULL. */
    var path: Option<PathId>
    var dawnTime: real
    var duskTime: real
    /** The inputs of the last twilight_path_compute_current, if any. */
    ghost var computedFor: Option<SunInputs>

    /** Five slots, with the hub and the two corners of this side in slots 0, 2 and 3. */
    predicate Valid()
      reads points
    {
      points.Length == PointsInPath && points[0] == Hub
      && points[2] == Corners(toEnclose).0 && points[3] == Corners(toEnclose).1
    }

    /**
     * Once computed, the stored dawn and dusk are those of the inputs last
     * computed from, and slots 1 and 4 hold their rim points (so with Valid
     * the slots are the whole path; see CurrentTimes). Rendering and
     * releasing do not touch what this reads.
     */
    ghost predicate Current()
      reads this`computedFor, this`dawnTime, this`duskTime, points
    {
      points.Length == PointsInPath
      && forall i {:trigger RiseAndSet(i.trig, i.noRiseSet, i.config, i.date, zenith)} | computedFor == Some(i) ::
           (dawnTime, duskTime) == RiseAndSet(i.trig, i.noRiseSet, i.config, i.date, zenith)
           && (points[1], points[4]) == RimSlots(toEnclose, RimPoint(i.trig, dawnTime), RimPoint(i.trig, duskTime))
    }

    /**
     * The object as twilight_path_create leaves it. The dawn and dusk
     * times and slots 1 and 4 hold whatever malloc returned.
     */
    constructor (zenith: real, toEnclose: Side, bmpGrey: Option<BitmapId>)
      ensures Valid() && Current() && fresh(points)
      ensures this.zenith == zenith && this.toEnclose == toEnclose
      ensures this.bmpGrey == bmpGrey && path == None && computedFor == None
    {
      var a := new Point[PointsInPath];
      a[0] := Hub;
      var (c2, c3) := Corners(toEnclose);
      a[2] := c2;
      a[3] := c3;
      var slot1: Point := *;
      var slot4: Point := *;
      a[1] := slot1;
      a[4] := slot4;
      var dawn: real := *;
      var dusk: real := *;
      this.points := a;
      this.zenith := zenith;
      this.toEnclose := toEnclose;
      this.bmpGrey := bmpGrey;
      this.path := None;
      this.dawnTime := dawn;
      this.duskTime := dusk;
      this.computedFor := None;
    }

    /**
     * twilight_path_compute_current: store the local dawn and dusk for the
     * date at the cached location, then put their rim points in slots 1
     * and 4 in this side's order. Slots 0, 2 and 3 and the handles keep
     * their values.
     */
    method ComputeCurrent(trig: Trig, noRiseSet: real, cfg: ConfigData.ConfigStore, localTime: Tm)
      requires Valid()
      modifies this, points
      ensures Valid()
      ensures Current() && computedFor == Some(SunInputs(trig, noRiseSet, cfg.State(), localTime))
      ensures path == old(path) && bmpGrey == old(bmpGrey)
    {
      var times := RiseAndSet(trig, noRiseSet, cfg.State(), localTime, zenith);
      var fDawnTime, fDuskTime := times.0, times.1;
      StoreTimes(trig, fDawnTime, fDuskTime, SunInputs(trig, noRiseSet, cfg.State(), localTime));
    }

    /**
     * The second half of twilight_path_compute_current: store the two
     * times, then put their rim points in slots 1 and 4 in this side's order.
     */
    method StoreTimes(trig: Trig, fDawnTime: real, fDuskTime: real, ghost inputs: SunInputs)
      requires Valid()
      modifies this, points
      ensures Valid()
      ensures dawnTime == fDawnTime && duskTime == fDuskTime
      ensures points[..] == PathPoints(toEnclose, RimPoint(trig, dawnTime), RimPoint(trig, duskTime))
      ensures computedFor == Some(inputs)
      ensures path == old(path) && bmpGrey == old(bmpGrey)
    {
      computedFor := Some(inputs);
      dawnTime := fDawnTime;
      duskTime := fDuskTime;
      var dawnPoint := RimPoint(trig, fDawnTime);
      var duskPoint := RimPoint(trig, fDuskTime);
      if toEnclose == EncloseTop {
        points[1] := dawnPoint;
        points[4] := duskPoint;
      } else {
        points[1] := duskPoint;
        points[4] := dawnPoint;
      }
      assert points[..] == [points[0], points[1], points[2], points[3], points[4]];
    }

    /** twilight_path_render, given what gpath_create returns. */
    method Render(noRiseSet: real, color: Color, frame: Rect, created: Option<PathId>)
      returns (calls: seq<GfxCall>)
      requires Valid()
      modifies this`path
      ensures (path, calls) == RenderStep(noRiseSet, old(path), bmpGrey, dawnTime, duskTime, points[..],
                                          color, frame, created)
    {
      calls := [];
      if dawnTime == noRiseSet || duskTime == noRiseSet {
        return;
      }
      var released: seq<GfxCall> := [];
      if path.Some? {
        released := [PathDestroy(path.value)];
      }
      calls := released + [PathCreate(points[..])];
      path := created;
      if path.None? {
        return;
      }
      var moved := calls + [PathMoveToCenterOf(path.value, frame)];
      var grey: seq<GfxCall> := [];
      if bmpGrey.Some? {
        grey := [SetCompositing(CompOpAnd), DrawBitmap(bmpGrey.value, frame)];
      }
      calls := moved + grey + [SetFillColor(color), FillPath(path.value)];
    }

    /** The release half of twilight_path_destroy: both handles are given back and cleared. */
    method Release() returns (calls: seq<GfxCall>)
      modifies this`path, this`bmpGrey
      ensures calls == ReleaseCalls(old(path), old(bmpGrey))
      ensures path == None && bmpGrey == None
    {
      calls := [];
      if path.Some? {
        calls := calls + [PathDestroy(path.value)];
        path := None;
      }
      if bmpGrey.Some? {
        calls := calls + [BitmapDestroy(bmpGrey.value)];
        bmpGrey := None;
      }
    }
  }

  /**
   * twilight_path_create, given whether malloc succeeded and what
   * gbitmap_create_with_resource returns. A failed allocation, or a
   * bitmap resource that does not load, gives NULL; INVALID_RESOURCE
   * gives an object without a bitmap.
   */
  method CreateTwilightPath(zenith: real, toEnclose: Side, resource: Resource,
                            mallocOk: bool, loaded: Option<BitmapId>)
    returns (tp: TwilightPath?)
    ensures tp == null <==> !mallocOk || (resource.ResourceId? && loaded.None?)
    ensures tp != null ==> fresh(tp) && fresh(tp.points) && tp.Valid() && tp.Current() && tp.computedFor == None
    ensures tp != null ==> tp.zenith == zenith && tp.toEnclose == toEnclose && tp.path == None
    ensures tp != null ==> tp.bmpGrey == (if resource.InvalidResource? then None else loaded)
  {
    if !mallocOk {
      return null;
    }
    var bmp: Option<BitmapId> := None;
    if resource.ResourceId? {
      bmp := loaded;
      if bmp.None? {
        return null;
      }
    }
    tp := new TwilightPath(zenith, toEnclose, bmp);
  }

  /** What a computed band holds: the times and the path of the inputs it was computed from. */
  lemma CurrentTimes(tp: TwilightPath, i: SunInputs)
    requires tp.Valid() && tp.Current() && tp.computedFor == Some(i)
    ensures (tp.dawnTime, tp.duskTime) == RiseAndSet(i.trig, i.noRiseSet, i.config, i.date, tp.zenith)
    ensures tp.points[..] == PathPoints(tp.toEnclose, RimPoint(i.trig, tp.dawnTime), RimPoint(i.trig, tp.duskTime))
  {
    var p := tp.points;
    assert p[..] == [p[0], p[1], p[2], p[3], p[4]];
  }

  /** twilight_path_destroy: nothing for NULL, otherwise release both handles. */
  method DestroyTwilightPath(tp: TwilightPath?) returns (calls: seq<GfxCall>)
    modifies tp
    ensures tp == null ==> calls == []
    ensures tp != null ==> calls == ReleaseCalls(old(tp.path), old(tp.bmpGrey)) && tp.path == None && tp.bmpGrey == None
  {
    calls := [];
    if tp != null {
      calls := tp.Release();
    }
  }
}
