/** The second revision of the library (`crates/spurilo/src/lib.rs`): `parse` sums the geodesic
    distance of every step with no noise threshold, pushes an elevation sample at the distance
    reached by each waypoint, derives a simplification tolerance from the uphill total, and
    takes uphill and downhill from the simplified profile alone; `draw` maps that profile onto
    a canvas and strokes it. */
module Spurilo {
  import opened GpxData
  import opened Profile
  import opened Trip

  const HEIGHT: real := 1000.0
  const DISTANCE_BASE: real := 5.0
  const DRAW_RATIO: real := 3.0

  // ---------------------------------------------------------------------------------------
  // The pass

  /** One iteration of the inner loop: the step's distance is added, then the waypoint pushes
      its sample at the distance reached, and becomes the previous waypoint. */
  function Step(g: Geodesic, c: Cursor, current: Waypoint): Cursor {
    var distance := c.stats.distance + g(c.previous.point, current.point);
    Cursor(current, c.stats.(distance := distance, shape := c.stats.shape + Sample(distance, current)))
  }

  function Scan(g: Geodesic, c: Cursor, candidates: seq<Waypoint>): Cursor {
    if candidates == [] then c
    else Step(g, Scan(g, c, candidates[..|candidates| - 1]), candidates[|candidates| - 1])
  }

  function SegmentStats(g: Geodesic, s: Stats, seg: Segment): Stats {
    if |seg.points| == 0 then s else Scan(g, Cursor(seg.points[0], s), seg.points[1..]).stats
  }

  function TripStats(g: Geodesic, segs: seq<Segment>): Stats {
    if segs == [] then Start()
    else SegmentStats(g, TripStats(g, segs[..|segs| - 1]), segs[|segs| - 1])
  }

  /** Every waypoint becomes the previous one; its sample sits at the distance including its
      own step; uphill and downhill are not touched. */
  lemma StepEffect(g: Geodesic, c: Cursor, current: Waypoint)
    ensures var n := Step(g, c, current);
      n.previous == current &&
      n.stats.distance == c.stats.distance + g(c.previous.point, current.point) &&
      n.stats.shape == c.stats.shape + Sample(n.stats.distance, current) &&
      n.stats.uphill == c.stats.uphill && n.stats.downhill == c.stats.downhill
  {
  }

  /** Within a segment the distance grows by the length of the whole waypoint path. */
  lemma {:induction false} ScanIsPath(g: Geodesic, first: Waypoint, s: Stats, candidates: seq<Waypoint>)
    ensures var c := Scan(g, Cursor(first, s), candidates);
      c.previous == ([first] + candidates)[|candidates|] &&
      c.stats.distance == s.distance + PathLength(g, [first] + candidates) &&
      c.stats.uphill == s.uphill && c.stats.downhill == s.downhill
  {
    if candidates != [] {
      var pre := candidates[..|candidates| - 1];
      ScanIsPath(g, first, s, pre);
      assert [first] + candidates == ([first] + pre) + [candidates[|candidates| - 1]];
      PathLengthAppend(g, [first] + pre, candidates[|candidates| - 1]);
    }
  }

  /** Sum over the segments of the length of their waypoint paths: the gap from the end of one
      segment to the start of the next is not counted. */
  function TrackDistance(g: Geodesic, segs: seq<Segment>): (r: real)
    ensures r >= 0.0
  {
    if segs == [] then 0.0
    else TrackDistance(g, segs[..|segs| - 1]) + PathLength(g, segs[|segs| - 1].points)
  }

  /** The pass's distance is the within-segment path length; uphill and downhill stay zero. */
  lemma {:induction false} TripStatsArePaths(g: Geodesic, segs: seq<Segment>)
    ensures TripStats(g, segs).distance == TrackDistance(g, segs)
    ensures TripStats(g, segs).uphill == 0.0 && TripStats(g, segs).downhill == 0.0
  {
    if segs != [] {
      var last := segs[|segs| - 1];
      TripStatsArePaths(g, segs[..|segs| - 1]);
      if |last.points| > 0 {
        ScanIsPath(g, last.points[0], TripStats(g, segs[..|segs| - 1]), last.points[1..]);
        assert [last.points[0]] + last.points[1..] == last.points;
      }
    }
  }

  /** Every waypoint but the first of a segment pushes exactly one sample when its elevation is
      known, at a distance no smaller than the samples before it. */
  lemma {:induction false} ScanShape(g: Geodesic, c: Cursor, candidates: seq<Waypoint>)
    requires Ordered(c.stats.shape, c.stats.distance) && c.stats.distance >= 0.0
    ensures var n := Scan(g, c, candidates);
      Ordered(n.stats.shape, n.stats.distance) && n.stats.distance >= c.stats.distance &&
      Heights(n.stats.shape) == Heights(c.stats.shape) + Elevations(candidates)
  {
    if candidates != [] {
      var pre := candidates[..|candidates| - 1];
      var current := candidates[|candidates| - 1];
      ScanShape(g, c, pre);
      var m := Scan(g, c, pre);
      var n := Step(g, m, current);
      StepEffect(g, m, current);
      assert Elevations(candidates) == Elevations(pre)
        + (if current.elevation.Some? then [current.elevation.value] else []);
      PushSample(m.stats.shape, m.stats.distance, n.stats.distance, n.stats.distance, current);
      assert Heights(n.stats.shape) == Heights(m.stats.shape)
        + (if current.elevation.Some? then [current.elevation.value] else []);
    }
  }

  /** Over the whole pass: the profile holds the known elevations of every waypoint but the
      first of each segment, in order, at non-decreasing distances bounded by the total. */
  lemma {:induction false} TripShape(g: Geodesic, segs: seq<Segment>)
    ensures var s := TripStats(g, segs);
      Ordered(s.shape, s.distance) && s.distance >= 0.0 && Heights(s.shape) == AllElevations(segs)
  {
    if segs != [] {
      var last := segs[|segs| - 1];
      TripShape(g, segs[..|segs| - 1]);
      if |last.points| > 0 {
        ScanShape(g, Cursor(last.points[0], TripStats(g, segs[..|segs| - 1])), last.points[1..]);
      }
    }
  }

  // ---------------------------------------------------------------------------------------
  // The simplification tolerance

  /** The value of a floating-point tolerance: a real, or the NaN or infinity that a division
      by a zero distance produces. */
  datatype Tolerance = Finite(value: real) | NonFinite

  /** `epsilon = 0.5 * DISTANCE_BASE * (uphill / (distance / 2) * DISTANCE_BASE)`. It is
      finite exactly when the distance is not zero, and then equals base² · uphill / distance. */
  function Epsilon(uphill: real, distance: real): (r: Tolerance)
    ensures r.Finite? <==> distance != 0.0
    ensures r.Finite? ==> r.value * distance == DISTANCE_BASE * DISTANCE_BASE * uphill
  {
    if distance == 0.0 then NonFinite
    else
      var e := 0.5 * DISTANCE_BASE * (uphill / (distance / 2.0) * DISTANCE_BASE);
      assert uphill / (distance / 2.0) * (distance / 2.0) == uphill;
      Finite(e)
  }

  /** With no uphill yet, the tolerance over a non-zero distance is zero. */
  lemma EpsilonOfFlat(distance: real)
    requires distance != 0.0
    ensures Epsilon(0.0, distance) == Finite(0.0)
  {
  }

  /** For a given positive distance, the formula grows with uphill. `parse` evaluates it only
      at zero uphill, so this describes the formula, not what `parse` computes. */
  lemma EpsilonGrowsWithUphill(u1: real, u2: real, distance: real)
    requires distance > 0.0 && u1 <= u2
    ensures Epsilon(u1, distance).value <= Epsilon(u2, distance).value
  {
    var e1, e2 := Epsilon(u1, distance).value, Epsilon(u2, distance).value;
    assert (e2 - e1) * distance == DISTANCE_BASE * DISTANCE_BASE * (u2 - u1);
  }

  // ---------------------------------------------------------------------------------------
  // The imperative pass

  /** The inner loop of `parse` over the waypoints of one segment. */
  method WalkSegment(g: Geodesic, s: Stats, segment: Segment) returns (r: Stats)
    requires |segment.points| > 0
    ensures r == SegmentStats(g, s, segment)
  {
    var points := segment.points;
    var previous := points[0];
    r := s;
    for i := 1 to |points|
      invariant Scan(g, Cursor(points[0], s), points[1..i]) == Cursor(previous, r)
    {
      assert points[1..i + 1][..i - 1] == points[1..i];
      var current := points[i];
      var distance := g(previous.point, current.point);
      r := r.(distance := r.distance + distance);
      if current.elevation.Some? {
        r := r.(shape := r.shape + [Coordinate(r.distance, current.elevation.value)]);
      }
      previous := current;
    }
    assert points[1..|points|] == points[1..];
  }

  /** The loop over the segments of one track; see `Thresholded.WalkTrack`. */
  method WalkTrack(g: Geodesic, geocode: Point -> Option<string>, ghost done: seq<Segment>,
                   info: GpxInfo, acc: Stats, segments: seq<Segment>)
    returns (info': GpxInfo, acc': Stats)
    requires forall s :: 0 <= s < |segments| ==> |segments[s].points| > 0
    requires info.datetime == FirstSome(StartTimes(done))
    requires info.location == FirstSome(StartLocations(done, geocode))
    requires acc == TripStats(g, done)
    ensures info' == info.(datetime := FirstSome(StartTimes(done + segments)),
                           location := FirstSome(StartLocations(done + segments, geocode)))
    ensures acc' == TripStats(g, done + segments)
  {
    info', acc' := info, acc;
    assert done + segments[..0] == done;
    for s := 0 to |segments|
      invariant info' == info.(datetime := FirstSome(StartTimes(done + segments[..s])),
                               location := FirstSome(StartLocations(done + segments[..s], geocode)))
      invariant acc' == TripStats(g, done + segments[..s])
    {
      ghost var before := done + segments[..s];
      var segment := segments[s];
      var first := segment.points[0];
      assert done + segments[..s + 1] == before + [segment];
      assert (before + [segment])[..|before|] == before;
      VisitSegment(before, segment, geocode);
      if info'.datetime.None? {
        info' := info'.(datetime := first.time);
      }
      if info'.location.None? {
        info' := info'.(location := geocode(first.point));
      }
      acc' := WalkSegment(g, acc', segment);
    }
    assert segments[..|segments|] == segments;
  }

  /** The nested loops over every segment of every track. */
  method WalkTracks(g: Geodesic, geocode: Point -> Option<string>, info: GpxInfo, tracks: seq<Track>)
    returns (info': GpxInfo, acc: Stats)
    requires SegmentsNonEmpty(tracks)
    requires info.datetime.None? && info.location.None?
    ensures info' == info.(datetime := FirstSome(StartTimes(AllSegments(tracks))),
                           location := FirstSome(StartLocations(AllSegments(tracks), geocode)))
    ensures acc == TripStats(g, AllSegments(tracks))
  {
    info', acc := info, Start();
    for t := 0 to |tracks|
      invariant info' == info.(datetime := FirstSome(StartTimes(AllSegments(tracks[..t]))),
                               location := FirstSome(StartLocations(AllSegments(tracks[..t]), geocode)))
      invariant acc == TripStats(g, AllSegments(tracks[..t]))
    {
      assert tracks[..t + 1][..t] == tracks[..t];
      info', acc := WalkTrack(g, geocode, AllSegments(tracks[..t]), info', acc, tracks[t].segments);
    }
    assert tracks[..|tracks|] == tracks;
  }

  /** `parse`: the summary and the simplified profile. `geocode` stands for the
      reverse-geocoding request, `simplify` for `geo`'s `simplifyvw_preserve`. */
  method Parse(gpx: Gpx, g: Geodesic, geocode: Point -> Option<string>,
               simplify: (seq<Coordinate>, Tolerance) -> seq<Coordinate>)
    returns (info: GpxInfo, simplified: seq<Coordinate>)
    requires |gpx.tracks| > 0
    requires SegmentsNonEmpty(gpx.tracks)
    requires |simplify(TripStats(g, AllSegments(gpx.tracks)).shape,
                       Epsilon(0.0, TrackDistance(g, AllSegments(gpx.tracks))))| > 0
    ensures info.name == Name(gpx) && info.description == Description(gpx)
    ensures info.datetime == FirstSome(StartTimes(AllSegments(gpx.tracks)))
    ensures info.location == FirstSome(StartLocations(AllSegments(gpx.tracks), geocode))
    ensures info.distance == TrackDistance(g, AllSegments(gpx.tracks)) && info.distance >= 0.0
    // the tolerance is computed while uphill is still zero
    ensures simplified == simplify(TripStats(g, AllSegments(gpx.tracks)).shape, Epsilon(0.0, info.distance))
    // uphill and downhill come from the simplified profile only
    ensures info.uphill == Ascent(simplified) && info.downhill == Descent(simplified)
    ensures info.uphill >= 0.0 && info.downhill >= 0.0
    ensures info.uphill - info.downhill == simplified[|simplified| - 1].y - simplified[0].y
  {
    info := NewInfo();
    info := info.(name := Name(gpx), description := Description(gpx));

    var acc;
    info, acc := WalkTracks(g, geocode, info, gpx.tracks);
    TripStatsArePaths(g, AllSegments(gpx.tracks));
    info := info.(distance := acc.distance, uphill := acc.uphill, downhill := acc.downhill);

    var epsilon := Epsilon(info.uphill, info.distance);
    simplified := simplify(acc.shape, epsilon);

    var up, down := AccumulateUpDown(simplified, info.uphill, info.downhill);
    Telescoping(simplified);
    info := info.(uphill := up, downhill := down);
  }

  // ---------------------------------------------------------------------------------------
  // Drawing

  datatype CanvasPoint = CanvasPoint(x: real, y: real)

  /** A stroked line (`kurbo::Line`) from `p0` to `p1`. */
  datatype Line = Line(p0: CanvasPoint, p1: CanvasPoint)

  datatype Rect = Rect(x0: real, y0: real, x1: real, y1: real)

  /** A profile sample on the canvas: distance scaled down by the ratio, elevation measured
      down from the top edge. */
  function ToCanvas(c: Coordinate): CanvasPoint {
    CanvasPoint(c.x / DRAW_RATIO, HEIGHT - c.y)
  }

  /** The sample a canvas point shows. */
  function FromCanvas(p: CanvasPoint): Coordinate {
    Coordinate(p.x * DRAW_RATIO, HEIGHT - p.y)
  }

  /** The canvas mapping is a bijection. */
  lemma CanvasRoundTrip(c: Coordinate, p: CanvasPoint)
    ensures FromCanvas(ToCanvas(c)) == c
    ensures ToCanvas(FromCanvas(p)) == p
  {
  }

  /** Further along draws further right, higher draws higher (smaller canvas y). */
  lemma CanvasOrientation(a: Coordinate, b: Coordinate)
    ensures a.x <= b.x <==> ToCanvas(a).x <= ToCanvas(b).x
    ensures a.y < b.y <==> ToCanvas(b).y < ToCanvas(a).y
  {
  }

  /** `draw` without the device: the background rectangle and the strokes, one per pair of
      consecutive samples, joined end to end. The first sample is taken with
      `next().unwrap()`, hence the requirement that the profile is not empty. */
  method Draw(line: seq<Coordinate>, info: GpxInfo) returns (background: Rect, strokes: seq<Line>)
    requires |line| > 0
    ensures background == Rect(0.0, 0.0, info.distance / DRAW_RATIO, HEIGHT)
    ensures |strokes| == |line| - 1
    ensures forall i :: 0 <= i < |strokes| ==> strokes[i] == Line(ToCanvas(line[i]), ToCanvas(line[i + 1]))
    ensures forall i :: 0 <= i < |strokes| ==> FromCanvas(strokes[i].p0) == line[i] && FromCanvas(strokes[i].p1) == line[i + 1]
  {
    background := Rect(0.0, 0.0, info.distance / DRAW_RATIO, HEIGHT);
    strokes := [];
    var previous := line[0];
    for i := 1 to |line|
      invariant previous == line[i - 1]
      invariant |strokes| == i - 1
      invariant forall k :: 0 <= k < i - 1 ==> strokes[k] == Line(ToCanvas(line[k]), ToCanvas(line[k + 1]))
    {
      var current := line[i];
      strokes := strokes + [Line(CanvasPoint(previous.x / DRAW_RATIO, HEIGHT - previous.y),
                                 CanvasPoint(current.x / DRAW_RATIO, HEIGHT - current.y))];
      previous := current;
    }
    forall i | 0 <= i < |strokes|
      ensures FromCanvas(strokes[i].p0) == line[i] && FromCanvas(strokes[i].p1) == line[i + 1]
    {
      CanvasRoundTrip(line[i], strokes[i].p0);
      CanvasRoundTrip(line[i + 1], strokes[i].p1);
    }
  }
}
