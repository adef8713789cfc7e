/** The first revision of the library (`src/lib.rs`, `open`): a single pass that drops GPS noise
    with a 3 m distance / 3 m rise threshold, accumulates distance, uphill and downhill over the
    kept steps only, pushes an elevation sample for every later waypoint, and folds ascent and
    descent over the profile simplified with tolerance 1. */
module Thresholded {
  import opened GpxData
  import opened Profile
  import opened Trip

  const DISTANCE_THRESHOLD: real := 3.0
  const ELEVATION_THRESHOLD: real := 3.0
  /** The tolerance the profile is simplified with (`simplify(&1.0)`). */
  const SIMPLIFY_EPSILON: real := 1.0

  /** `elevation_diff`: current minus previous elevation, when both are known. */
  function Rise(previous: Waypoint, current: Waypoint): (r: Option<real>)
    ensures r.Some? <==> previous.elevation.Some? && current.elevation.Some?
    ensures r.Some? ==> previous.elevation.value + r.value == current.elevation.value
  {
    if previous.elevation.Some? && current.elevation.Some?
    then Some(current.elevation.value - previous.elevation.value)
    else None
  }

  /** The noise threshold: a candidate is kept when it lies more than 3 m away from the previous
      kept waypoint, or more than 3 m above it. A descent never keeps it. */
  predicate Keeps(g: Geodesic, previous: Waypoint, current: Waypoint) {
    g(previous.point, current.point) > DISTANCE_THRESHOLD
    || (Rise(previous, current).Some? && Rise(previous, current).value > ELEVATION_THRESHOLD)
  }

  /** What a kept step adds to the uphill total. */
  function StepGain(previous: Waypoint, current: Waypoint): real {
    match Rise(previous, current)
    case Some(diff) => if diff >= 0.0 then diff else 0.0
    case None => 0.0
  }

  /** What a kept step adds to the downhill total. */
  function StepLoss(previous: Waypoint, current: Waypoint): real {
    match Rise(previous, current)
    case Some(diff) => if diff >= 0.0 then 0.0 else -diff
    case None => 0.0
  }

  // ---------------------------------------------------------------------------------------
  // The pass, one candidate at a time

  /** One iteration of the inner loop: push the candidate's sample at the distance so far, then
      either keep the candidate (the totals grow, it becomes the previous waypoint) or drop it. */
  function Step(g: Geodesic, c: Cursor, current: Waypoint): Cursor {
    var s := c.stats.(shape := c.stats.shape + Sample(c.stats.distance, current));
    if Keeps(g, c.previous, current) then
      Cursor(current, s.(distance := s.distance + g(c.previous.point, current.point),
                         uphill := s.uphill + StepGain(c.previous, current),
                         downhill := s.downhill + StepLoss(c.previous, current)))
    else
      Cursor(c.previous, s)
  }

  /** The inner loop over the candidates of a segment. */
  function Scan(g: Geodesic, c: Cursor, candidates: seq<Waypoint>): Cursor {
    if candidates == [] then c
    else Step(g, Scan(g, c, candidates[..|candidates| - 1]), candidates[|candidates| - 1])
  }

  /** One segment: its first waypoint starts as the previous one, the others are candidates. */
  function SegmentStats(g: Geodesic, s: Stats, seg: Segment): Stats {
    if |seg.points| == 0 then s else Scan(g, Cursor(seg.points[0], s), seg.points[1..]).stats
  }

  /** The whole pass over the segments, in visiting order. */
  function TripStats(g: Geodesic, segs: seq<Segment>): Stats {
    if segs == [] then Start()
    else SegmentStats(g, TripStats(g, segs[..|segs| - 1]), segs[|segs| - 1])
  }

  /** A candidate becomes the previous waypoint exactly when it passes the threshold; a dropped
      candidate leaves distance, uphill and downhill as they were; a kept step adds its
      geodesic distance and sends a non-negative rise to uphill and a fall to downhill. In
      either case the candidate pushes its sample at the distance accumulated before it. */
  lemma StepEffect(g: Geodesic, c: Cursor, current: Waypoint)
    ensures var n := Step(g, c, current);
      n.previous == (if Keeps(g, c.previous, current) then current else c.previous) &&
      n.stats.shape == c.stats.shape + Sample(c.stats.distance, current) &&
      (!Keeps(g, c.previous, current) ==>
        n.stats.distance == c.stats.distance && n.stats.uphill == c.stats.uphill &&
        n.stats.downhill == c.stats.downhill) &&
      (Keeps(g, c.previous, current) ==>
        n.stats.distance == c.stats.distance + g(c.previous.point, current.point) &&
        (Rise(c.previous, current).Some? && Rise(c.previous, current).value >= 0.0 ==>
          n.stats.uphill == c.stats.uphill + Rise(c.previous, current).value &&
          n.stats.downhill == c.stats.downhill) &&
        (Rise(c.previous, current).Some? && Rise(c.previous, current).value < 0.0 ==>
          n.stats.uphill == c.stats.uphill &&
          n.stats.downhill == c.stats.downhill - Rise(c.previous, current).value) &&
        (Rise(c.previous, current).None? ==>
          n.stats.uphill == c.stats.uphill && n.stats.downhill == c.stats.downhill))
  {
  }

  /** A drop of any size within 3 m of distance is noise. */
  lemma DescentIsDropped(g: Geodesic, previous: Waypoint, current: Waypoint)
    requires g(previous.point, current.point) <= DISTANCE_THRESHOLD
    requires Rise(previous, current).Some? && Rise(previous, current).value < 0.0
    ensures !Keeps(g, previous, current)
  {
  }

  // ---------------------------------------------------------------------------------------
  // The same pass, stated as "filter the waypoints, then sum over the kept path"

  /** The waypoint filter: the kept path of a segment whose first waypoint is `first`. */
  function Filter(g: Geodesic, first: Waypoint, candidates: seq<Waypoint>): (path: seq<Waypoint>)
    ensures |path| > 0 && path[0] == first
  {
    if candidates == [] then [first]
    else
      var path := Filter(g, first, candidates[..|candidates| - 1]);
      var current := candidates[|candidates| - 1];
      if Keeps(g, path[|path| - 1], current) then path + [current] else path
  }

  function PathGain(path: seq<Waypoint>): (r: real)
    ensures r >= 0.0
  {
    if |path| < 2 then 0.0 else PathGain(path[..|path| - 1]) + StepGain(path[|path| - 2], path[|path| - 1])
  }

  function PathLoss(path: seq<Waypoint>): (r: real)
    ensures r >= 0.0
  {
    if |path| < 2 then 0.0 else PathLoss(path[..|path| - 1]) + StepLoss(path[|path| - 2], path[|path| - 1])
  }

  /** The single fused pass equals filtering first and summing over the kept path: the
      previous waypoint is the last kept one, and distance, uphill and downhill grow by the
      length, the gain and the loss of the kept path. */
  lemma {:induction false} ScanIsFilter(g: Geodesic, first: Waypoint, s: Stats, candidates: seq<Waypoint>)
    ensures var c := Scan(g, Cursor(first, s), candidates);
      var path := Filter(g, first, candidates);
      c.previous == path[|path| - 1] &&
      c.stats.distance == s.distance + PathLength(g, path) &&
      c.stats.uphill == s.uphill + PathGain(path) &&
      c.stats.downhill == s.downhill + PathLoss(path)
  {
    if candidates != [] {
      var pre := candidates[..|candidates| - 1];
      var current := candidates[|candidates| - 1];
      ScanIsFilter(g, first, s, pre);
      var path := Filter(g, first, pre);
      assert (path + [current])[..|path|] == path;
    }
  }

  /** Consecutive waypoints of a kept path all pass the threshold. */
  predicate Chain(g: Geodesic, path: seq<Waypoint>) {
    forall i :: 0 < i < |path| ==> Keeps(g, path[i - 1], path[i])
  }

  lemma {:induction false} FilterIsChain(g: Geodesic, first: Waypoint, candidates: seq<Waypoint>)
    ensures Chain(g, Filter(g, first, candidates))
  {
    if candidates != [] {
      FilterIsChain(g, first, candidates[..|candidates| - 1]);
    }
  }

  /** A path whose every step passes the threshold goes through the filter unchanged. */
  lemma {:induction false} ChainIsKept(g: Geodesic, path: seq<Waypoint>)
    requires |path| > 0 && Chain(g, path)
    ensures Filter(g, path[0], path[1..]) == path
  {
    if |path| > 1 {
      var pre := path[..|path| - 1];
      assert path[1..][..|path[1..]| - 1] == pre[1..];
      assert Chain(g, pre);
      ChainIsKept(g, pre);
    }
  }

  /** Filtering is idempotent: the kept path is a fixed point of the filter. */
  lemma FilterIdempotent(g: Geodesic, first: Waypoint, candidates: seq<Waypoint>)
    ensures var path := Filter(g, first, candidates);
      Filter(g, path[0], path[1..]) == path
  {
    FilterIsChain(g, first, candidates);
    ChainIsKept(g, Filter(g, first, candidates));
  }

  /** Every kept waypoint is the first waypoint or one of the candidates. */
  lemma {:induction false} FilterKeepsInputs(g: Geodesic, first: Waypoint, candidates: seq<Waypoint>)
    ensures forall w :: w in Filter(g, first, candidates) ==> w == first || w in candidates
  {
    if candidates != [] {
      FilterKeepsInputs(g, first, candidates[..|candidates| - 1]);
    }
  }

  /** A worked segment: a second fix within 3 m at the same elevation is noise, a third one
      more than 3 m away is kept. Both later fixes push a sample at the distance before their
      step, so the two samples share x = 0. */
  lemma NoiseCollapses(g: Geodesic, w1: Waypoint, w2: Waypoint, w3: Waypoint)
    requires w1.elevation == Some(100.0) && w2.elevation == Some(100.0) && w3.elevation == Some(150.0)
    requires g(w1.point, w2.point) <= DISTANCE_THRESHOLD && g(w1.point, w3.point) > DISTANCE_THRESHOLD
    ensures Filter(g, w1, [w2, w3]) == [w1, w3]
    ensures var s := SegmentStats(g, Start(), Segment([w1, w2, w3]));
      s.distance == g(w1.point, w3.point) && s.uphill == 50.0 && s.downhill == 0.0 &&
      s.shape == [Coordinate(0.0, 100.0), Coordinate(0.0, 150.0)]
  {
    assert [w2, w3][..1] == [w2];
    assert [w2][..0] == [];
    assert [w1, w2, w3][1..] == [w2, w3];
    assert !Keeps(g, w1, w2) && Keeps(g, w1, w3);
    assert Filter(g, w1, [w2]) == [w1];
    var c0 := Cursor(w1, Start());
    var c1 := Step(g, c0, w2);
    assert Scan(g, c0, [w2]) == c1;
    assert c1 == Cursor(w1, Start().(shape := [Coordinate(0.0, 100.0)]));
    assert Scan(g, c0, [w2, w3]) == Step(g, c1, w3);
  }

  // ---------------------------------------------------------------------------------------
  // Totals over all segments

  /** The kept path of a segment. */
  function SegmentPath(g: Geodesic, seg: Segment): seq<Waypoint>
    requires |seg.points| > 0
  {
    Filter(g, seg.points[0], seg.points[1..])
  }

  /** Sum over all segments of the length of their kept paths: steps between segments count
      for nothing. */
  function KeptDistance(g: Geodesic, segs: seq<Segment>): real {
    if segs == [] then 0.0
    else
      var last := segs[|segs| - 1];
      KeptDistance(g, segs[..|segs| - 1]) + (if |last.points| > 0 then PathLength(g, SegmentPath(g, last)) else 0.0)
  }

  function KeptGain(g: Geodesic, segs: seq<Segment>): real {
    if segs == [] then 0.0
    else
      var last := segs[|segs| - 1];
      KeptGain(g, segs[..|segs| - 1]) + (if |last.points| > 0 then PathGain(SegmentPath(g, last)) else 0.0)
  }

  function KeptLoss(g: Geodesic, segs: seq<Segment>): real {
    if segs == [] then 0.0
    else
      var last := segs[|segs| - 1];
      KeptLoss(g, segs[..|segs| - 1]) + (if |last.points| > 0 then PathLoss(SegmentPath(g, last)) else 0.0)
  }

  /** The pass's totals are those of the kept paths. */
  lemma {:induction false} TripStatsAreKept(g: Geodesic, segs: seq<Segment>)
    ensures TripStats(g, segs).distance == KeptDistance(g, segs)
    ensures TripStats(g, segs).uphill == KeptGain(g, segs)
    ensures TripStats(g, segs).downhill == KeptLoss(g, segs)
  {
    if segs != [] {
      var last := segs[|segs| - 1];
      TripStatsAreKept(g, segs[..|segs| - 1]);
      if |last.points| > 0 {
        ScanIsFilter(g, last.points[0], TripStats(g, segs[..|segs| - 1]), last.points[1..]);
      }
    }
  }

  lemma {:induction false} KeptTotalsNonNegative(g: Geodesic, segs: seq<Segment>)
    ensures KeptDistance(g, segs) >= 0.0 && KeptGain(g, segs) >= 0.0 && KeptLoss(g, segs) >= 0.0
  {
    if segs != [] {
      KeptTotalsNonNegative(g, segs[..|segs| - 1]);
    }
  }

  /** Every candidate with a known elevation pushes exactly one sample, kept or dropped, at a
      distance no smaller than the samples before it, and distance never decreases. */
  lemma {:induction false} ScanShape(g: Geodesic, c: Cursor, candidates: seq<Waypoint>)
    requires Ordered(c.stats.shape, c.stats.distance) && c.stats.distance >= 0.0
    ensures var n := Scan(g, c, candidates);
      Ordered(n.stats.shape, n.stats.distance) && n.stats.distance >= c.stats.distance &&
      Heights(n.stats.shape) == Heights(c.stats.shape) + Elevations(candidates)
  {
    if candidates != [] {
      var pre := candidates[..|candidates| - 1];
      var current := candidates[|candidates| - 1];
      ScanShape(g, c, pre);
      var m := Scan(g, c, pre);
      var n := Step(g, m, current);
      StepEffect(g, m, current);
      assert Elevations(candidates) == Elevations(pre)
        + (if current.elevation.Some? then [current.elevation.value] else []);
      PushSample(m.stats.shape, m.stats.distance, m.stats.distance, n.stats.distance, current);
      assert Heights(n.stats.shape) == Heights(m.stats.shape)
        + (if current.elevation.Some? then [current.elevation.value] else []);
    }
  }

  /** Over the whole pass: the profile holds the known elevations of every waypoint but the
      first of each segment, in order, at non-decreasing distances bounded by the total. */
  lemma {:induction false} TripShape(g: Geodesic, segs: seq<Segment>)
    ensures var s := TripStats(g, segs);
      Ordered(s.shape, s.distance) && s.distance >= 0.0 && Heights(s.shape) == AllElevations(segs)
  {
    if segs != [] {
      var last := segs[|segs| - 1];
      TripShape(g, segs[..|segs| - 1]);
      if |last.points| > 0 {
        ScanShape(g, Cursor(last.points[0], TripStats(g, segs[..|segs| - 1])), last.points[1..]);
      }
    }
  }

  // ---------------------------------------------------------------------------------------
  // The imperative pass

  /** The inner loop of `open` over the waypoints of one segment. */
  method WalkSegment(g: Geodesic, s: Stats, segment: Segment) returns (r: Stats)
    requires |segment.points| > 0
    ensures r == SegmentStats(g, s, segment)
  {
    var points := segment.points;
    var previous := points[0];
    r := s;
    for i := 1 to |points|
      invariant Scan(g, Cursor(points[0], s), points[1..i]) == Cursor(previous, r)
    {
      assert points[1..i + 1][..i - 1] == points[1..i];
      var current := points[i];
      var distance := g(previous.point, current.point);
      var elevationDiff: Option<real> := None;
      if previous.elevation.Some? && current.elevation.Some? {
        elevationDiff := Some(current.elevation.value - previous.elevation.value);
      }
      if current.elevation.Some? {
        r := r.(shape := r.shape + [Coordinate(r.distance, current.elevation.value)]);
      }
      if distance > 3.0 || (elevationDiff.Some? && elevationDiff.value > 3.0) {
        r := r.(distance := r.distance + distance);
        if previous.elevation.Some? && current.elevation.Some? {
          var diff := current.elevation.value - previous.elevation.value;
          if diff >= 0.0 {
            r := r.(uphill := r.uphill + diff);
          } else {
            r := r.(downhill := r.downhill - diff);
          }
        }
        previous := current;
      }
    }
    assert points[1..|points|] == points[1..];
  }

  /** The loop over the segments of one track. `done` holds the segments visited before, whose
      start times, start locations and totals `info` and `acc` already reflect. At each segment
      start the time and the location are filled in while they are still unknown. */
  method WalkTrack(g: Geodesic, geocode: Point -> Option<string>, ghost done: seq<Segment>,
                   info: GpxInfo, acc: Stats, segments: seq<Segment>)
    returns (info': GpxInfo, acc': Stats)
    requires forall s :: 0 <= s < |segments| ==> |segments[s].points| > 0
    requires info.datetime == FirstSome(StartTimes(done))
    requires info.location == FirstSome(StartLocations(done, geocode))
    requires acc == TripStats(g, done)
    ensures info' == info.(datetime := FirstSome(StartTimes(done + segments)),
                           location := FirstSome(StartLocations(done + segments, geocode)))
    ensures acc' == TripStats(g, done + segments)
  {
    info', acc' := info, acc;
    assert done + segments[..0] == done;
    for s := 0 to |segments|
      invariant info' == info.(datetime := FirstSome(StartTimes(done + segments[..s])),
                               location := FirstSome(StartLocations(done + segments[..s], geocode)))
      invariant acc' == TripStats(g, done + segments[..s])
    {
      ghost var before := done + segments[..s];
      var segment := segments[s];
      var first := segment.points[0];
      assert done + segments[..s + 1] == before + [segment];
      assert (before + [segment])[..|before|] == before;
      VisitSegment(before, segment, geocode);
      if info'.datetime.None? {
        info' := info'.(datetime := first.time);
      }
      if info'.location.None? {
        info' := info'.(location := geocode(first.point));
      }
      acc' := WalkSegment(g, acc', segment);
    }
    assert segments[..|segments|] == segments;
  }

  /** The nested loops over every segment of every track. */
  method WalkTracks(g: Geodesic, geocode: Point -> Option<string>, info: GpxInfo, tracks: seq<Track>)
    returns (info': GpxInfo, acc: Stats)
    requires SegmentsNonEmpty(tracks)
    requires info.datetime.None? && info.location.None?
    ensures info' == info.(datetime := FirstSome(StartTimes(AllSegments(tracks))),
                           location := FirstSome(StartLocations(AllSegments(tracks), geocode)))
    ensures acc == TripStats(g, AllSegments(tracks))
  {
    info', acc := info, Start();
    for t := 0 to |tracks|
      invariant info' == info.(datetime := FirstSome(StartTimes(AllSegments(tracks[..t]))),
                               location := FirstSome(StartLocations(AllSegments(tracks[..t]), geocode)))
      invariant acc == TripStats(g, AllSegments(tracks[..t]))
    {
      assert tracks[..t + 1][..t] == tracks[..t];
      info', acc := WalkTrack(g, geocode, AllSegments(tracks[..t]), info', acc, tracks[t].segments);
    }
    assert tracks[..|tracks|] == tracks;
  }

  /** `open` on an already parsed file. Besides the summary it returns the raw profile, the
      simplified profile and the ascent/descent folded over the latter, which the source
      prints. `geocode` stands for the reverse-geocoding request, `simplify` for `geo`'s
      `simplify`. */
  method Open(gpx: Gpx, g: Geodesic, geocode: Point -> Option<string>,
              simplify: (seq<Coordinate>, real) -> seq<Coordinate>)
    returns (info: GpxInfo, shape: seq<Coordinate>, simplified: seq<Coordinate>,
             simplUp: real, simplDown: real)
    requires |gpx.tracks| > 0
    requires SegmentsNonEmpty(gpx.tracks)
    requires |simplify(TripStats(g, AllSegments(gpx.tracks)).shape, SIMPLIFY_EPSILON)| > 0
    // metadata wins, the first track fills in
    ensures info.name == Name(gpx) && info.description == Description(gpx)
    // the first segment start that has a time / a place
    ensures info.datetime == FirstSome(StartTimes(AllSegments(gpx.tracks)))
    ensures info.location == FirstSome(StartLocations(AllSegments(gpx.tracks), geocode))
    // totals over the kept steps only, all non-negative
    ensures info.distance == KeptDistance(g, AllSegments(gpx.tracks))
    ensures info.uphill == KeptGain(g, AllSegments(gpx.tracks))
    ensures info.downhill == KeptLoss(g, AllSegments(gpx.tracks))
    ensures info.distance >= 0.0 && info.uphill >= 0.0 && info.downhill >= 0.0
    // the raw profile
    ensures shape == TripStats(g, AllSegments(gpx.tracks)).shape
    ensures Heights(shape) == AllElevations(AllSegments(gpx.tracks))
    ensures Ordered(shape, info.distance)
    // the simplified statistics, separate from info.uphill / info.downhill
    ensures simplified == simplify(shape, SIMPLIFY_EPSILON)
    ensures simplUp == Ascent(simplified) && simplDown == Descent(simplified)
    ensures simplUp >= 0.0 && simplDown >= 0.0
    ensures simplUp - simplDown == simplified[|simplified| - 1].y - simplified[0].y
  {
    info := NewInfo();
    if gpx.metadata.Some? {
      info := info.(name := gpx.metadata.value.name, description := gpx.metadata.value.description);
    }
    var track := gpx.tracks[0];
    if info.name.None? {
      info := info.(name := track.name);
    }
    if info.description.None? {
      info := info.(description := track.description);
    }

    var acc;
    info, acc := WalkTracks(g, geocode, info, gpx.tracks);
    ghost var done := AllSegments(gpx.tracks);
    TripStatsAreKept(g, done);
    KeptTotalsNonNegative(g, done);
    TripShape(g, done);
    info := info.(distance := acc.distance, uphill := acc.uphill, downhill := acc.downhill);
    shape := acc.shape;

    simplified := simplify(shape, SIMPLIFY_EPSILON);
    simplUp, simplDown := AccumulateUpDown(simplified, 0.0, 0.0);
    Telescoping(simplified);
  }
}
