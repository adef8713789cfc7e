/** What both revisions of the statistics pass share: the walk over every segment of every
    track in order, the start time and location taken from segment starts, the running
    totals, and the elevation samples pushed along the way. */
module Trip {
  import opened GpxData
  import opened Profile

  /** The running totals of one pass (`info.distance`, `info.uphill`, `info.downhill`) and the
      elevation profile (`elevation_shape`) it pushes samples onto. */
  datatype Stats = Stats(distance: real, uphill: real, downhill: real, shape: seq<Coordinate>)

  /** The state of the inner loop over a segment: the previous waypoint and the running totals. */
  datatype Cursor = Cursor(previous: Waypoint, stats: Stats)

  /** The totals before the first segment: those of `GpxInfo::new` and an empty profile. */
  function Start(): Stats {
    Stats(NewInfo().distance, NewInfo().uphill, NewInfo().downhill, [])
  }

  /** The summary's name: the file-level metadata name when there is one, otherwise the name of
      the first track. */
  function Name(gpx: Gpx): (r: Option<string>)
    requires |gpx.tracks| > 0
    ensures gpx.metadata.Some? && gpx.metadata.value.name.Some? ==> r == gpx.metadata.value.name
    ensures !(gpx.metadata.Some? && gpx.metadata.value.name.Some?) ==> r == gpx.tracks[0].name
    ensures r.Some? <==> (gpx.metadata.Some? && gpx.metadata.value.name.Some?) || gpx.tracks[0].name.Some?
  {
    match gpx.metadata
    case Some(metadata) => if metadata.name.Some? then metadata.name else gpx.tracks[0].name
    case None => gpx.tracks[0].name
  }

  /** The summary's description, by the same rule as the name. */
  function Description(gpx: Gpx): (r: Option<string>)
    requires |gpx.tracks| > 0
    ensures gpx.metadata.Some? && gpx.metadata.value.description.Some? ==> r == gpx.metadata.value.description
    ensures !(gpx.metadata.Some? && gpx.metadata.value.description.Some?) ==> r == gpx.tracks[0].description
    ensures r.Some? <==>
      (gpx.metadata.Some? && gpx.metadata.value.description.Some?) || gpx.tracks[0].description.Some?
  {
    match gpx.metadata
    case Some(metadata) => if metadata.description.Some? then metadata.description else gpx.tracks[0].description
    case None => gpx.tracks[0].description
  }

  /** The segments in the order the nested `for track … for segment …` loops visit them. */
  function AllSegments(tracks: seq<Track>): seq<Segment> {
    if tracks == [] then []
    else AllSegments(tracks[..|tracks| - 1]) + tracks[|tracks| - 1].segments
  }

  /** The time of the first waypoint of each segment, in visiting order. */
  function StartTimes(segs: seq<Segment>): seq<Option<Instant>> {
    if segs == [] then []
    else
      var last := segs[|segs| - 1];
      StartTimes(segs[..|segs| - 1]) + (if |last.points| > 0 then [last.points[0].time] else [])
  }

  /** What the reverse-geocoding service answers for the first waypoint of each segment. */
  function StartLocations(segs: seq<Segment>, geocode: Point -> Option<string>): seq<Option<string>> {
    if segs == [] then []
    else
      var last := segs[|segs| - 1];
      StartLocations(segs[..|segs| - 1], geocode)
        + (if |last.points| > 0 then [geocode(last.points[0].point)] else [])
  }

  /** When every segment holds a waypoint, there is one start time and one start location per
      segment, and the i-th are those of the first waypoint of segment i. */
  lemma {:induction false} StartsAreFirsts(segs: seq<Segment>, geocode: Point -> Option<string>)
    requires forall i :: 0 <= i < |segs| ==> |segs[i].points| > 0
    ensures |StartTimes(segs)| == |segs| && |StartLocations(segs, geocode)| == |segs|
    ensures forall i :: 0 <= i < |segs| ==>
      StartTimes(segs)[i] == segs[i].points[0].time &&
      StartLocations(segs, geocode)[i] == geocode(segs[i].points[0].point)
  {
    if segs != [] {
      var pre, last := segs[..|segs| - 1], segs[|segs| - 1];
      StartsAreFirsts(pre, geocode);
      assert StartTimes(segs) == StartTimes(pre) + [last.points[0].time];
      assert StartLocations(segs, geocode) == StartLocations(pre, geocode) + [geocode(last.points[0].point)];
      forall i | 0 <= i < |segs|
        ensures StartTimes(segs)[i] == segs[i].points[0].time
        ensures StartLocations(segs, geocode)[i] == geocode(segs[i].points[0].point)
      {
        if i < |pre| {
          assert segs[i] == pre[i];
        }
      }
    }
  }

  /** The first known value of a sequence of optional values. */
  function FirstSome<T>(xs: seq<Option<T>>): Option<T> {
    if xs == [] then None
    else if xs[0].Some? then xs[0]
    else FirstSome(xs[1..])
  }

  /** There is a first known value exactly when some value is known, and it is the earliest one. */
  lemma {:induction false} FirstSomeIsFirst<T>(xs: seq<Option<T>>)
    ensures FirstSome(xs).Some? <==> exists i :: 0 <= i < |xs| && xs[i].Some?
    ensures FirstSome(xs).Some? ==>
      exists i :: 0 <= i < |xs| && xs[i] == FirstSome(xs) && forall j :: 0 <= j < i ==> xs[j].None?
  {
    if xs != [] && xs[0].None? {
      FirstSomeIsFirst(xs[1..]);
      assert forall i :: 0 < i < |xs| ==> xs[i] == xs[1..][i - 1];
      if FirstSome(xs).Some? {
        var k :| 0 <= k < |xs[1..]| && xs[1..][k] == FirstSome(xs[1..]) && forall j :: 0 <= j < k ==> xs[1..][j].None?;
        assert xs[k + 1] == FirstSome(xs) && forall j :: 0 <= j < k + 1 ==> xs[j].None?;
      }
    }
  }

  /** The loop's `if x.is_none() { x = candidate }` step: appending a candidate changes the first
      known value only while there is none. */
  lemma {:induction false} FirstSomeAppend<T>(xs: seq<Option<T>>, x: Option<T>)
    ensures FirstSome(xs + [x]) == if FirstSome(xs).Some? then FirstSome(xs) else x
  {
    if xs != [] {
      assert (xs + [x])[1..] == xs[1..] + [x];
      FirstSomeAppend(xs[1..], x);
    }
  }

  /** Once a first value is known, no later candidate changes it. */
  lemma {:induction false} FirstSomeStable<T>(xs: seq<Option<T>>, ys: seq<Option<T>>)
    requires FirstSome(xs).Some?
    ensures FirstSome(xs + ys) == FirstSome(xs)
  {
    if xs[0].None? {
      assert (xs + ys)[1..] == xs[1..] + ys;
      FirstSomeStable(xs[1..], ys);
    }
  }

  /** Visiting one more segment adds its start to the start times and start locations: the
      known value changes only while there is none yet. */
  lemma VisitSegment(done: seq<Segment>, segment: Segment, geocode: Point -> Option<string>)
    requires |segment.points| > 0
    ensures var first := segment.points[0];
      FirstSome(StartTimes(done + [segment]))
        == (if FirstSome(StartTimes(done)).Some? then FirstSome(StartTimes(done)) else first.time) &&
      FirstSome(StartLocations(done + [segment], geocode))
        == (if FirstSome(StartLocations(done, geocode)).Some? then FirstSome(StartLocations(done, geocode))
            else geocode(first.point))
  {
    var first := segment.points[0];
    assert (done + [segment])[..|done|] == done;
    FirstSomeAppend(StartTimes(done), first.time);
    FirstSomeAppend(StartLocations(done, geocode), geocode(first.point));
  }

  /** Sum of the geodesic distances between consecutive waypoints of a path. */
  function PathLength(g: Geodesic, path: seq<Waypoint>): (r: real)
    ensures r >= 0.0
  {
    if |path| < 2 then 0.0
    else PathLength(g, path[..|path| - 1]) + g(path[|path| - 2].point, path[|path| - 1].point)
  }

  lemma PathLengthAppend(g: Geodesic, path: seq<Waypoint>, w: Waypoint)
    requires |path| > 0
    ensures PathLength(g, path + [w]) == PathLength(g, path) + g(path[|path| - 1].point, w.point)
  {
    assert (path + [w])[..|path|] == path;
  }

  /** The sample a waypoint pushes at distance `x`: one when its elevation is known, none otherwise. */
  function Sample(x: real, w: Waypoint): seq<Coordinate> {
    if w.elevation.Some? then [Coordinate(x, w.elevation.value)] else []
  }

  /** The known elevations of a run of waypoints, in order. */
  function Elevations(ws: seq<Waypoint>): seq<real> {
    if ws == [] then []
    else
      var w := ws[|ws| - 1];
      Elevations(ws[..|ws| - 1]) + (if w.elevation.Some? then [w.elevation.value] else [])
  }

  /** The known elevations of every waypoint except the first of its segment, in visiting order. */
  function AllElevations(segs: seq<Segment>): seq<real> {
    if segs == [] then []
    else
      var last := segs[|segs| - 1];
      AllElevations(segs[..|segs| - 1]) + (if |last.points| > 0 then Elevations(last.points[1..]) else [])
  }

  /** Pushing the sample of `w` at a distance between the old and the new bound keeps the
      profile ordered, and adds exactly the elevation of `w`, if it has one. */
  lemma PushSample(shape: seq<Coordinate>, bound: real, x: real, bound': real, w: Waypoint)
    requires Ordered(shape, bound) && 0.0 <= bound <= x <= bound'
    ensures Ordered(shape + Sample(x, w), bound')
    ensures Heights(shape + Sample(x, w))
         == Heights(shape) + (if w.elevation.Some? then [w.elevation.value] else [])
  {
    HeightsAppend(shape, Sample(x, w));
    if w.elevation.Some? {
      assert Heights([Coordinate(x, w.elevation.value)]) == [w.elevation.value];
    }
  }
}
