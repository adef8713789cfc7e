/** The records the `gpx` crate hands to the statistics pass, and the `GpxInfo`
    summary that both revisions of the library build from them. */
module GpxData {

  datatype Option<+T> = None | Some(value: T)

  /** A UTC instant (chrono's `DateTime<Utc>`), as a count of nanoseconds since the epoch. */
  datatype Instant = Instant(nanos: int)

  /** A geographic position: x is the longitude, y the latitude, in degrees. */
  datatype Point = Point(x: real, y: real)

  datatype Waypoint = Waypoint(point: Point, elevation: Option<real>, time: Option<Instant>)

  datatype Segment = Segment(points: seq<Waypoint>)

  datatype Track = Track(name: Option<string>, description: Option<string>, segments: seq<Segment>)

  datatype Metadata = Metadata(name: Option<string>, description: Option<string>)

  datatype Gpx = Gpx(metadata: Option<Metadata>, tracks: seq<Track>)

  /** The ellipsoidal distance in metres between two points, computed by the `geo` crate.
      Its algorithm is not modelled: any non-negative function of two points will do. */
  type Geodesic = f: (Point, Point) -> real | forall p, q :: f(p, q) >= 0.0
    witness (p: Point, q: Point) => 0.0

  /** The summary record (`GpxInfo`), identical in both revisions of the library. */
  datatype GpxInfo = GpxInfo(
    name: Option<string>,
    description: Option<string>,
    datetime: Option<Instant>,
    location: Option<string>,
    distance: real,
    uphill: real,
    downhill: real)

  /** `GpxInfo::new`: nothing known, every total zero. */
  function NewInfo(): GpxInfo {
    GpxInfo(None, None, None, None, 0.0, 0.0, 0.0)
  }

  /** Every segment of every track holds at least one waypoint; both passes take the first
      waypoint of each segment with `next().unwrap()`, which panics on an empty segment. */
  predicate SegmentsNonEmpty(tracks: seq<Track>) {
    forall t, s :: 0 <= t < |tracks| && 0 <= s < |tracks[t].segments| ==>
      |tracks[t].segments[s].points| > 0
  }
}
