# Spurilo trip statistics, modelled in Dafny

Spurilo reads a GPX recording (tracks made of segments made of waypoints, each with a
position, an optional elevation and an optional time) and reduces it to a `GpxInfo`
summary: name, description, start time, start location, distance, uphill and downhill,
plus an elevation profile (`(distance so far, elevation)` samples) that is simplified
before its ascent and descent are summed. The repository holds two revisions of this
reduction, and the model keeps them apart:

- `thresholded.dfy` (module `Thresholded`) is `open` in `src/lib.rs`. A waypoint is kept only
  if it lies more than 3 m from the previous kept waypoint or more than 3 m above it. Only
  kept steps add to distance, uphill and downhill. Every later waypoint with an elevation
  still pushes a profile sample at the distance reached before its step. The profile is then
  simplified with tolerance 1, and a separate ascent/descent is folded over the result.
- `spurilo.dfy` (module `Spurilo`) is `parse` and `draw` in `crates/spurilo/src/lib.rs`.
  Every step adds its geodesic distance, with no threshold. Samples sit at the distance that
  includes their own step. A tolerance is derived from uphill and distance, the profile is
  simplified with it, and uphill and downhill come from the simplified profile alone. `draw`
  maps the profile onto a 1000-high canvas and strokes one line per pair of consecutive
  samples.
- `trip.dfy` (module `Trip`) holds what both revisions share: the visiting order of
  segments, the name and description precedence, the start time and start location, the
  running totals and the samples.
- `profile.dfy` (module `Profile`) holds the profile and the ascent/descent fold. That fold
  is the same loop in both files.
- `gpxdata.dfy` (module `GpxData`) holds the records of the `gpx` crate and `GpxInfo` with
  its initial value `GpxInfo::new`.

Both passes are imperative methods with loops. `WalkSegment` is the loop over the waypoints
of a segment, `WalkTrack` the loop over the segments of a track, `WalkTracks` the loop over
the tracks. Each is proved equal to a fold function (`Scan`, `TripStats`). The properties
are then proved about those folds:

- the fused single pass of `open` equals "filter the waypoints, then sum over the kept path"
  (`ScanIsFilter`, `TripStatsAreKept`), and the filter is idempotent;
- `parse`'s distance is the sum of the path lengths within segments (`TripStatsArePaths`);
- the profile holds exactly the known elevations of every waypoint except the first of each
  segment, in order, at non-decreasing distances (`TripShape`);
- the simplified ascent minus descent telescopes to the net elevation change (`Telescoping`).

The source repeats the segment, track and shape loops in both files, differing only in the
inner step. The model repeats them the same way: `ScanShape`, `TripShape`, `WalkSegment`,
`WalkTrack` and `WalkTracks` appear in both modules, each over its own `Step`.

`GpxInfo` is a Rust value that the source mutates field by field. The model keeps it as a
Dafny datatype held in a local variable and reassigned field by field. The running totals and
the profile are carried in a `Stats` record and copied into the summary after the loops.

External collaborators are parameters of `Open` and `Parse`:

- `g: Geodesic` is the `geo` crate's geodesic distance: any non-negative function of two
  points.
- `geocode: Point -> Option<string>` is the reverse-geocoding request together with its
  formatting. `None` means the request failed or the answer had no usable feature.
- `simplify` is the `geo` crate's `simplify` (in `Open`) or `simplifyvw_preserve` (in
  `Parse`). Nothing is assumed about it except that it returns a non-empty profile on the
  profile at hand (the `unwrap` precondition below).

`f64` is modelled as `real`. The tolerance of `parse` is a `Tolerance`: `Finite(v)`, or
`NonFinite` for the NaN or infinity that `f64` division by a zero distance yields.

Panics are preconditions:

- `gpx.tracks[0]` needs at least one track.
- `next().unwrap()` on a segment's waypoints needs every segment to be non-empty.
- `next().unwrap()` on the simplified profile (in `open`, `parse` and `draw`) needs that
  profile to be non-empty.

Behaviour of the code that the model follows as written:

- The threshold is one-sided. A candidate is kept on a rise of more than 3 m, but a descent
  of any size within 3 m of distance is dropped (`DescentIsDropped`).
- At each segment start, the location lookup is attempted again while no location is known
  yet. It is not a single attempt per run (`StartLocations`, `FirstSome`).
- The start time is the first segment-start waypoint that has a time. Later waypoints of a
  segment are never consulted.
- In `parse`, the tolerance is computed before anything has been added to uphill. So it is
  `Epsilon(0.0, distance)`, which is zero whenever the distance is not zero
  (`EpsilonOfFlat`), and non-finite when the distance is zero.
- In `open`, the uphill and downhill of the simplified profile are computed and printed, but
  they never reach `info`. The model returns them next to the summary.

## Model

| member | source | states |
|---|---|---|
| `Trip.Name` | crates/spurilo/src/lib.rs:62-65 | the file-level metadata name wins when present; otherwise the first track's name; the result is known iff one of the two is |
| `Trip.Description` | crates/spurilo/src/lib.rs:67-70 | the same precedence for the description |
| `GpxData.NewInfo` | src/lib.rs:24-34 | no contract of its own: the initial summary, with nothing known and every total zero; `Trip.Start` takes its totals |
| `Trip.StartTimes` | src/lib.rs:63-70 | no contract of its own: the times of the segments' first waypoints, in visiting order; `StartsAreFirsts`, `VisitSegment` and `FirstSomeIsFirst` state what is taken from it |
| `Trip.StartLocations` | src/lib.rs:72-98 | no contract of its own: the geocoded first waypoints of the segments, in visiting order; stated by the same lemmas |
| `Trip.StartsAreFirsts` | src/lib.rs:63-98 | when every segment is non-empty, there is one start time and one start location per segment, the i-th from the first waypoint of segment i |
| `Trip.FirstSomeIsFirst` | crates/spurilo/src/lib.rs:80-82 | the start time (or location) is known iff some segment start provides one, and it is the earliest such value |
| `Trip.FirstSomeAppend` | crates/spurilo/src/lib.rs:80-82 | the `if is_none() { set }` step: a new segment start changes the value only while none is known |
| `Trip.FirstSomeStable` | crates/spurilo/src/lib.rs:80-82 | once a start time is set, no later segment changes it |
| `Trip.VisitSegment` | src/lib.rs:67-98 | visiting a segment updates the start time and the location from its first waypoint, only while they are unknown |
| `Trip.PathLength` | crates/spurilo/src/lib.rs:113-117 | the summed geodesic distance along a waypoint path is non-negative |
| `Trip.PathLengthAppend` | crates/spurilo/src/lib.rs:113-117 | extending a path by a waypoint adds exactly the geodesic distance of that last step |
| `Trip.PushSample` | src/lib.rs:112-117 | pushing one waypoint's sample at a distance between the old and new totals keeps the profile ordered and appends exactly its elevation, if known |
| `Profile.Ascent` | src/lib.rs:156-165 | the sum of non-negative differences between consecutive simplified samples is non-negative |
| `Profile.Descent` | src/lib.rs:156-165 | the sum of the negated negative differences is non-negative |
| `Profile.Telescoping` | src/lib.rs:151-165 | ascent minus descent equals last sample's elevation minus first sample's |
| `Profile.HeightsAppend` | src/lib.rs:112-117 | the elevations of a concatenated profile are the concatenated elevations |
| `Profile.AccumulateUpDown` | src/lib.rs:151-165 | the fold adds the profile's ascent to `up` and its descent to `down`; both grow, and their growth differs by the net elevation change |
| `Thresholded.Rise` | src/lib.rs:105-110 | the elevation difference is known iff both elevations are, and then it is current minus previous |
| `Thresholded.Keeps` | src/lib.rs:122-123 | no contract of its own: keep on more than 3 m of distance or more than 3 m of rise; `StepEffect` and `DescentIsDropped` state its effect |
| `Thresholded.Step` | src/lib.rs:100-143 | no contract of its own: one candidate of the inner loop; `StepEffect` states its effect |
| `Thresholded.StepEffect` | src/lib.rs:100-143 | a candidate becomes the previous waypoint iff it passes the threshold; a dropped one leaves distance, uphill and downhill unchanged; a kept one adds its distance, a rise to uphill, a fall to downhill; either way it pushes its sample at the distance before its step |
| `Thresholded.DescentIsDropped` | src/lib.rs:105-123 | a descent of any size within 3 m of distance is not kept |
| `Thresholded.Filter` | src/lib.rs:122-143 | the kept path starts with the segment's first waypoint |
| `Thresholded.PathGain` | src/lib.rs:129-140 | the uphill of a kept path is non-negative |
| `Thresholded.PathLoss` | src/lib.rs:129-140 | the downhill of a kept path is non-negative |
| `Thresholded.ScanIsFilter` | src/lib.rs:100-143 | the fused loop equals filtering then summing: previous is the last kept waypoint; distance, uphill and downhill grow by the kept path's length, gain and loss |
| `Thresholded.FilterIsChain` | src/lib.rs:122-143 | every step of the kept path passes the threshold |
| `Thresholded.ChainIsKept` | src/lib.rs:122-143 | a path every step of which passes the threshold is kept whole |
| `Thresholded.FilterIdempotent` | src/lib.rs:122-143 | filtering the kept path again returns it unchanged |
| `Thresholded.FilterKeepsInputs` | src/lib.rs:142 | every kept waypoint is the segment's first waypoint or one of its candidates |
| `Thresholded.NoiseCollapses` | src/lib.rs:100-143 | a fix within 3 m at equal elevation is dropped, a farther one kept: distance is the kept step, uphill 50, downhill 0, two samples both at x = 0 |
| `Thresholded.TripStatsAreKept` | src/lib.rs:62-146 | over all segments, distance, uphill and downhill are the sums over kept steps only |
| `Thresholded.KeptTotalsNonNegative` | src/lib.rs:125-140 | the kept distance, uphill and downhill are all non-negative |
| `Thresholded.ScanShape` | src/lib.rs:100-117 | within a segment each candidate with an elevation pushes exactly one sample, kept or dropped; samples stay ordered and distance never decreases |
| `Thresholded.TripShape` | src/lib.rs:60-117 | the profile's elevations are those of every waypoint except each segment's first, in order, at non-decreasing distances bounded by the total |
| `Thresholded.WalkSegment` | src/lib.rs:100-144 | the inner loop computes the fold `SegmentStats` of the segment |
| `Thresholded.WalkTrack` | src/lib.rs:63-145 | the loop over one track's segments updates time, location and totals as the folds over the visited segments say |
| `Thresholded.WalkTracks` | src/lib.rs:62-146 | the nested loops leave the first start time, the first start location and the fold over all segments |
| `Thresholded.Open` | src/lib.rs:37-174 | metadata precedence, first start time and location, kept-only non-negative totals, ordered profile of all later elevations, simplified ascent/descent non-negative and telescoping, computed apart from `info.uphill`/`info.downhill` |
| `Spurilo.Step` | crates/spurilo/src/lib.rs:113-125 | no contract of its own: one waypoint of the inner loop; `StepEffect` states its effect |
| `Spurilo.StepEffect` | crates/spurilo/src/lib.rs:113-125 | every waypoint becomes the previous one and adds its distance; its sample sits at the distance including its step; uphill and downhill are untouched |
| `Spurilo.ScanIsPath` | crates/spurilo/src/lib.rs:113-126 | within a segment, distance grows by the length of the whole waypoint path |
| `Spurilo.TrackDistance` | crates/spurilo/src/lib.rs:75-128 | the sum of within-segment path lengths is non-negative |
| `Spurilo.TripStatsArePaths` | crates/spurilo/src/lib.rs:75-128 | the pass's distance is the within-segment path length, with gaps between segments not counted; uphill and downhill stay zero |
| `Spurilo.ScanShape` | crates/spurilo/src/lib.rs:113-126 | within a segment every waypoint with an elevation pushes exactly one sample; samples stay ordered and bounded by the distance |
| `Spurilo.TripShape` | crates/spurilo/src/lib.rs:73-128 | the profile's elevations are those of every waypoint except each segment's first, in order, at non-decreasing distances bounded by the total |
| `Spurilo.Epsilon` | crates/spurilo/src/lib.rs:136 | the tolerance is finite iff the distance is non-zero, and then equals 25 · uphill / distance |
| `Spurilo.EpsilonOfFlat` | crates/spurilo/src/lib.rs:136 | with zero uphill and a non-zero distance the tolerance is zero |
| `Spurilo.EpsilonGrowsWithUphill` | crates/spurilo/src/lib.rs:130-136 | for a fixed positive distance the formula grows with uphill; `parse` evaluates it only at zero uphill |
| `Spurilo.WalkSegment` | crates/spurilo/src/lib.rs:113-126 | the inner loop computes the fold `SegmentStats` of the segment |
| `Spurilo.WalkTrack` | crates/spurilo/src/lib.rs:76-127 | the loop over one track's segments updates time, location and totals as the folds over the visited segments say |
| `Spurilo.WalkTracks` | crates/spurilo/src/lib.rs:75-128 | the nested loops leave the first start time, the first start location and the fold over all segments |
| `Spurilo.Parse` | crates/spurilo/src/lib.rs:54-155 | metadata precedence, first start time and location, unthresholded non-negative distance, simplification with the tolerance of zero uphill, uphill/downhill from the simplified profile only, non-negative and telescoping |
| `Spurilo.ToCanvas` | crates/spurilo/src/lib.rs:176-180 | no contract of its own: the map `(x/3, 1000 − y)`; `CanvasRoundTrip` and `CanvasOrientation` state its meaning |
| `Spurilo.CanvasRoundTrip` | crates/spurilo/src/lib.rs:176-180 | the map `(x/3, 1000 − y)` from samples to canvas points is a bijection |
| `Spurilo.CanvasOrientation` | crates/spurilo/src/lib.rs:176-180 | further along draws further right; higher elevation draws higher on the canvas |
| `Spurilo.Draw` | crates/spurilo/src/lib.rs:165-187 | the background is `(0, 0)`–`(distance/3, 1000)`; an n-sample profile gives n − 1 strokes, stroke i joining the images of samples i and i + 1, from which the samples are recovered |

## Left out

- Opening and parsing the GPX file (`open` in `crates/spurilo/src/lib.rs:44-52`, the file
  and reader in `src/lib.rs:39-41`): I/O and the `gpx` crate. The model starts from the
  parsed `Gpx` record.
- The reverse-geocoding request to photon and the formatting of its answer: network, async
  and `serde_json` text. The model uses the `geocode` parameter and keeps only when it is
  consulted.
- The algorithms of `geodesic_distance`, `simplify` and `simplifyvw_preserve`: foreign
  library code that is not shown. They are parameters. Nothing is proved about what the
  simplifiers keep (point count, end points, tolerance monotonicity).
- The piet device, the bitmap, its `as usize` width, the fill colour, the stroke colour and
  width, `finish` and `save_to_file` in `draw`, and the errors they may raise: rendering
  I/O. `Draw` returns the background rectangle and the strokes instead.
- `print` in both files, the `println!` calls in `open`, and both `main.rs` files:
  terminal output, argument parsing and the tokio runtime.
- IEEE `f64` behaviour: rounding, and comparisons against NaN. Values are `real`. The one
  place where a NaN or infinity arises, the tolerance of `parse` over a zero distance, is
  `Tolerance.NonFinite`.
- `Thresholded.Open`: the source prints the raw profile, the simplified profile and the
  simplified totals and returns only `info`. The model returns them so that they can be
  stated.
