/** The elevation profile (a `geo` `LineString` of `Coordinate`s, x = distance, y = elevation)
    and the ascent/descent fold that both revisions run over a simplified profile. */
module Profile {

  datatype Coordinate = Coordinate(x: real, y: real)

  /** What the step from `a` to `b` adds to the uphill total: a non-negative difference. */
  function Gain(a: Coordinate, b: Coordinate): real {
    if b.y - a.y >= 0.0 then b.y - a.y else 0.0
  }

  /** What the step from `a` to `b` adds to the downhill total: a negative difference, negated. */
  function Loss(a: Coordinate, b: Coordinate): real {
    if b.y - a.y >= 0.0 then 0.0 else a.y - b.y
  }

  /** Sum of the gains over consecutive samples. */
  function Ascent(p: seq<Coordinate>): (r: real)
    ensures r >= 0.0
  {
    if |p| < 2 then 0.0 else Ascent(p[..|p| - 1]) + Gain(p[|p| - 2], p[|p| - 1])
  }

  /** Sum of the losses over consecutive samples. */
  function Descent(p: seq<Coordinate>): (r: real)
    ensures r >= 0.0
  {
    if |p| < 2 then 0.0 else Descent(p[..|p| - 1]) + Loss(p[|p| - 2], p[|p| - 1])
  }

  /** Ascent minus descent is the net change of elevation from the first to the last sample. */
  lemma {:induction false} Telescoping(p: seq<Coordinate>)
    requires |p| > 0
    ensures Ascent(p) - Descent(p) == p[|p| - 1].y - p[0].y
  {
    if |p| >= 2 {
      Telescoping(p[..|p| - 1]);
    }
  }

  /** The fold over a simplified profile: starting from the totals `up0` and `down0`, every
      non-negative difference between consecutive samples is added to `up` and every negative
      one, negated, to `down`. The first sample is taken with `next().unwrap()`, hence the
      requirement that the profile is not empty. */
  method AccumulateUpDown(p: seq<Coordinate>, up0: real, down0: real) returns (up: real, down: real)
    requires |p| > 0
    ensures up == up0 + Ascent(p) && down == down0 + Descent(p)
    ensures up >= up0 && down >= down0
    ensures (up - up0) - (down - down0) == p[|p| - 1].y - p[0].y
  {
    up, down := up0, down0;
    var previous := p[0];
    for i := 1 to |p|
      invariant previous == p[i - 1]
      invariant up == up0 + Ascent(p[..i]) && down == down0 + Descent(p[..i])
    {
      var current := p[i];
      assert p[..i + 1][..i] == p[..i];
      var diff := current.y - previous.y;
      if diff >= 0.0 {
        up := up + diff;
      } else {
        down := down - diff;
      }
      previous := current;
    }
    assert p[..|p|] == p;
    Telescoping(p);
  }

  /** The elevations of a profile, in order. */
  function Heights(p: seq<Coordinate>): (r: seq<real>)
    ensures |r| == |p|
  {
    if p == [] then [] else Heights(p[..|p| - 1]) + [p[|p| - 1].y]
  }

  lemma {:induction false} HeightsAppend(a: seq<Coordinate>, b: seq<Coordinate>)
    ensures Heights(a + b) == Heights(a) + Heights(b)
    decreases |b|
  {
    if b != [] {
      assert (a + b)[..|a + b| - 1] == a + b[..|b| - 1];
      HeightsAppend(a, b[..|b| - 1]);
    } else {
      assert a + b == a;
    }
  }

  /** Sample distances are non-negative, non-decreasing, and no larger than `bound`. */
  predicate Ordered(p: seq<Coordinate>, bound: real) {
    (forall i :: 0 < i < |p| ==> p[i - 1].x <= p[i].x) &&
    (forall i :: 0 <= i < |p| ==> 0.0 <= p[i].x <= bound)
  }
}
