/** Projection onto a segment in a local plane, and the distance to a polyline, over the reals. The cosine of
    the latitude and the great-circle distance are parameters. */
module Geodesy {
  import opened Wrappers

  type Point = (real, real)

  datatype Projection = Projection(t: real, point: Point)

  /** The point a fraction t along a segment. */
  function Along(a: Point, b: Point, t: real): Point {
    (a.0 + (b.0 - a.0) * t, a.1 + (b.1 - a.1) * t)
  }

  function Across(scale: real, p: Point, q: Point): real {
    (q.0 - p.0) * scale
  }

  function Up(p: Point, q: Point): real {
    q.1 - p.1
  }

  /** The squared distance in the plane in which longitudes are scaled. */
  function Squared(scale: real, p: Point, q: Point): real {
    var dx, dy := Across(scale, p, q), Up(p, q);
    dx * dx + dy * dy
  }

  /** Longitudes count by their scale. */
  lemma SquaredIs(scale: real, p: Point, q: Point)
    ensures Squared(scale, p, q)
            == (q.0 - p.0) * scale * ((q.0 - p.0) * scale) + (q.1 - p.1) * (q.1 - p.1)
  {
  }

  function LengthSquared(scale: real, a: Point, b: Point): real {
    Squared(scale, a, b)
  }

  /** The scalar product of the segment and the way to the point. */
  function Slope(scale: real, p: Point, a: Point, b: Point): real {
    Across(scale, a, p) * Across(scale, a, b) + Up(a, p) * Up(a, b)
  }

  function Unclamped(scale: real, p: Point, a: Point, b: Point): real
    requires LengthSquared(scale, a, b) != 0.0
  {
    Slope(scale, p, a, b) / LengthSquared(scale, a, b)
  }

  function Clamp(t: real): real {
    if t < 0.0 then 0.0 else if t > 1.0 then 1.0 else t
  }

  function Project(scale: real, p: Point, a: Point, b: Point): Projection {
    var t := if LengthSquared(scale, a, b) == 0.0 then 0.0 else Clamp(Unclamped(scale, p, a, b));
    Projection(t, Along(a, b, t))
  }

  // ---- The minimum -----------------------------------------------------------------------------------

  lemma Square(x: real)
    ensures x * x >= 0.0
  {
  }

  lemma Product(x: real, y: real, z: real)
    requires x > 0.0 && y > 0.0 && z == x * y
    ensures z > 0.0
  {
  }

  function Sq(x: real): real {
    x * x
  }

  lemma NoLength(x: real, y: real)
    requires Sq(x) + Sq(y) == 0.0
    ensures x == 0.0 && y == 0.0
  {
    hide Sq;
    SqSign(x);
    SqSign(y);
  }

  lemma SqSign(x: real)
    ensures Sq(x) >= 0.0 && (x != 0.0 ==> Sq(x) > 0.0)
  {
    if x > 0.0 {
      Product(x, x, Sq(x));
    } else if x < 0.0 {
      Product(-x, -x, Sq(x));
    }
  }

  lemma SquareOf(d: real, t: real, p: real)
    ensures (d * t - p) * (d * t - p) == d * d * (t * t) - 2.0 * (p * d) * t + p * p
  {
  }

  lemma Collect(xx: real, yy: real, xp: real, yp: real, t: real)
    ensures xx * (t * t) - 2.0 * xp * t + (yy * (t * t) - 2.0 * yp * t) == (xx + yy) * (t * t) - 2.0 * (xp + yp) * t
  {
  }

  /** The squared distance along a line is a parabola. */
  lemma Parabola(dx: real, dy: real, px: real, py: real, t: real)
    ensures (dx * t - px) * (dx * t - px) + (dy * t - py) * (dy * t - py)
            == (dx * dx + dy * dy) * (t * t) - 2.0 * (px * dx + py * dy) * t + (px * px + py * py)
  {
    SquareOf(dx, t, px);
    SquareOf(dy, t, py);
    Collect(dx * dx, dy * dy, px * dx, py * dy, t);
  }

  /** The clamped minimum of a parabola is its minimum over [0, 1]. */
  lemma ClampedMinimum(length: real, slope: real, t: real)
    requires length > 0.0 && 0.0 <= t <= 1.0
    ensures var m := Clamp(slope / length);
            length * (m * m) - 2.0 * slope * m <= length * (t * t) - 2.0 * slope * t
  {
    var best := slope / length;
    var m := Clamp(best);
    assert slope == length * best;
    Difference(length, best, m, t);
    assert (t - m) * (t + m - 2.0 * best) >= 0.0 by {
      if best < 0.0 {
        NonNegative(t, t - 2.0 * best);
      } else if best > 1.0 {
        NonNegative(1.0 - t, 2.0 * best - t - 1.0);
      } else {
        Square(t - best);
      }
    }
    NonNegative(length, (t - m) * (t + m - 2.0 * best));
  }

  lemma NonNegative(x: real, y: real)
    requires x >= 0.0 && y >= 0.0
    ensures x * y >= 0.0 && -x * -y >= 0.0
  {
  }

  lemma Difference(length: real, best: real, m: real, t: real)
    ensures length * (t * t) - 2.0 * (length * best) * t - (length * (m * m) - 2.0 * (length * best) * m)
            == length * ((t - m) * (t + m - 2.0 * best))
  {
  }

  lemma ParabolaOf(l: real, s: real, c: real, dx: real, dy: real, px: real, py: real, t: real)
    requires l == dx * dx + dy * dy && s == px * dx + py * dy && c == px * px + py * py
    ensures (dx * t - px) * (dx * t - px) + (dy * t - py) * (dy * t - py) == l * (t * t) - 2.0 * s * t + c
  {
    Parabola(dx, dy, px, py, t);
  }

  lemma Scaling(a: real, b: real, p: real, t: real, scale: real)
    ensures (a + (b - a) * t - p) * scale == (b - a) * scale * t - (p - a) * scale
  {
  }

  lemma AlongFrom(scale: real, p: Point, a: Point, b: Point, t: real)
    ensures Across(scale, p, Along(a, b, t)) == Across(scale, a, b) * t - Across(scale, a, p)
    ensures Up(p, Along(a, b, t)) == Up(a, b) * t - Up(a, p)
  {
    Scaling(a.0, b.0, p.0, t, scale);
  }

  lemma AsParabola(scale: real, p: Point, a: Point, b: Point, t: real)
    ensures Squared(scale, p, Along(a, b, t)) ==
            LengthSquared(scale, a, b) * (t * t) - 2.0 * Slope(scale, p, a, b) * t + Squared(scale, a, p)
  {
    hide Across, Up, Along;
    AlongFrom(scale, p, a, b, t);
    ParabolaOf(LengthSquared(scale, a, b), Slope(scale, p, a, b), Squared(scale, a, p),
               Across(scale, a, b), Up(a, b), Across(scale, a, p), Up(a, p), t);
  }

  lemma LengthIsPositive(scale: real, p: Point, a: Point, b: Point)
    ensures LengthSquared(scale, a, b) >= 0.0
    ensures LengthSquared(scale, a, b) == 0.0 ==> Slope(scale, p, a, b) == 0.0
  {
    hide Across, Up;
    var dx, dy := Across(scale, a, b), Up(a, b);
    Square(dx);
    Square(dy);
    if LengthSquared(scale, a, b) == 0.0 {
      NoLength(dx, dy);
    }
  }

  /** No point of the segment is nearer, in the plane, than the projected one; also when the segment is a
      single point. */
  lemma ProjectionIsNearest(scale: real, p: Point, a: Point, b: Point, t: real)
    requires 0.0 <= t <= 1.0
    ensures 0.0 <= Project(scale, p, a, b).t <= 1.0
    ensures Squared(scale, p, Project(scale, p, a, b).point) <= Squared(scale, p, Along(a, b, t))
  {
    hide Squared, Along, LengthSquared, Slope;
    AsParabola(scale, p, a, b, t);
    AsParabola(scale, p, a, b, Project(scale, p, a, b).t);
    LengthIsPositive(scale, p, a, b);
    if LengthSquared(scale, a, b) != 0.0 {
      ClampedMinimum(LengthSquared(scale, a, b), Slope(scale, p, a, b), t);
    }
  }

  // ---- Polylines -------------------------------------------------------------------------------------

  function SegmentDistance(scale: real, far: (Point, Point) -> real, p: Point, path: seq<Point>, i: nat): real
    requires i + 1 < |path|
  {
    far(p, Project(scale, p, path[i], path[i + 1]).point)
  }

  /** None stands for infinity, the distance to a path without points. */
  method DistanceToPolyline(scale: real, far: (Point, Point) -> real, p: Point, path: seq<Point>)
    returns (best: Option<real>)
    ensures path == [] ==> best == None
    ensures |path| == 1 ==> best == Some(far(p, path[0]))
    ensures |path| >= 2 ==> best.Some?
    ensures forall i :: 0 <= i < |path| - 1 ==> best.Some? && best.value <= SegmentDistance(scale, far, p, path, i)
    ensures |path| >= 2 ==> exists i :: 0 <= i < |path| - 1 && best == Some(SegmentDistance(scale, far, p, path, i))
  {
    hide Project;
    if |path| == 1 {
      return Some(far(p, path[0]));
    }
    best := None;
    ghost var m := 0;
    var i := 0;
    while i < |path| - 1
      invariant 0 <= i <= if path == [] then 0 else |path| - 1
      invariant best.None? <==> i == 0
      invariant forall j :: 0 <= j < i ==> best.value <= SegmentDistance(scale, far, p, path, j)
      invariant i > 0 ==> 0 <= m < i && best == Some(SegmentDistance(scale, far, p, path, m))
    {
      var d := far(p, Project(scale, p, path[i], path[i + 1]).point);
      if best.None? || d < best.value {
        best := Some(d);
        m := i;
      }
      i := i + 1;
    }
  }
}
