/** The centroid of a ring and the representative point of a polygon, over the reals. */
module Centroid {
  import opened Wrappers

  type Point = (real, real)
  type Ring = seq<Point>

  function Cross(p: Point, q: Point): real {
    p.0 * q.1 - q.0 * p.1
  }

  /** The three sums taken along a ring's edges. */
  datatype Term = Area | MomentX | MomentY

  function Value(t: Term, p: Point, q: Point): real {
    match t
    case Area => Cross(p, q)
    case MomentX => (p.0 + q.0) * Cross(p, q)
    case MomentY => (p.1 + q.1) * Cross(p, q)
  }

  /** A sum along the edges of an open path. */
  function PathSum(t: Term, path: seq<Point>): real {
    var n := |path|;
    if n < 2 then 0.0 else PathSum(t, path[..n - 1]) + Value(t, path[n - 2], path[n - 1])
  }

  /** The path around a ring, back to its first vertex. */
  function Closed(ring: Ring): seq<Point>
    requires ring != []
  {
    ring + [ring[0]]
  }

  function Sum(t: Term, ring: Ring): real
    requires ring != []
  {
    PathSum(t, Closed(ring))
  }

  /** The sums of the coordinates. */
  function Total(points: seq<Point>): Point {
    if points == [] then (0.0, 0.0)
    else Plus(Total(points[..|points| - 1]), points[|points| - 1])
  }

  function Plus(p: Point, q: Point): Point {
    (p.0 + q.0, p.1 + q.1)
  }

  function Mean(ring: Ring): Point
    requires ring != []
  {
    (Total(ring).0 / |ring| as real, Total(ring).1 / |ring| as real)
  }

  function Abs(x: real): real {
    if x < 0.0 then -x else x
  }

  /** The point and the size of a ring. */
  function PointOf(ring: Ring): Point
    requires ring != []
  {
    var area := Sum(Area, ring);
    if area == 0.0 then Mean(ring) else (Sum(MomentX, ring) / (3.0 * area), Sum(MomentY, ring) / (3.0 * area))
  }

  function SizeOf(ring: Ring): real
    requires ring != []
  {
    Abs(Sum(Area, ring) / 2.0)
  }

  lemma NoEdge(ring: Ring)
    requires ring != []
    ensures forall t :: PathSum(t, Closed(ring)[..1]) == 0.0
  {
  }

  lemma EdgeAdds(t: Term, ring: Ring, i: nat)
    requires i < |ring|
    ensures PathSum(t, Closed(ring)[..i + 2])
            == PathSum(t, Closed(ring)[..i + 1]) + Value(t, ring[i], (ring[1..] + ring[..1])[i])
  {
    hide Value;
    assert Closed(ring)[..i + 2][..i + 1] == Closed(ring)[..i + 1];
  }

  method RingCentroid(ring: Ring) returns (x: real, y: real, size: real)
    requires ring != []
    ensures (x, y) == PointOf(ring) && size == SizeOf(ring)
  {
    hide PathSum;
    var area, cx, cy := 0.0, 0.0, 0.0;
    NoEdge(ring);
    var next := ring[1..] + ring[..1];
    var i := 0;
    while i < |ring|
      invariant 0 <= i <= |ring|
      invariant area == PathSum(Area, Closed(ring)[..i + 1])
      invariant cx == PathSum(MomentX, Closed(ring)[..i + 1])
      invariant cy == PathSum(MomentY, Closed(ring)[..i + 1])
    {
      var (x0, y0) := ring[i];
      var (x1, y1) := next[i];
      EdgeAdds(Area, ring, i);
      EdgeAdds(MomentX, ring, i);
      EdgeAdds(MomentY, ring, i);
      var cross := x0 * y1 - x1 * y0;
      area := area + cross;
      cx := cx + (x0 + x1) * cross;
      cy := cy + (y0 + y1) * cross;
      i := i + 1;
    }
    assert Closed(ring)[..i + 1] == Closed(ring);
    if area == 0.0 {
      var total := SumCoordinates(ring);
      return total.0 / |ring| as real, total.1 / |ring| as real, 0.0;
    }
    return cx / (3.0 * area), cy / (3.0 * area), Abs(area / 2.0);
  }

  method SumCoordinates(ring: Ring) returns (total: Point)
    ensures total == Total(ring)
  {
    total := (0.0, 0.0);
    for i := 0 to |ring|
      invariant total == Total(ring[..i])
    {
      assert ring[..i + 1][..i] == ring[..i];
      total := (total.0 + ring[i].0, total.1 + ring[i].1);
    }
    assert ring[..|ring|] == ring;
  }

  // ---- Paths -----------------------------------------------------------------------------------------

  /** A path cut at a vertex. */
  lemma {:induction false} Cut(t: Term, a: seq<Point>, v: Point, b: seq<Point>)
    ensures PathSum(t, a + [v] + b) == PathSum(t, a + [v]) + PathSum(t, [v] + b)
  {
    hide Value;
    var n := |b|;
    if n == 0 {
      assert a + [v] + b == a + [v];
    } else {
      Cut(t, a, v, b[..n - 1]);
      var whole, part := a + [v] + b, [v] + b;
      assert whole[..|whole| - 1] == a + [v] + b[..n - 1];
      assert part[..|part| - 1] == [v] + b[..n - 1];
    }
  }

  lemma Edge(t: Term, p: Point, q: Point)
    ensures PathSum(t, [p, q]) == Value(t, p, q)
  {
    assert [p, q][..1] == [p];
  }

  // ---- Starting vertex -------------------------------------------------------------------------------

  lemma RotatedSum(t: Term, a: Ring, b: Ring)
    requires a != [] && b != []
    ensures Sum(t, a + b) == Sum(t, b + a)
  {
    hide PathSum;
    assert Closed(a + b) == a + [b[0]] + (b[1..] + [a[0]]);
    assert Closed(b + a) == b + [a[0]] + (a[1..] + [b[0]]);
    Cut(t, a, b[0], b[1..] + [a[0]]);
    Cut(t, b, a[0], a[1..] + [b[0]]);
    assert [b[0]] + (b[1..] + [a[0]]) == b + [a[0]];
    assert [a[0]] + (a[1..] + [b[0]]) == a + [b[0]];
  }

  lemma {:induction false} TotalOf(a: seq<Point>, b: seq<Point>)
    ensures Total(a + b) == Plus(Total(a), Total(b))
  {
    var n := |b|;
    if n == 0 {
      assert a + b == a;
    } else {
      TotalOf(a, b[..n - 1]);
      assert (a + b)[..|a + b| - 1] == a + b[..n - 1];
    }
  }

  /** The centroid does not depend on the vertex a ring starts at. */
  lemma StartDoesNotMatter(a: Ring, b: Ring)
    requires a != [] && b != []
    ensures PointOf(a + b) == PointOf(b + a) && SizeOf(a + b) == SizeOf(b + a)
  {
    hide Total, PathSum;
    RotatedSum(Area, a, b);
    RotatedSum(MomentX, a, b);
    RotatedSum(MomentY, a, b);
    TotalOf(a, b);
    TotalOf(b, a);
  }

  // ---- Orientation -----------------------------------------------------------------------------------

  function Reversed(path: seq<Point>): (r: seq<Point>)
    ensures |r| == |path| && forall i :: 0 <= i < |r| ==> r[i] == path[|path| - 1 - i]
  {
    seq(|path|, i requires 0 <= i < |path| => path[|path| - 1 - i])
  }

  lemma {:induction false} ReversedPath(t: Term, path: seq<Point>)
    ensures PathSum(t, Reversed(path)) == -PathSum(t, path)
  {
    var n := |path|;
    if n >= 2 {
      var p, q := path[n - 2], path[n - 1];
      ReversedPath(t, path[..n - 1]);
      var back := Reversed(path[..n - 1]);
      assert Reversed(path) == [q] + [p] + back[1..];
      assert [p] + back[1..] == back;
      Cut(t, [q], p, back[1..]);
      assert [q] + [p] == [q, p];
      Edge(t, q, p);
      Backwards(t, p, q);
    }
  }

  lemma Backwards(t: Term, p: Point, q: Point)
    ensures Value(t, q, p) == -Value(t, p, q)
  {
    var c := Cross(p, q);
    assert Cross(q, p) == -c;
    assert (q.0 + p.0) * -c == -((p.0 + q.0) * c);
    assert (q.1 + p.1) * -c == -((p.1 + q.1) * c);
  }

  lemma ReversedSum(t: Term, ring: Ring)
    requires ring != []
    ensures Sum(t, Reversed(ring)) == -Sum(t, ring)
  {
    hide PathSum;
    ReversedPath(t, Closed(ring));
    if |ring| > 1 {
      var back := Reversed(ring);
      assert back == back[..|ring| - 1] + [ring[0]];
      RotatedSum(t, back[..|ring| - 1], [ring[0]]);
      assert Closed([ring[0]] + back[..|ring| - 1]) == Reversed(Closed(ring));
    } else {
      assert Closed(Reversed(ring)) == Reversed(Closed(ring));
    }
  }

  lemma {:induction false} ReversedTotal(points: seq<Point>)
    ensures Total(Reversed(points)) == Total(points)
  {
    var n := |points|;
    if n > 0 {
      ReversedTotal(points[..n - 1]);
      assert Reversed(points) == [points[n - 1]] + Reversed(points[..n - 1]);
      TotalOf([points[n - 1]], Reversed(points[..n - 1]));
      assert Total([points[n - 1]]) == points[n - 1];
    }
  }

  /** Nor on its orientation. */
  lemma OrientationDoesNotMatter(ring: Ring)
    requires ring != []
    ensures PointOf(Reversed(ring)) == PointOf(ring) && SizeOf(Reversed(ring)) == SizeOf(ring)
  {
    hide Total, PathSum, Sum;
    ReversedSum(Area, ring);
    ReversedSum(MomentX, ring);
    ReversedSum(MomentY, ring);
    ReversedTotal(ring);
    var area := Sum(Area, ring);
    if area != 0.0 {
      SameQuotient(Sum(MomentX, ring), area);
      SameQuotient(Sum(MomentY, ring), area);
    }
  }

  lemma NonZero(a: real, b: real)
    requires a != 0.0 && b != 0.0
    ensures a * b != 0.0
  {
  }

  lemma Quotient(x: real, n: real, y: real)
    requires n != 0.0 && x * n == y
    ensures y / n == x
  {
    var q := y / n;
    assert q * n == y;
    assert (q - x) * n == q * n - x * n;
    if q - x != 0.0 {
      NonZero(q - x, n);
    }
  }

  lemma SameQuotient(m: real, area: real)
    requires area != 0.0
    ensures -m / (3.0 * -area) == m / (3.0 * area)
  {
    Quotient(m / (3.0 * area), 3.0 * -area, -m);
  }

  // ---- Translation -----------------------------------------------------------------------------------

  function Moved(path: seq<Point>, d: Point): (r: seq<Point>)
    ensures |r| == |path| && forall i :: 0 <= i < |r| ==> r[i] == Plus(path[i], d)
  {
    seq(|path|, i requires 0 <= i < |path| => Plus(path[i], d))
  }

  /** What moving one edge adds to each sum, apart from its share of the movement of the centroid, is a
      difference between its ends. */
  function Drift(t: Term, p: Point, d: Point): real {
    match t
    case Area => d.0 * p.1 - d.1 * p.0
    case MomentX => d.0 * p.0 * p.1 - d.1 * p.0 * p.0 + 2.0 * d.0 * (d.0 * p.1 - d.1 * p.0)
    case MomentY => d.0 * p.1 * p.1 - d.1 * p.0 * p.1 + 2.0 * d.1 * (d.0 * p.1 - d.1 * p.0)
  }

  function Share(t: Term, d: Point): real {
    match t case Area => 0.0 case MomentX => 3.0 * d.0 case MomentY => 3.0 * d.1
  }

  /** A product, so that sums of products can be added up without looking inside them. */
  function Times(a: real, b: real): real {
    a * b
  }

  lemma MovedEdge(t: Term, p: Point, q: Point, d: Point)
    ensures Value(t, Plus(p, d), Plus(q, d))
            == Value(t, p, q) + Times(Share(t, d), Cross(p, q)) + Drift(t, q, d) - Drift(t, p, d)
  {
    var c, f, g := Cross(p, q), Drift(Area, q, d), Drift(Area, p, d);
    assert Cross(Plus(p, d), Plus(q, d)) == c + (f - g) by { CrossMoved(p.0, p.1, q.0, q.1, d.0, d.1); }
    DriftIs(q, d);
    DriftIs(p, d);
    assert p.0 * f - q.0 * g == d.0 * c && p.1 * f - q.1 * g == d.1 * c by {
      Turned(p.0, p.1, q.0, q.1, d.0, d.1);
    }
    MomentMoved(p.0, q.0, d.0, c, f, g);
    MomentMoved(p.1, q.1, d.1, c, f, g);
    hide Drift, Cross;
  }

  lemma CrossMoved(x: real, y: real, u: real, v: real, a: real, b: real)
    ensures (x + a) * (v + b) - (u + a) * (y + b) == (x * v - u * y) + ((a * v - b * u) - (a * y - b * x))
  {
  }

  lemma Turned(x: real, y: real, u: real, v: real, a: real, b: real)
    ensures x * (a * v - b * u) - u * (a * y - b * x) == a * (x * v - u * y)
    ensures y * (a * v - b * u) - v * (a * y - b * x) == b * (x * v - u * y)
  {
  }

  lemma DriftIs(p: Point, d: Point)
    ensures Drift(MomentX, p, d) == p.0 * Drift(Area, p, d) + 2.0 * d.0 * Drift(Area, p, d)
    ensures Drift(MomentY, p, d) == p.1 * Drift(Area, p, d) + 2.0 * d.1 * Drift(Area, p, d)
  {
  }

  lemma MomentMoved(s: real, r: real, m: real, c: real, f: real, g: real)
    requires s * f - r * g == m * c
    ensures (s + m + (r + m)) * (c + (f - g))
            == (s + r) * c + 3.0 * m * c + (r * f + 2.0 * m * f) - (s * g + 2.0 * m * g)
  {
    assert (s + m + (r + m)) * (c + (f - g)) == (s + r) * c + 2.0 * m * c + (s + r) * (f - g) + 2.0 * m * (f - g);
    assert (s + r) * (f - g) == s * f - s * g + r * f - r * g;
  }

  ghost predicate PathMoved(t: Term, path: seq<Point>, d: Point)
    requires path != []
  {
    PathSum(t, Moved(path, d)) ==
    PathSum(t, path) + Times(Share(t, d), PathSum(Area, path)) + Drift(t, path[|path| - 1], d) - Drift(t, path[0], d)
  }

  lemma {:induction false} MovedPath(t: Term, path: seq<Point>, d: Point)
    requires path != []
    ensures PathMoved(t, path, d)
  {
    if |path| >= 2 {
      MovedPath(t, path[..|path| - 1], d);
      MovedStep(t, path, d);
    }
  }

  /** The sums over a path and over one more edge, before and after it is moved. */
  lemma Telescopes(moved: real, sum: real, area: real, edge: real, movedEdge: real, cross: real, share: real,
                   start: real, middle: real, end: real)
    requires moved == sum + Times(share, area) + middle - start
    requires movedEdge == edge + Times(share, cross) + end - middle
    ensures moved + movedEdge == (sum + edge) + Times(share, area + cross) + end - start
  {
    hide Times;
    Distributes(share, area, cross);
  }

  lemma MovedStep(t: Term, path: seq<Point>, d: Point)
    requires |path| >= 2 && PathMoved(t, path[..|path| - 1], d)
    ensures PathMoved(t, path, d)
  {
    hide Share, Drift, Value, Cross, PathSum, Plus, Moved, Times;
    var n := |path|;
    var init, p, q := path[..n - 1], path[n - 2], path[n - 1];
    assert init[0] == path[0] && init[|init| - 1] == p;
    var sum, area, cross := PathSum(t, init), PathSum(Area, init), Cross(p, q);
    var moved := PathSum(t, Moved(init, d));
    var edge, movedEdge := Value(t, p, q), Value(t, Plus(p, d), Plus(q, d));
    MovedEdge(t, p, q, d);
    Telescopes(moved, sum, area, edge, movedEdge, cross, Share(t, d), Drift(t, path[0], d), Drift(t, p, d),
      Drift(t, q, d));
    assert PathSum(t, path) == sum + edge by { Push(t, path); }
    assert PathSum(Area, path) == area + cross by { Push(Area, path); AreaIsCross(p, q); }
    assert PathSum(t, Moved(path, d)) == moved + movedEdge by { PushMoved(t, path, d); }
  }

  lemma PushMoved(t: Term, path: seq<Point>, d: Point)
    requires |path| >= 2
    ensures PathSum(t, Moved(path, d)) ==
            PathSum(t, Moved(path[..|path| - 1], d)) + Value(t, Plus(path[|path| - 2], d), Plus(path[|path| - 1], d))
  {
    hide PathSum, Value, Plus;
    Push(t, Moved(path, d));
    assert Moved(path, d)[..|path| - 1] == Moved(path[..|path| - 1], d);
  }

  lemma Push(t: Term, path: seq<Point>)
    requires |path| >= 2
    ensures PathSum(t, path) == PathSum(t, path[..|path| - 1]) + Value(t, path[|path| - 2], path[|path| - 1])
  {
  }

  lemma AreaIsCross(p: Point, q: Point)
    ensures Value(Area, p, q) == Cross(p, q)
  {
  }

  lemma Distributes(s: real, a: real, b: real)
    ensures Times(s, a + b) == Times(s, a) + Times(s, b)
  {
  }

  lemma MovedSum(t: Term, ring: Ring, d: Point)
    requires ring != []
    ensures Sum(t, Moved(ring, d)) == Sum(t, ring) + Times(Share(t, d), Sum(Area, ring))
  {
    hide PathSum, Share, Drift, Times;
    MovedPath(t, Closed(ring), d);
    assert Closed(Moved(ring, d)) == Moved(Closed(ring), d);
  }

  function Scaled(n: nat, x: real): real {
    n as real * x
  }

  lemma ScaledOnce(n: nat, x: real)
    ensures Scaled(0, x) == 0.0 && Scaled(n + 1, x) == Scaled(n, x) + x
  {
    assert (n + 1) as real == n as real + 1.0;
    assert (n as real + 1.0) * x == n as real * x + x;
  }

  lemma TotalPush(points: seq<Point>)
    requires points != []
    ensures Total(points) == Plus(Total(points[..|points| - 1]), points[|points| - 1])
  {
  }

  lemma {:induction false} MovedTotal(points: seq<Point>, d: Point)
    ensures Total(Moved(points, d)) == Plus(Total(points), (Scaled(|points|, d.0), Scaled(|points|, d.1)))
  {
    hide Scaled;
    var n := |points|;
    ScaledOnce(if n == 0 then 0 else n - 1, d.0);
    ScaledOnce(if n == 0 then 0 else n - 1, d.1);
    if n > 0 {
      MovedTotal(points[..n - 1], d);
      TotalPush(points);
      TotalPush(Moved(points, d));
      assert Moved(points, d)[..n - 1] == Moved(points[..n - 1], d);
    }
  }

  lemma MovedMean(ring: Ring, d: Point)
    requires ring != []
    ensures Mean(Moved(ring, d)) == Plus(Mean(ring), d)
  {
    hide Total, Scaled;
    MovedTotal(ring, d);
    ScaledQuotient(Total(ring).0, |ring|, d.0);
    ScaledQuotient(Total(ring).1, |ring|, d.1);
  }

  lemma MovedQuotient(m: real, n: real, d: real)
    requires n != 0.0
    ensures (m + n * d) / n == m / n + d
  {
    Quotient(m / n + d, n, m + n * d);
  }

  lemma ScaledQuotient(m: real, n: nat, d: real)
    requires n > 0
    ensures (m + Scaled(n, d)) / n as real == m / n as real + d
  {
    MovedQuotient(m, n as real, d);
  }

  /** The centroid moves exactly with its ring. */
  lemma MovesWithTheRing(ring: Ring, d: Point)
    requires ring != []
    ensures PointOf(Moved(ring, d)) == Plus(PointOf(ring), d) && SizeOf(Moved(ring, d)) == SizeOf(ring)
  {
    hide Sum, Mean, Times, Share;
    var area := Sum(Area, ring);
    MovedSum(Area, ring, d);
    MovedSum(MomentX, ring, d);
    MovedSum(MomentY, ring, d);
    Shares(area, d);
    MovedMean(ring, d);
    if area != 0.0 {
      MovedMoment(Sum(MomentX, ring), area, d.0);
      MovedMoment(Sum(MomentY, ring), area, d.1);
      assert Sum(Area, Moved(ring, d)) == area;
      assert Sum(MomentX, Moved(ring, d)) == Sum(MomentX, ring) + 3.0 * d.0 * area;
      assert PointOf(Moved(ring, d)).0 == Sum(MomentX, Moved(ring, d)) / (3.0 * area);
      assert PointOf(Moved(ring, d)).0 == PointOf(ring).0 + d.0;
      assert PointOf(Moved(ring, d)).1 == PointOf(ring).1 + d.1;
    }
  }

  lemma Shares(a: real, d: Point)
    ensures Times(Share(Area, d), a) == 0.0
    ensures Times(Share(MomentX, d), a) == 3.0 * d.0 * a && Times(Share(MomentY, d), a) == 3.0 * d.1 * a
  {
  }

  lemma MovedMoment(m: real, area: real, d: real)
    requires area != 0.0
    ensures (m + 3.0 * d * area) / (3.0 * area) == m / (3.0 * area) + d
  {
    assert 3.0 * d * area == 3.0 * area * d;
    MovedQuotient(m, 3.0 * area, d);
  }

  // ---- Closing ---------------------------------------------------------------------------------------

  lemma ClosingSum(t: Term, ring: Ring)
    requires ring != []
    ensures Sum(t, Closed(ring)) == Sum(t, ring)
  {
    hide PathSum;
    var v := ring[0];
    assert Closed(Closed(ring)) == ring + [v] + [v];
    Cut(t, ring, v, [v]);
    assert [v] + [v] == [v, v];
    Edge(t, v, v);
  }

  /** Repeating the first vertex at the end leaves the centroid where it is exactly when the ring has an area
      or its first vertex is the mean of its vertices. */
  lemma ClosingMatters(ring: Ring)
    requires ring != []
    ensures SizeOf(Closed(ring)) == SizeOf(ring)
    ensures PointOf(Closed(ring)) == PointOf(ring) <==> Sum(Area, ring) != 0.0 || ring[0] == Mean(ring)
  {
    hide PathSum, Sum, Total;
    ClosingSum(Area, ring);
    ClosingSum(MomentX, ring);
    ClosingSum(MomentY, ring);
    assert Total(Closed(ring)) == Plus(Total(ring), ring[0]) by { ClosedTotal(ring); }
    if Sum(Area, ring) == 0.0 {
      MeanWithOneMore(Total(ring).0, |ring| as real, ring[0].0);
      MeanWithOneMore(Total(ring).1, |ring| as real, ring[0].1);
    }
  }

  lemma ClosedTotal(ring: Ring)
    requires ring != []
    ensures Total(Closed(ring)) == Plus(Total(ring), ring[0])
  {
    assert Closed(ring)[..|ring|] == ring;
  }

  lemma MeanWithOneMore(total: real, n: real, v: real)
    requires n > 0.0
    ensures (total + v) / (n + 1.0) == total / n <==> v == total / n
  {
    var m := total / n;
    assert total == m * n;
    assert (total + v) / (n + 1.0) == m <==> total + v == m * (n + 1.0);
    assert m * (n + 1.0) == m * n + m;
  }

  /** A ring that goes back and forth between two points: closing it moves the mean. */
  lemma ClosingMovesAFlatRing()
    ensures var flat: Ring := [(0.0, 0.0), (2.0, 0.0)];
            Sum(Area, flat) == 0.0 && PointOf(flat) == (1.0, 0.0) && PointOf(Closed(flat)) != PointOf(flat)
  {
    var p, q := (0.0, 0.0), (2.0, 0.0);
    var flat: Ring := [p, q];
    assert Closed(flat) == [p] + [q] + [p];
    Cut(Area, [p], q, [p]);
    assert [p] + [q] == [p, q] && [q] + [p] == [q, p];
    Edge(Area, p, q);
    Edge(Area, q, p);
    assert flat[..1] == [p] && Total([p]) == p && Total(flat) == q;
    hide PathSum, Total;
    ClosingMatters(flat);
  }

  // ---- What the formula is ---------------------------------------------------------------------------

  /** A triangle's centroid is the mean of its corners. */
  lemma Triangle(p: Point, q: Point, r: Point)
    requires Sum(Area, [p, q, r]) != 0.0
    ensures PointOf([p, q, r]) == Mean([p, q, r])
  {
    hide Value;
    var ring := [p, q, r];
    forall t ensures Sum(t, ring) == Value(t, p, q) + Value(t, q, r) + Value(t, r, p) {
      ThreeEdges(t, p, q, r);
    }
    var a := Sum(Area, ring);
    TriangleMoments(p, q, r);
    assert ring[..2] == [p, q] && [p, q][..1] == [p] && [p][..0] == [];
    assert Total([p]) == p && Total([p, q]) == Plus(p, q);
    assert Total(ring) == (p.0 + q.0 + r.0, p.1 + q.1 + r.1) && |ring| as real == 3.0;
    ThirdOf(p.0 + q.0 + r.0, a);
    ThirdOf(p.1 + q.1 + r.1, a);
    assert Sum(MomentX, ring) == (p.0 + q.0 + r.0) * a;
    assert Sum(MomentY, ring) == (p.1 + q.1 + r.1) * a;
    assert PointOf(ring).0 == (p.0 + q.0 + r.0) / 3.0;
    assert PointOf(ring).1 == (p.1 + q.1 + r.1) / 3.0;
  }

  lemma ThreeEdges(t: Term, p: Point, q: Point, r: Point)
    ensures Sum(t, [p, q, r]) == Value(t, p, q) + Value(t, q, r) + Value(t, r, p)
  {
    hide Value;
    var path := [p, q, r, p];
    assert Closed([p, q, r]) == path;
    var open := path[..3];
    assert open == [p, q, r];
    assert open[..2] == [p, q];
    Edge(t, p, q);
    Push(t, open);
    Push(t, path);
  }

  lemma Opposite(x: real, y: real, z: real, c: real, d: real, e: real)
    ensures (x + y) * c + (y + z) * d + (z + x) * e == (x + y + z) * (c + d + e) - (z * c + x * d + y * e)
  {
  }

  lemma TriangleMoments(p: Point, q: Point, r: Point)
    ensures var a := Value(Area, p, q) + Value(Area, q, r) + Value(Area, r, p);
            Value(MomentX, p, q) + Value(MomentX, q, r) + Value(MomentX, r, p) == (p.0 + q.0 + r.0) * a
            && Value(MomentY, p, q) + Value(MomentY, q, r) + Value(MomentY, r, p) == (p.1 + q.1 + r.1) * a
  {
    var c, d, e := Cross(p, q), Cross(q, r), Cross(r, p);
    assert r.0 * c + p.0 * d + q.0 * e == 0.0 && r.1 * c + p.1 * d + q.1 * e == 0.0;
    Opposite(p.0, q.0, r.0, c, d, e);
    Opposite(p.1, q.1, r.1, c, d, e);
  }

  lemma ThirdOf(s: real, a: real)
    requires a != 0.0
    ensures s * a / (3.0 * a) == s / 3.0
  {
    Quotient(s / 3.0, 3.0 * a, s * a);
  }

  /** A ring cut along a chord: every sum is the sum of those of the two parts, so its centroid is the mean of
      theirs weighted by signed area. */
  lemma ChordCut(u: Point, a: seq<Point>, v: Point, b: seq<Point>)
    ensures var whole, left, right := [u] + a + [v] + b, [u] + a + [v], [v] + b + [u];
            forall t :: Sum(t, whole) == Sum(t, left) + Sum(t, right)
  {
    hide PathSum, Value;
    var whole, left, right := [u] + a + [v] + b, [u] + a + [v], [v] + b + [u];
    forall t ensures Sum(t, whole) == Sum(t, left) + Sum(t, right) {
      assert Closed(whole) == [u] + a + [v] + (b + [u]);
      Cut(t, [u] + a, v, b + [u]);
      assert Closed(left) == [u] + a + [v] + [u];
      Cut(t, [u] + a, v, [u]);
      assert Closed(right) == [v] + b + [u] + [v];
      Cut(t, [v] + b, u, [v]);
      assert [v] + (b + [u]) == [v] + b + [u];
      assert [v] + [u] == [v, u] && [u] + [v] == [u, v];
      Edge(t, v, u);
      Edge(t, u, v);
      Backwards(t, u, v);
    }
  }

  // ---- Polygons --------------------------------------------------------------------------------------

  /** The first ring of the largest size. */
  ghost predicate Largest(rings: seq<Ring>, m: nat)
    requires m < |rings| && forall i :: 0 <= i < |rings| ==> rings[i] != []
  {
    (forall i :: 0 <= i < |rings| ==> SizeOf(rings[i]) <= SizeOf(rings[m]))
    && (forall i :: 0 <= i < m ==> SizeOf(rings[i]) < SizeOf(rings[m]))
  }

  /** The rings with a vertex, in order. */
  function NonEmpty(rings: seq<Ring>): (r: seq<Ring>)
    ensures forall i :: 0 <= i < |r| ==> r[i] != []
  {
    if rings == [] then [] else (if rings[0] == [] then [] else [rings[0]]) + NonEmpty(rings[1..])
  }

  method RepresentativePoint(given: seq<Ring>) returns (p: Option<Point>)
    ensures NonEmpty(given) == [] ==> p == None
    ensures NonEmpty(given) != [] ==>
              exists m :: 0 <= m < |NonEmpty(given)| && Largest(NonEmpty(given), m)
                && p == Some(PointOf(NonEmpty(given)[m]))
  {
    hide PointOf, SizeOf;
    var rings := NonEmpty(given);
    if rings == [] {
      return None;
    }
    var x, y, best := RingCentroid(rings[0]);
    ghost var m := 0;
    var i := 1;
    while i < |rings|
      invariant 1 <= i <= |rings| && m < i && (x, y) == PointOf(rings[m]) && best == SizeOf(rings[m])
      invariant forall j :: 0 <= j < i ==> SizeOf(rings[j]) <= SizeOf(rings[m])
      invariant forall j :: 0 <= j < m ==> SizeOf(rings[j]) < SizeOf(rings[m])
    {
      var x1, y1, size := RingCentroid(rings[i]);
      if size > best {
        x, y, best, m := x1, y1, size, i;
      }
      i := i + 1;
    }
    assert Largest(rings, m);
    p := Some((x, y));
  }

  // ---- Rectangles ------------------------------------------------------------------------------------

  function Rectangle(x: real, y: real, w: real, h: real): (r: Ring)
    ensures r != []
  {
    [(x, y), (x + w, y), (x + w, y + h), (x, y + h)]
  }

  lemma FourEdges(t: Term, p: Point, q: Point, r: Point, s: Point)
    ensures Sum(t, [p, q, r, s]) == Value(t, p, q) + Value(t, q, r) + Value(t, r, s) + Value(t, s, p)
  {
    hide Value;
    var path := [p, q, r, s, p];
    assert Closed([p, q, r, s]) == path;
    assert path[..4] == [p, q, r, s] && [p, q, r, s][..3] == [p, q, r] && [p, q, r][..2] == [p, q];
    assert [p, q][..1] == [p];
    assert PathSum(t, [p, q]) == Value(t, p, q);
    assert PathSum(t, [p, q, r]) == PathSum(t, [p, q]) + Value(t, q, r);
    assert PathSum(t, [p, q, r, s]) == PathSum(t, [p, q, r]) + Value(t, r, s);
    assert PathSum(t, path) == PathSum(t, [p, q, r, s]) + Value(t, s, p);
  }

  lemma RectangleArea(x: real, y: real, w: real, h: real)
    ensures Value(Area, (x, y), (x + w, y)) + Value(Area, (x + w, y), (x + w, y + h))
            + Value(Area, (x + w, y + h), (x, y + h)) + Value(Area, (x, y + h), (x, y)) == 2.0 * (w * h)
  {
  }

  /** The size of a rectangle is its area, and its point the middle. */
  lemma RectangleIs(x: real, y: real, w: real, h: real)
    requires w > 0.0 && h > 0.0
    ensures SizeOf(Rectangle(x, y, w, h)) == w * h
    ensures PointOf(Rectangle(x, y, w, h)) == (x + w / 2.0, y + h / 2.0)
  {
    var p, q, r, s := (x, y), (x + w, y), (x + w, y + h), (x, y + h);
    assert Rectangle(x, y, w, h) == [p, q, r, s];
    FourEdges(Area, p, q, r, s);
    FourEdges(MomentX, p, q, r, s);
    FourEdges(MomentY, p, q, r, s);
    RectangleArea(x, y, w, h);
    RectangleMoment(x, y, w, h);
    var ring, area := [p, q, r, s], 2.0 * (w * h);
    assert Sum(Area, ring) == area && area > 0.0;
    Sixfold(w * h, x + w / 2.0);
    Sixfold(w * h, y + h / 2.0);
    hide Value, Sum;
    Quotient(x + w / 2.0, 3.0 * area, Sum(MomentX, ring));
    Quotient(y + h / 2.0, 3.0 * area, Sum(MomentY, ring));
    assert SizeOf(ring) == area / 2.0;
  }

  lemma Sixfold(a: real, c: real)
    ensures 6.0 * a * c == c * (3.0 * (2.0 * a))
  {
  }

  lemma RectangleMoment(x: real, y: real, w: real, h: real)
    ensures var p, q, r, s := (x, y), (x + w, y), (x + w, y + h), (x, y + h);
            Value(MomentX, p, q) + Value(MomentX, q, r) + Value(MomentX, r, s) + Value(MomentX, s, p)
            == 6.0 * (w * h) * (x + w / 2.0)
            && Value(MomentY, p, q) + Value(MomentY, q, r) + Value(MomentY, r, s) + Value(MomentY, s, p)
               == 6.0 * (w * h) * (y + h / 2.0)
  {
  }

  /** Of two rectangles, wherever they are and in whichever order, the point is the middle of the larger. */
  lemma LargerRectangleWins(x: real, y: real, w: real, h: real, x': real, y': real, w': real, h': real, m: nat)
    requires w > 0.0 && h > 0.0 && w' > 0.0 && h' > 0.0 && w' * h' < w * h && m < 2
    ensures Largest([Rectangle(x, y, w, h), Rectangle(x', y', w', h')], m) <==> m == 0
    ensures Largest([Rectangle(x', y', w', h'), Rectangle(x, y, w, h)], m) <==> m == 1
    ensures PointOf(Rectangle(x, y, w, h)) == (x + w / 2.0, y + h / 2.0)
  {
    RectangleIs(x, y, w, h);
    RectangleIs(x', y', w', h');
    hide SizeOf, PointOf, Rectangle;
    var a, b := Rectangle(x, y, w, h), Rectangle(x', y', w', h');
    assert [a, b][0] == a && [a, b][1] == b && [b, a][0] == b && [b, a][1] == a;
  }

  /** There is only one such ring. */
  lemma LargestIsUnique(rings: seq<Ring>, m: nat, n: nat)
    requires m < |rings| && n < |rings| && forall i :: 0 <= i < |rings| ==> rings[i] != []
    requires Largest(rings, m) && Largest(rings, n)
    ensures m == n
  {
    hide SizeOf;
    assert SizeOf(rings[m]) <= SizeOf(rings[n]) && SizeOf(rings[n]) <= SizeOf(rings[m]);
    assert !(m < n) && !(n < m);
  }

  /** Two ways to draw one ring: another starting vertex, the other orientation. */
  ghost predicate SameRing(r: Ring, s: Ring) {
    r != [] && (s == r || s == Reversed(r) || exists k :: 0 < k < |r| && s == r[k..] + r[..k])
  }

  lemma SameRingSamePoint(r: Ring, s: Ring)
    requires SameRing(r, s)
    ensures s != [] && PointOf(s) == PointOf(r) && SizeOf(s) == SizeOf(r)
  {
    hide PointOf, SizeOf;
    OrientationDoesNotMatter(r);
    if s != r && s != Reversed(r) {
      var k :| 0 < k < |r| && s == r[k..] + r[..k];
      assert r == r[..k] + r[k..];
      StartDoesNotMatter(r[..k], r[k..]);
    }
  }

  /** Redrawing the rings of a polygon, or moving all of them, picks the same ring; its point stays, or moves
      with the polygon. */
  lemma RepresentativePointIsGeometric(rings: seq<Ring>, redrawn: seq<Ring>, d: Point, m: nat)
    requires |redrawn| == |rings| && (forall i :: 0 <= i < |rings| ==> SameRing(rings[i], redrawn[i])) && m < |rings|
    ensures forall i :: 0 <= i < |rings| ==> rings[i] != [] && redrawn[i] != []
    ensures Largest(rings, m) <==> Largest(redrawn, m)
    ensures PointOf(redrawn[m]) == PointOf(rings[m])
    ensures var moved := MovedAll(rings, d);
            (Largest(rings, m) <==> Largest(moved, m)) && PointOf(moved[m]) == Plus(PointOf(rings[m]), d)
  {
    hide PointOf, SizeOf, Moved, Plus, SameRing;
    var moved := MovedAll(rings, d);
    forall i | 0 <= i < |rings|
      ensures redrawn[i] != [] && rings[i] != [] && SizeOf(redrawn[i]) == SizeOf(rings[i])
              && PointOf(redrawn[i]) == PointOf(rings[i])
      ensures SizeOf(moved[i]) == SizeOf(rings[i]) && PointOf(moved[i]) == Plus(PointOf(rings[i]), d)
    {
      SameRingSamePoint(rings[i], redrawn[i]);
      SameRingNotEmpty(rings[i], redrawn[i]);
      MovesWithTheRing(rings[i], d);
    }
    SameSizesSameLargest(rings, redrawn, m);
    SameSizesSameLargest(rings, moved, m);
  }

  lemma SameRingNotEmpty(r: Ring, s: Ring)
    requires SameRing(r, s)
    ensures r != []
  {
  }

  function MovedAll(rings: seq<Ring>, d: Point): (r: seq<Ring>)
    ensures |r| == |rings| && forall i :: 0 <= i < |r| ==> r[i] == Moved(rings[i], d)
  {
    seq(|rings|, i requires 0 <= i < |rings| => Moved(rings[i], d))
  }

  lemma SameSizesSameLargest(rings: seq<Ring>, others: seq<Ring>, m: nat)
    requires |rings| == |others| && m < |rings|
    requires forall i :: 0 <= i < |rings| ==> rings[i] != [] && others[i] != [] && SizeOf(others[i]) == SizeOf(rings[i])
    ensures Largest(rings, m) <==> Largest(others, m)
  {
    hide SizeOf;
  }
}
