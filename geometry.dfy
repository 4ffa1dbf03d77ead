/** Points of the plane, the chaos-game move, the polygon angles produced by
    numpy.linspace, and what can be said about chaos-game orbits. */
module Geometry {

  datatype Point = Point(x: real, y: real)

  const Origin := Point(0.0, 0.0)

  /** The decimal value of numpy's float constant np.pi. */
  const Pi: real := 3.141592653589793

  ghost predicate InUnitSquare(p: Point) {
    -1.0 <= p.x <= 1.0 && -1.0 <= p.y <= 1.0
  }

  /** One move of the chaos game: keep the fraction s of the current position p
      and take the rest from the corner c. Its offset from c is its old offset scaled by s. */
  function Step(s: real, p: Point, c: Point): (q: Point)
    ensures q.x - c.x == s * (p.x - c.x)
    ensures q.y - c.y == s * (p.y - c.y)
  {
    Point(s * p.x + (1.0 - s) * c.x, s * p.y + (1.0 - s) * c.y)
  }

  /** A move with 0 <= s <= 1 is a convex combination, so it cannot leave the square [-1,1]^2. */
  lemma StepStaysInSquare(s: real, p: Point, c: Point)
    requires 0.0 <= s <= 1.0
    requires InUnitSquare(p) && InUnitSquare(c)
    ensures InUnitSquare(Step(s, p, c))
  {
    ConvexBound(s, p.x, c.x);
    ConvexBound(s, p.y, c.y);
  }

  /** The x (or y) coordinate of a move lies between the old coordinate and the corner's. */
  lemma ConvexBound(s: real, a: real, c: real)
    requires 0.0 <= s <= 1.0
    requires -1.0 <= a <= 1.0 && -1.0 <= c <= 1.0
    ensures -1.0 <= s * a + (1.0 - s) * c <= 1.0
  {
    var d := a - c;
    ShrunkOffset(s, d);
    var q := c + s * d;
    assert s * a + (1.0 - s) * c == q;
    if 0.0 <= d {
      assert c <= q <= a;
    } else {
      assert a <= q <= c;
    }
  }

  lemma ShrunkOffset(s: real, d: real)
    requires 0.0 <= s <= 1.0
    ensures 0.0 <= d ==> 0.0 <= s * d <= d
    ensures d < 0.0 ==> d <= s * d <= 0.0
  {
    assert (1.0 - s) * d == d - s * d;
  }

  /** numpy.linspace(start, stop, num) with its default endpoint=True, over the reals. */
  function Linspace(start: real, stop: real, num: nat): (r: seq<real>)
    ensures |r| == num
    ensures num >= 1 ==> r[0] == start
    ensures num >= 2 ==> r[num - 1] == stop
    ensures forall j :: 0 <= j < num - 1 ==> r[j + 1] - r[j] == (stop - start) / (num - 1) as real
  {
    if num == 1 then [start]
    else
      var step := (stop - start) / (num - 1) as real;
      var r := seq(num, j => start + j as real * step);
      assert num >= 2 ==> r[num - 1] == start + (stop - start);
      r
  }

  /** Python's slice s[:-1]: everything but the last element (nothing of an empty sequence). */
  function DropLast<T>(s: seq<T>): (r: seq<T>)
    ensures |r| == if s == [] then 0 else |s| - 1
    ensures forall j :: 0 <= j < |r| ==> r[j] == s[j]
  {
    if s == [] then [] else s[..|s| - 1]
  }

  /** The angles np.linspace(0, 2*pi, m)[:-1]: the m - 1 vertex angles of a
      regular (m-1)-gon, starting at angle 0 (none at all when m is 0 or 1). */
  function PolygonAngles(m: nat): (a: seq<real>)
    ensures |a| == if m == 0 then 0 else m - 1
    ensures forall j :: 0 <= j < |a| ==> a[j] == 2.0 * Pi * (j as real) / ((m - 1) as real)
  {
    var a := DropLast(Linspace(0.0, 2.0 * Pi, m));
    assert forall j :: 0 <= j < |a| ==> a[j] == 2.0 * Pi * (j as real) / ((m - 1) as real) by {
      forall j | 0 <= j < |a| ensures a[j] == 2.0 * Pi * (j as real) / ((m - 1) as real) {
        LinspaceAt(0.0, 2.0 * Pi, m, j);
      }
    }
    a
  }

  /** The j-th point of a linspace is start plus j equal steps. */
  lemma LinspaceAt(start: real, stop: real, num: nat, j: nat)
    requires j < num
    requires num >= 2
    ensures Linspace(start, stop, num)[j] == start + (stop - start) * (j as real) / ((num - 1) as real)
  {
    var d := (num - 1) as real;
    assert (j as real) * ((stop - start) / d) == (stop - start) * (j as real) / d;
  }

  /** The board as GenerateBoard lays it out: numCorners + 1 slots; the first
      slots hold the unit-circle points of PolygonAngles(m), where m is n when a
      corner sits at the centre and n + 1 otherwise; every later slot is (0,0). */
  ghost predicate IsBoard(corners: seq<Point>, n: nat, atCentre: bool, cos: real -> real, sin: real -> real) {
    var angles := PolygonAngles(if atCentre then n else n + 1);
    && |corners| == n + 1
    && (forall j :: 0 <= j < |angles| ==> corners[j] == Point(cos(angles[j]), sin(angles[j])))
    && (forall j :: |angles| <= j <= n ==> corners[j] == Origin)
  }

  /** With cos and sin bounded by 1, every slot of a board lies in [-1,1]^2. */
  lemma BoardInSquare(corners: seq<Point>, n: nat, atCentre: bool, cos: real -> real, sin: real -> real)
    requires IsBoard(corners, n, atCentre, cos, sin)
    requires forall t :: -1.0 <= cos(t) <= 1.0
    requires forall t :: -1.0 <= sin(t) <= 1.0
    ensures forall j :: 0 <= j < |corners| ==> InUnitSquare(corners[j])
  {
    var angles := PolygonAngles(if atCentre then n else n + 1);
    forall j | 0 <= j < |corners| ensures InUnitSquare(corners[j]) {
      if j < |angles| {
        assert corners[j] == Point(cos(angles[j]), sin(angles[j]));
      } else {
        assert corners[j] == Origin;
      }
    }
  }

  /** pos follows the index stream ifs exactly: pos[0] is start and each later
      pos[i] is one move from pos[i-1] toward the 1-based corner ifs[i]
      (ifs[0] is not used). */
  ghost predicate FollowsStream(pos: seq<Point>, ifs: seq<int>, corners: seq<Point>, start: Point, s: real) {
    && |pos| == |ifs| >= 1
    && pos[0] == start
    && forall i :: 1 <= i < |ifs| ==>
         1 <= ifs[i] <= |corners| && pos[i] == Step(s, pos[i - 1], corners[ifs[i] - 1])
  }

  /** pos is a chaos-game orbit over the corners: it starts at start and every
      later point is one move from its predecessor toward one of the corners. */
  ghost predicate IsOrbit(pos: seq<Point>, corners: seq<Point>, start: Point, s: real) {
    && |pos| >= 1
    && pos[0] == start
    && forall i :: 1 <= i < |pos| ==> MovesToward(pos[i - 1], pos[i], corners, s)
  }

  /** q is one move from p toward one of the corners. */
  ghost predicate MovesToward(p: Point, q: Point, corners: seq<Point>, s: real) {
    exists j :: 0 <= j < |corners| && q == Step(s, p, corners[j])
  }

  /** The start, the scale, the corners and the stream fix the positions: two
      position sequences that follow the same stream are equal. */
  lemma {:induction false} StreamDeterminesPositions(p1: seq<Point>, p2: seq<Point>, ifs: seq<int>, corners: seq<Point>, start: Point, s: real)
    requires FollowsStream(p1, ifs, corners, start, s)
    requires FollowsStream(p2, ifs, corners, start, s)
    ensures p1 == p2
  {
    forall i | 0 <= i < |p1| ensures p1[i] == p2[i] {
      SamePositionAt(p1, p2, ifs, corners, start, s, i);
    }
  }

  lemma {:induction false} SamePositionAt(p1: seq<Point>, p2: seq<Point>, ifs: seq<int>, corners: seq<Point>, start: Point, s: real, i: nat)
    requires FollowsStream(p1, ifs, corners, start, s)
    requires FollowsStream(p2, ifs, corners, start, s)
    requires i < |p1|
    ensures p1[i] == p2[i]
  {
    if i > 0 {
      SamePositionAt(p1, p2, ifs, corners, start, s, i - 1);
    }
  }

  /** With 0 <= s <= 1, an orbit that starts in [-1,1]^2 over corners in [-1,1]^2 never leaves it. */
  lemma OrbitStaysInSquare(pos: seq<Point>, corners: seq<Point>, start: Point, s: real)
    requires IsOrbit(pos, corners, start, s)
    requires 0.0 <= s <= 1.0
    requires InUnitSquare(start)
    requires forall j :: 0 <= j < |corners| ==> InUnitSquare(corners[j])
    ensures forall i :: 0 <= i < |pos| ==> InUnitSquare(pos[i])
  {
    forall i | 0 <= i < |pos| ensures InUnitSquare(pos[i]) {
      OrbitPointInSquare(pos, corners, start, s, i);
    }
  }

  lemma {:induction false} OrbitPointInSquare(pos: seq<Point>, corners: seq<Point>, start: Point, s: real, i: nat)
    requires IsOrbit(pos, corners, start, s)
    requires 0.0 <= s <= 1.0
    requires InUnitSquare(start)
    requires forall j :: 0 <= j < |corners| ==> InUnitSquare(corners[j])
    requires i < |pos|
    ensures InUnitSquare(pos[i])
  {
    if i > 0 {
      OrbitPointInSquare(pos, corners, start, s, i - 1);
      var j :| 0 <= j < |corners| && pos[i] == Step(s, pos[i - 1], corners[j]);
      StepStaysInSquare(s, pos[i - 1], corners[j]);
    }
  }

  /** With scale 1 no move goes anywhere: every point of the orbit is the start. */
  lemma OrbitFixedAtScaleOne(pos: seq<Point>, corners: seq<Point>, start: Point)
    requires IsOrbit(pos, corners, start, 1.0)
    ensures forall i :: 0 <= i < |pos| ==> pos[i] == start
  {
    forall i | 0 <= i < |pos| ensures pos[i] == start {
      OrbitPointFixed(pos, corners, start, i);
    }
  }

  lemma {:induction false} OrbitPointFixed(pos: seq<Point>, corners: seq<Point>, start: Point, i: nat)
    requires IsOrbit(pos, corners, start, 1.0)
    requires i < |pos|
    ensures pos[i] == start
  {
    if i > 0 {
      OrbitPointFixed(pos, corners, start, i - 1);
    }
  }
}
