/** Points in the two coordinate conventions the planner works with.
    The game world (G3D) names a point (x, y, z) with z the elevation; the
    navigation mesh library (Detour) stores the same point as the float triple
    [y, z, x], so its index 1 is the elevation. Floats are modelled as reals. */
module Geometry {

  /** A point in world coordinates. */
  datatype Vec3 = Vec3(x: real, y: real, z: real)

  /** A point in mesh coordinates: d0, d1, d2 are the three array slots. */
  datatype DtPoint = DtPoint(d0: real, d1: real, d2: real)

  /** World to mesh: { p.y, p.z, p.x }. */
  function ToDetour(p: Vec3): (v: DtPoint)
    ensures v.d1 == p.z  // the elevation lands in slot 1
    ensures FromDetour(v) == p
  {
    DtPoint(p.y, p.z, p.x)
  }

  /** Mesh to world: Vector3(v[2], v[0], v[1]). */
  function FromDetour(v: DtPoint): (p: Vec3)
    ensures p.z == v.d1
    ensures DtPoint(p.y, p.z, p.x) == v  // the inverse of ToDetour
  {
    Vec3(v.d2, v.d0, v.d1)
  }

  function Abs(r: real): real { if r < 0.0 then -r else r }

  function Sub(a: Vec3, b: Vec3): Vec3 { Vec3(a.x - b.x, a.y - b.y, a.z - b.z) }

  /** Squared length of p1 - p2. */
  function Dist3DSqr(p1: Vec3, p2: Vec3): (r: real)
    ensures r >= 0.0
    ensures p1 == p2 ==> r == 0.0
  {
    var d := Sub(p1, p2);
    SquarePositive(d.x); SquarePositive(d.y); SquarePositive(d.z);
    d.x * d.x + d.y * d.y + d.z * d.z
  }

  lemma SquarePositive(a: real)
    ensures a * a >= 0.0
  {
    if a < 0.0 { assert a * a == (-a) * (-a); }
  }

  /** Squared distance between two mesh points (dtVdistSqr). */
  function DtDistSqr(a: DtPoint, b: DtPoint): (r: real)
    ensures r == Dist3DSqr(FromDetour(a), FromDetour(b))
  {
    var d0, d1, d2 := a.d0 - b.d0, a.d1 - b.d1, a.d2 - b.d2;
    d0 * d0 + d1 * d1 + d2 * d2
  }

  /** World-coordinate proximity: horizontal (x, y) distance below r and
      elevation difference below h. */
  predicate InRange(p1: Vec3, p2: Vec3, r: real, h: real)
  {
    var d := Sub(p1, p2);
    d.x * d.x + d.y * d.y < r * r && Abs(d.z) < h
  }

  /** Two points in range lie closer than the corner of the range
      cylinder: their squared distance is below r^2 + h^2. */
  lemma InRangeWithinDistance(p1: Vec3, p2: Vec3, r: real, h: real)
    requires InRange(p1, p2, r, h)
    ensures Dist3DSqr(p1, p2) < r * r + h * h
  {
    var d := Sub(p1, p2);
    var b := Abs(d.z);
    assert d.z * d.z == b * b;
    assert b * b <= b * h;
    assert b * h < h * h;
  }

  /** Mesh-coordinate proximity: slots 0 and 2 are horizontal, slot 1 is
      the elevation. It is InRange seen through the swizzle. */
  predicate InRangeYZX(v1: DtPoint, v2: DtPoint, r: real, h: real)
    ensures InRangeYZX(v1, v2, r, h) == InRange(FromDetour(v1), FromDetour(v2), r, h)
  {
    var dx, dy, dz := v2.d0 - v1.d0, v2.d1 - v1.d1, v2.d2 - v1.d2;
    dx * dx + dz * dz < r * r && Abs(dy) < h
  }

  /** The point a fraction t of the way from a to b (dtVlerp): it lies t
      of the distance from a and 1 - t of it from b. */
  function Lerp(a: DtPoint, b: DtPoint, t: real): (r: DtPoint)
    ensures t == 0.0 ==> r == a
    ensures t == 1.0 ==> r == b
    ensures DtDistSqr(r, a) == t * t * DtDistSqr(b, a)
    ensures DtDistSqr(r, b) == (1.0 - t) * (1.0 - t) * DtDistSqr(b, a)
  {
    var r := DtPoint(a.d0 + (b.d0 - a.d0) * t, a.d1 + (b.d1 - a.d1) * t, a.d2 + (b.d2 - a.d2) * t);
    ScaledSquare(b.d0 - a.d0, t); ScaledSquare(b.d1 - a.d1, t); ScaledSquare(b.d2 - a.d2, t);
    ScaledSquare(a.d0 - b.d0, 1.0 - t); ScaledSquare(a.d1 - b.d1, 1.0 - t); ScaledSquare(a.d2 - b.d2, 1.0 - t);
    r
  }

  lemma ScaledSquare(d: real, t: real)
    ensures (d * t) * (d * t) == t * t * (d * d)
  {
  }

  /** The mesh point with its elevation slot replaced (writes to point[1]). */
  function WithElevation(v: DtPoint, h: real): (r: DtPoint)
    ensures FromDetour(r).z == h
    ensures FromDetour(r).x == FromDetour(v).x && FromDetour(r).y == FromDetour(v).y
  {
    DtPoint(v.d0, h, v.d2)
  }
}
