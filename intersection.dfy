/** The culling tests `Intersects(Frustum, Sphere)` and
    `Intersects(Frustum, Box)`: each walks the six planes in slot order and
    answers false at the first plane that has the whole primitive on its
    negative side. */
module Intersection {
  import opened Reals
  import opened Vectors
  import opened Primitives
  import opened Frustums

  /** A plane rejects a sphere whose center lies `radius` or more on its
      negative side; touching from outside counts as rejected. */
  predicate RejectsSphere(p: Plane, s: Sphere)
  {
    SignedDistance(p, s.center) <= -s.radius
  }

  predicate SphereVisible(planes: seq<Plane>, s: Sphere)
  {
    forall i :: 0 <= i < |planes| ==> !RejectsSphere(planes[i], s)
  }

  /** The per-axis maximum sum of the box test: on each axis the larger of
      the two extents scaled by the normal's component. */
  function Support(n: Vec3, b: Box): real
  {
    Max(b.minExtends.x * n.x, b.maxExtends.x * n.x) +
    Max(b.minExtends.y * n.y, b.maxExtends.y * n.y) +
    Max(b.minExtends.z * n.z, b.maxExtends.z * n.z)
  }

  /** A plane rejects a box whose support plus offset is strictly negative. */
  predicate RejectsBox(p: Plane, b: Box)
  {
    Support(p.normal, b) + p.offset < 0.0
  }

  predicate BoxVisible(planes: seq<Plane>, b: Box)
  {
    forall i :: 0 <= i < |planes| ==> !RejectsBox(planes[i], b)
  }

  /** `Intersects(Frustum, Sphere)`. */
  method IntersectsSphere(lhs: Frustum, rhs: Sphere) returns (r: bool)
    requires lhs.Valid()
    ensures r == SphereVisible(lhs.Planes(), rhs)
    ensures !r <==> exists i :: 0 <= i < 6 && RejectsSphere(lhs.Planes()[i], rhs)
  {
    for index := 0 to 6
      invariant forall j :: 0 <= j < index ==> !RejectsSphere(lhs.Planes()[j], rhs)
    {
      var e := lhs.PlaneAt(SectionOf(index));
      if Dot(e.normal, rhs.center) + e.offset <= -rhs.radius {
        return false;
      }
    }
    return true;
  }

  /** `Intersects(Frustum, Box)`, the positive-vertex test. */
  method IntersectsBox(lhs: Frustum, rhs: Box) returns (r: bool)
    requires lhs.Valid()
    ensures r == BoxVisible(lhs.Planes(), rhs)
    ensures !r <==> exists i :: 0 <= i < 6 && RejectsBox(lhs.Planes()[i], rhs)
  {
    for index := 0 to 6
      invariant forall j :: 0 <= j < index ==> !RejectsBox(lhs.Planes()[j], rhs)
    {
      var e := lhs.PlaneAt(SectionOf(index));
      var d := Max(rhs.minExtends.x * e.normal.x, rhs.maxExtends.x * e.normal.x) +
               Max(rhs.minExtends.y * e.normal.y, rhs.maxExtends.y * e.normal.y) +
               Max(rhs.minExtends.z * e.normal.z, rhs.maxExtends.z * e.normal.z) + e.offset;
      assert RejectsBox(e, rhs) <==> d < 0.0;
      if d < 0.0 {
        return false;
      }
    }
    return true;
  }

  /** The answer depends on the planes and not on their order, so it does not
      matter which rejecting plane the loop meets first. */
  lemma SphereVisiblePermutation(a: seq<Plane>, b: seq<Plane>, s: Sphere)
    requires multiset(a) == multiset(b)
    ensures SphereVisible(a, s) <==> SphereVisible(b, s)
  {
    if !SphereVisible(a, s) {
      var i :| 0 <= i < |a| && RejectsSphere(a[i], s);
      assert a[i] in multiset(b);
      var j :| 0 <= j < |b| && b[j] == a[i];
    }
    if !SphereVisible(b, s) {
      var j :| 0 <= j < |b| && RejectsSphere(b[j], s);
      assert b[j] in multiset(a);
      var i :| 0 <= i < |a| && a[i] == b[j];
    }
  }

  lemma BoxVisiblePermutation(a: seq<Plane>, b: seq<Plane>, x: Box)
    requires multiset(a) == multiset(b)
    ensures BoxVisible(a, x) <==> BoxVisible(b, x)
  {
    if !BoxVisible(a, x) {
      var i :| 0 <= i < |a| && RejectsBox(a[i], x);
      assert a[i] in multiset(b);
      var j :| 0 <= j < |b| && b[j] == a[i];
    }
    if !BoxVisible(b, x) {
      var j :| 0 <= j < |b| && RejectsBox(b[j], x);
      assert b[j] in multiset(a);
      var i :| 0 <= i < |a| && a[i] == b[j];
    }
  }

  /** A sphere whose center is exactly `radius` behind a plane, touching it
      from outside, is rejected. */
  lemma TouchingSphereRejected(p: Plane, s: Sphere)
    requires SignedDistance(p, s.center) == -s.radius
    ensures RejectsSphere(p, s)
  {
  }

  /** On one axis, a coordinate between the two extents, or equal to one of
      them, scaled by `c` is at most the larger of the two scaled extents. */
  lemma AxisBound(lo: real, hi: real, t: real, c: real)
    requires lo <= t <= hi || t == lo || t == hi
    ensures c * t <= Max(lo * c, hi * c)
  {
  }

  /** On one axis, the extent the positive vertex picks attains the maximum. */
  lemma AxisVertex(lo: real, hi: real, c: real)
    ensures c * (if lo * c >= hi * c then lo else hi) == Max(lo * c, hi * c)
  {
  }

  /** The corner the positive-vertex test effectively picks: on each axis the
      extent with the larger product. */
  function PositiveVertex(n: Vec3, b: Box): Vec3
  {
    Vec3(if b.minExtends.x * n.x >= b.maxExtends.x * n.x then b.minExtends.x else b.maxExtends.x,
         if b.minExtends.y * n.y >= b.maxExtends.y * n.y then b.minExtends.y else b.maxExtends.y,
         if b.minExtends.z * n.z >= b.maxExtends.z * n.z then b.minExtends.z else b.maxExtends.z)
  }

  /** The per-axis maximum sum is the largest value of `n . q` over the eight
      corners q of the box: it bounds every corner and one corner meets it. */
  lemma SupportIsMaxOverCorners(n: Vec3, b: Box)
    ensures forall q :: IsCorner(b, q) ==> Dot(n, q) <= Support(n, b)
    ensures IsCorner(b, PositiveVertex(n, b)) && Dot(n, PositiveVertex(n, b)) == Support(n, b)
  {
    forall q | IsCorner(b, q)
      ensures Dot(n, q) <= Support(n, b)
    {
      SupportBoundsPoint(n, b, q);
    }
    AxisVertex(b.minExtends.x, b.maxExtends.x, n.x);
    AxisVertex(b.minExtends.y, b.maxExtends.y, n.y);
    AxisVertex(b.minExtends.z, b.maxExtends.z, n.z);
  }

  /** The support bounds `n . q` at every point and every corner of the box. */
  lemma SupportBoundsPoint(n: Vec3, b: Box, q: Vec3)
    requires InBox(b, q) || IsCorner(b, q)
    ensures Dot(n, q) <= Support(n, b)
  {
    AxisBound(b.minExtends.x, b.maxExtends.x, q.x, n.x);
    AxisBound(b.minExtends.y, b.maxExtends.y, q.y, n.y);
    AxisBound(b.minExtends.z, b.maxExtends.z, q.z, n.z);
    SupportFromAxes(n, b, q);
  }

  /** The three per-axis bounds add up to the bound on the dot product. */
  lemma SupportFromAxes(n: Vec3, b: Box, q: Vec3)
    requires n.x * q.x <= Max(b.minExtends.x * n.x, b.maxExtends.x * n.x)
    requires n.y * q.y <= Max(b.minExtends.y * n.y, b.maxExtends.y * n.y)
    requires n.z * q.z <= Max(b.minExtends.z * n.z, b.maxExtends.z * n.z)
    ensures Dot(n, q) <= Support(n, b)
  {
  }

  /** A plane that rejects a box has every point of the box strictly on its
      negative side, so no visible part of a box is ever culled. */
  lemma BoxRejectionSound(p: Plane, b: Box, q: Vec3)
    requires RejectsBox(p, b)
    requires InBox(b, q) || IsCorner(b, q)
    ensures SignedDistance(p, q) < 0.0
  {
    SupportBoundsPoint(p.normal, b, q);
  }

  /** A box with a point on the non-negative side of every plane is visible. */
  lemma BoxWithInsidePointVisible(planes: seq<Plane>, b: Box, q: Vec3)
    requires InBox(b, q) || IsCorner(b, q)
    requires forall i :: 0 <= i < |planes| ==> 0.0 <= SignedDistance(planes[i], q)
    ensures BoxVisible(planes, b)
  {
    forall i | 0 <= i < |planes|
      ensures !RejectsBox(planes[i], b)
    {
      if RejectsBox(planes[i], b) {
        BoxRejectionSound(planes[i], b, q);
      }
    }
  }

  /** Because the box test is strict, a box shrunk to a single point on a
      plane is kept by that plane, where the sphere test would reject a
      sphere of radius 0 at the same point. */
  lemma DegenerateBoxNotRejected(p: Plane, q: Vec3)
    requires SignedDistance(p, q) == 0.0
    ensures !RejectsBox(p, Box(q, q))
    ensures RejectsSphere(p, Sphere(q, 0.0))
  {
    assert Support(p.normal, Box(q, q)) == Dot(p.normal, q);
  }

  /** Cauchy-Schwarz for a unit vector: `(n . d)^2 <= d . d`. */
  lemma UnitCauchySchwarz(n: Vec3, d: Vec3)
    requires Dot(n, n) == 1.0
    ensures Dot(n, d) * Dot(n, d) <= Dot(d, d)
  {
    var w := Cross(n, d);
    LagrangeIdentity(n, d);
    SquareNonNegative(w.x);
    SquareNonNegative(w.y);
    SquareNonNegative(w.z);
    SumNonNegative3(w.x * w.x, w.y * w.y, w.z * w.z);
    OneTimes(Dot(n, n), Dot(d, d));
    UnitBound(Dot(n, n) * Dot(d, d), Dot(n, d) * Dot(n, d), Dot(w, w), Dot(d, d));
  }

  lemma UnitBound(pd: real, x: real, w: real, d: real)
    requires pd == d && pd - x == w && 0.0 <= w
    ensures x <= d
  {
  }

  /** A plane with a unit normal that rejects a sphere has every point of the
      sphere on its non-positive side. */
  lemma SphereRejectionSound(p: Plane, s: Sphere, q: Vec3)
    requires UnitNormal(p) && 0.0 <= s.radius
    requires RejectsSphere(p, s)
    requires Dot(Sub(q, s.center), Sub(q, s.center)) <= s.radius * s.radius
    ensures SignedDistance(p, q) <= 0.0
  {
    var d := Sub(q, s.center);
    UnitCauchySchwarz(p.normal, d);
    if s.radius < Dot(p.normal, d) {
      SquareStrict(s.radius, Dot(p.normal, d));
      assert false;
    }
    DotSubRight(p.normal, q, s.center);
  }

  /** A sphere of radius at most `1 / proj(1,1)` is culled by every frustum
      taken from an orthographic projection with proj(1,1) > 0: its Top and
      Bottom planes keep disjoint sides, so one of them rejects it. */
  lemma OrthographicRejectsSmallSpheres(sqrt: real -> real, proj: Mat4, s: Sphere)
    requires CanExtract(sqrt, proj) && IsOrthographic(proj)
    requires 0.0 < proj.At(1, 1) && s.radius <= Rcp(proj, 1)
    ensures !SphereVisible(ProjectionPlanes(sqrt, proj), s)
  {
    OrthographicExtraction(sqrt, proj);
    var ps := ProjectionPlanes(sqrt, proj);
    if !RejectsSphere(ps[Top.Index()], s) && !RejectsSphere(ps[Bottom.Index()], s) {
      assert false;
    }
  }
}
