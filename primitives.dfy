/** The value types of the geometry kernel: Plane, Ray, Sphere and Box.
    Each is a small record that is copied on assignment and never shared,
    so each is a datatype here; a setter `p.SetOffset(d)` on a variable `p`
    is modelled as the value `p.SetOffset(d)` that replaces it. */
module Primitives {
  import opened Vectors

  /** The plane of points q with Dot(normal, q) + offset == 0; its positive
      half-space is the side the normal points to. */
  datatype Plane = Plane(normal: Vec3, offset: real) {

    function SetNormal(n: Vec3): (r: Plane)
      ensures r.normal == n && r.offset == offset
    {
      this.(normal := n)
    }

    function SetOffset(d: real): (r: Plane)
      ensures r.offset == d && r.normal == normal
    {
      this.(offset := d)
    }

    /** `Vec4(Normal(), Offset())`, the packing the transforms use. */
    function ToVec4(): Vec4 { Extend(normal, offset) }
  }

  /** A default-constructed Plane: the plane y == 0. */
  const DefaultPlane := Plane(Vec3(0.0, 1.0, 0.0), 0.0)

  /** Signed distance of q from p (exact only when the normal has unit length). */
  function SignedDistance(p: Plane, q: Vec3): real { Dot(p.normal, q) + p.offset }

  /** The normal has unit length, so signed distances are true distances. */
  predicate UnitNormal(p: Plane) { Dot(p.normal, p.normal) == 1.0 }

  /** `Plane(Vec4 v)`: xyz is the normal, w the offset. */
  function PlaneFromVec4(v: Vec4): (p: Plane)
    ensures p.ToVec4() == v
  {
    Plane(Truncate(v), v.w)
  }

  /** `Plane(a, b, c, d)`, which delegates to `Plane(Vec3(a, b, c), d)`. */
  function PlaneFromCoefficients(a: real, b: real, c: real, d: real): (p: Plane)
    ensures p == PlaneFromVec4(Vec4(a, b, c, d))
  {
    Plane(Vec3(a, b, c), d)
  }

  /** `Plane(a, b, c)` through three points: the normal is the normalised
      cross product of the edges b - a and c - a.  The points must not be
      collinear, which is what `0 < |cross|^2` says. */
  function PlaneFromPoints(sqrt: real -> real, a: Vec3, b: Vec3, c: Vec3): (p: Plane)
    requires SqrtLaw(sqrt)
    requires 0.0 < Dot(Cross(Sub(b, a), Sub(c, a)), Cross(Sub(b, a), Sub(c, a)))
    ensures SignedDistance(p, a) == 0.0
    ensures SignedDistance(p, b) == 0.0 && SignedDistance(p, c) == 0.0
    ensures Dot(p.normal, Sub(b, a)) == 0.0 && Dot(p.normal, Sub(c, a)) == 0.0
    ensures Dot(p.normal, p.normal) == 1.0
  {
    var w := Cross(Sub(b, a), Sub(c, a));
    NormalizeUnitMultiple(sqrt, w);
    var n := Normalize(sqrt, w);
    var k := 1.0 / sqrt(Dot(w, w));
    CrossOrthogonal(Sub(b, a), Sub(c, a));
    DotScaleLeft(k, w, Sub(b, a));
    DotScaleLeft(k, w, Sub(c, a));
    DotSubRight(n, b, a);
    DotSubRight(n, c, a);
    Plane(n, -Dot(n, a))
  }

  /** Plane(Vec4) and ToVec4 are inverse to each other. */
  lemma PlaneVec4RoundTrip(p: Plane, v: Vec4)
    ensures PlaneFromVec4(p.ToVec4()) == p
    ensures PlaneFromVec4(v).ToVec4() == v
  {
  }

  datatype Ray = Ray(position: Vec3, direction: Vec3) {

    function SetPosition(v: Vec3): (r: Ray)
      ensures r.position == v && r.direction == direction
    {
      this.(position := v)
    }

    function SetDirection(v: Vec3): (r: Ray)
      ensures r.direction == v && r.position == position
    {
      this.(direction := v)
    }
  }

  /** A default-constructed Ray: from the origin along +y. */
  const DefaultRay := Ray(Vec3(0.0, 0.0, 0.0), Vec3(0.0, 1.0, 0.0))

  datatype Sphere = Sphere(center: Vec3, radius: real) {

    function SetCenter(v: Vec3): (r: Sphere)
      ensures r.center == v && r.radius == radius
    {
      this.(center := v)
    }

    /** `SetCenter(x, y, z)`, which delegates to `SetCenter(Vec3(x, y, z))`. */
    function SetCenterCoords(x: real, y: real, z: real): (r: Sphere)
      ensures r == SetCenter(Vec3(x, y, z))
    {
      this.(center := Vec3(x, y, z))
    }

    function SetRadius(rad: real): (r: Sphere)
      ensures r.radius == rad && r.center == center
    {
      this.(radius := rad)
    }
  }

  /** A default-constructed Sphere: the unit sphere at the origin. */
  const DefaultSphere := Sphere(Vec3(0.0, 0.0, 0.0), 1.0)

  /** `Sphere(x, y, z, radius)`. */
  function SphereFromCoords(x: real, y: real, z: real, radius: real): (s: Sphere)
    ensures s == Sphere(Vec3(x, y, z), radius)
  {
    DefaultSphere.SetCenterCoords(x, y, z).SetRadius(radius)
  }

  /** An axis-aligned box between two corners.  Nothing forces
      minExtends <= maxExtends. */
  datatype Box = Box(minExtends: Vec3, maxExtends: Vec3) {

    function SetMinExtends(v: Vec3): (r: Box)
      ensures r.minExtends == v && r.maxExtends == maxExtends
    {
      this.(minExtends := v)
    }

    function SetMaxExtends(v: Vec3): (r: Box)
      ensures r.maxExtends == v && r.minExtends == minExtends
    {
      this.(maxExtends := v)
    }

    /** `SetMinExtends(x, y, z)`, which delegates to the Vec3 form. */
    function SetMinExtendsCoords(x: real, y: real, z: real): (r: Box)
      ensures r == SetMinExtends(Vec3(x, y, z))
    {
      this.(minExtends := Vec3(x, y, z))
    }

    /** `SetMaxExtends(x, y, z)`, which delegates to the Vec3 form. */
    function SetMaxExtendsCoords(x: real, y: real, z: real): (r: Box)
      ensures r == SetMaxExtends(Vec3(x, y, z))
    {
      this.(maxExtends := Vec3(x, y, z))
    }
  }

  /** A default-constructed Box: both corners at the origin. */
  const DefaultBox := Box(Vec3(0.0, 0.0, 0.0), Vec3(0.0, 0.0, 0.0))

  /** The default values of the four types: a Plane with normal (0, 1, 0)
      and offset 0, a Ray from the origin along +y, the unit Sphere at the
      origin, and a Box with both corners at the origin. */
  lemma DefaultValues()
    ensures DefaultPlane.normal == Vec3(0.0, 1.0, 0.0) && DefaultPlane.offset == 0.0
    ensures DefaultRay.position == Zero3 && DefaultRay.direction == Vec3(0.0, 1.0, 0.0)
    ensures DefaultSphere.center == Zero3 && DefaultSphere.radius == 1.0
    ensures DefaultBox.minExtends == Zero3 && DefaultBox.maxExtends == Zero3
  {
  }

  /** Corners of a box: each coordinate taken from one of the two extents. */
  predicate IsCorner(b: Box, q: Vec3)
  {
    (q.x == b.minExtends.x || q.x == b.maxExtends.x) &&
    (q.y == b.minExtends.y || q.y == b.maxExtends.y) &&
    (q.z == b.minExtends.z || q.z == b.maxExtends.z)
  }

  /** Points of the box, for a box whose extents are ordered. */
  predicate InBox(b: Box, q: Vec3)
  {
    b.minExtends.x <= q.x <= b.maxExtends.x &&
    b.minExtends.y <= q.y <= b.maxExtends.y &&
    b.minExtends.z <= q.z <= b.maxExtends.z
  }
}
