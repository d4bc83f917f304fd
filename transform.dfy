/** The `operator*` transforms: a 4x4 matrix applied to each primitive.
    Points are moved as homogeneous points with w == 1, planes by the
    transposed inverse of the matrix, and a frustum plane by plane. The
    inverse comes from a library that is not part of this model and is
    passed in as `inverse`. */
module Transforms {
  import opened Vectors
  import opened Primitives
  import opened Frustums

  /** `Vec4(v, 1)`: a point in homogeneous coordinates. */
  function Point(v: Vec3): (h: Vec4)
    ensures Truncate(h) == v && h.w == 1.0
  {
    Extend(v, 1.0)
  }

  /** `m * Vec4(v, 1)` cut back to three components. */
  function MovePoint(m: Mat4, v: Vec3): (r: Vec3)
    ensures r == Vec3(Dot4(m.row0, Point(v)), Dot4(m.row1, Point(v)), Dot4(m.row2, Point(v)))
  {
    Truncate(MulVec(m, Point(v)))
  }

  /** `lhs * Plane`: the coefficients (normal, offset) multiplied by
      `Transpose(Inverse(lhs))`. */
  function TransformPlane(inverse: Mat4 -> Mat4, lhs: Mat4, rhs: Plane): (r: Plane)
    ensures r.ToVec4() == MulVec(Transpose(inverse(lhs)), rhs.ToVec4())
  {
    PlaneFromVec4(MulVec(Transpose(inverse(lhs)), rhs.ToVec4()))
  }

  /** `lhs * Ray`: the default Ray, whatever the arguments. */
  function TransformRay(lhs: Mat4, rhs: Ray): (r: Ray)
    ensures r.position == Zero3 && r.direction == Vec3(0.0, 1.0, 0.0)
  {
    DefaultRay
  }

  /** `lhs * Sphere`: the center moved as a point, the radius kept. */
  function TransformSphere(lhs: Mat4, rhs: Sphere): (r: Sphere)
    ensures r.radius == rhs.radius
    ensures r.center == MovePoint(lhs, rhs.center)
  {
    var center := MulVec(lhs, Point(rhs.center));
    SphereFromCoords(center.x, center.y, center.z, rhs.radius)
  }

  /** `lhs * Box`: each of the two corners moved as a point on its own. */
  function TransformBox(lhs: Mat4, rhs: Box): (r: Box)
    ensures r.minExtends == MovePoint(lhs, rhs.minExtends)
    ensures r.maxExtends == MovePoint(lhs, rhs.maxExtends)
  {
    var min := MulVec(lhs, Point(rhs.minExtends));
    var max := MulVec(lhs, Point(rhs.maxExtends));
    Box(Vec3(min.x, min.y, min.z), Vec3(max.x, max.y, max.z))
  }

  /** The planes of a transformed frustum: plane i of the result is plane i
      of the input transformed. */
  function TransformPlanes(inverse: Mat4 -> Mat4, lhs: Mat4, ps: seq<Plane>): (r: seq<Plane>)
    ensures |r| == |ps|
    ensures forall i :: 0 <= i < |ps| ==> r[i] == TransformPlane(inverse, lhs, ps[i])
  {
    if ps == [] then [] else [TransformPlane(inverse, lhs, ps[0])] + TransformPlanes(inverse, lhs, ps[1..])
  }

  /** `lhs * Frustum`: a default frustum whose six sections are set, in
      order, to the input's planes transformed. */
  method TransformFrustum(inverse: Mat4 -> Mat4, lhs: Mat4, rhs: Frustum) returns (result: Frustum)
    requires rhs.Valid()
    ensures fresh(result) && fresh(result.planes) && result.Valid()
    ensures result.Planes() == TransformPlanes(inverse, lhs, rhs.Planes())
  {
    result := new Frustum();
    var trans := Transpose(inverse(lhs));
    for index := 0 to 6
      invariant result.Valid() && fresh(result.planes)
      invariant forall j :: 0 <= j < index ==> result.Planes()[j] == TransformPlane(inverse, lhs, rhs.Planes()[j])
    {
      var e := rhs.PlaneAt(SectionOf(index));
      result.SetPlane(SectionOf(index), PlaneFromVec4(MulVec(trans, Extend(e.normal, e.offset))));
    }
  }

  /** The matrix that moves every point by t. */
  function Translation(t: Vec3): Mat4
  {
    Mat4(Vec4(1.0, 0.0, 0.0, t.x), Vec4(0.0, 1.0, 0.0, t.y),
         Vec4(0.0, 0.0, 1.0, t.z), Vec4(0.0, 0.0, 0.0, 1.0))
  }

  /** The matrix that mirrors x. */
  function MirrorX(): Mat4
  {
    Mat4(Vec4(-1.0, 0.0, 0.0, 0.0), Vec4(0.0, 1.0, 0.0, 0.0),
         Vec4(0.0, 0.0, 1.0, 0.0), Vec4(0.0, 0.0, 0.0, 1.0))
  }

  /** The identity moves no point. */
  lemma MovePointIdentity(v: Vec3)
    ensures MovePoint(Identity(), v) == v
  {
  }

  /** A translation moves a point by its offset. */
  lemma MovePointTranslation(t: Vec3, v: Vec3)
    ensures MovePoint(Translation(t), v) == Add(v, t)
  {
  }

  /** A translated sphere keeps its radius and has its center moved by t;
      the identity leaves a sphere unchanged. */
  lemma TransformSphereTranslation(t: Vec3, s: Sphere)
    ensures TransformSphere(Translation(t), s) == Sphere(Add(s.center, t), s.radius)
    ensures TransformSphere(Identity(), s) == s
  {
    MovePointTranslation(t, s.center);
    MovePointIdentity(s.center);
  }

  /** A translated box has both corners moved by t; the identity leaves a
      box unchanged. */
  lemma TransformBoxTranslation(t: Vec3, b: Box)
    ensures TransformBox(Translation(t), b) == Box(Add(b.minExtends, t), Add(b.maxExtends, t))
    ensures TransformBox(Identity(), b) == b
  {
    MovePointTranslation(t, b.minExtends);
    MovePointTranslation(t, b.maxExtends);
    MovePointIdentity(b.minExtends);
    MovePointIdentity(b.maxExtends);
  }

  /** The corners are moved independently and not put back in order: a
      mirror turns a box with min.x < max.x into one with min.x > max.x. */
  lemma TransformBoxKeepsCornerRoles(b: Box)
    requires b.minExtends.x < b.maxExtends.x
    ensures TransformBox(MirrorX(), b).minExtends.x == -b.minExtends.x
    ensures TransformBox(MirrorX(), b).maxExtends.x == -b.maxExtends.x
    ensures TransformBox(MirrorX(), b).minExtends.x > TransformBox(MirrorX(), b).maxExtends.x
  {
  }

  /** When `inverse` maps the identity to itself, transforming by the
      identity leaves every plane, and so every frustum, unchanged. */
  lemma TransformPlaneIdentity(inverse: Mat4 -> Mat4, p: Plane, ps: seq<Plane>)
    requires inverse(Identity()) == Identity()
    ensures TransformPlane(inverse, Identity(), p) == p
    ensures TransformPlanes(inverse, Identity(), ps) == ps
  {
    IdentityNeutral(p.ToVec4());
    forall i | 0 <= i < |ps|
      ensures TransformPlanes(inverse, Identity(), ps)[i] == ps[i]
    {
      IdentityNeutral(ps[i].ToVec4());
    }
  }

  /** The ray transform ignores both of its arguments. */
  lemma TransformRayConstant(m1: Mat4, r1: Ray, m2: Mat4, r2: Ray)
    ensures TransformRay(m1, r1) == TransformRay(m2, r2) == DefaultRay
  {
  }
}
