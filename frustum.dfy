/** The view frustum: six planes held in a fixed array, filled in closed
    form from a projection matrix, and read and written one section at a
    time. */
module Frustums {
  import opened Reals
  import opened Vectors
  import opened Primitives

  /** The six sections, in the order of their array slots. */
  datatype Section = Near | Far | Left | Right | Top | Bottom {

    /** The array slot of the section. */
    function Index(): (i: nat)
      ensures i < 6
    {
      match this
      case Near => 0
      case Far => 1
      case Left => 2
      case Right => 3
      case Top => 4
      case Bottom => 5
    }
  }

  /** The section stored in slot i. */
  function SectionOf(i: nat): (s: Section)
    requires i < 6
    ensures s.Index() == i
  {
    if i == 0 then Near else if i == 1 then Far else if i == 2 then Left
    else if i == 3 then Right else if i == 4 then Top else Bottom
  }

  /** Every section is the section of its own slot. */
  lemma SectionRoundTrip(s: Section)
    ensures SectionOf(s.Index()) == s
  {
  }

  /** A projection whose last row is (0, 0, 0, 1) is treated as orthographic. */
  predicate IsOrthographic(proj: Mat4)
  {
    proj.At(3, 0) == 0.0 && proj.At(3, 1) == 0.0 && proj.At(3, 2) == 0.0 && proj.At(3, 3) == 1.0
  }

  /** `1 / proj(i, i)`. */
  function Rcp(proj: Mat4, i: nat): real
    requires i < 4 && proj.At(i, i) != 0.0
  {
    1.0 / proj.At(i, i)
  }

  /** The divisions of the extraction are defined: the three diagonal
      elements are non-zero, and in the perspective branch `rcpZZ + 1` is
      non-zero (which only the branch with `rcpZZ <= 0` can violate). The
      perspective planes also divide by `Sqrt(1 + rcpXX^2)`. */
  predicate CanExtract(sqrt: real -> real, proj: Mat4)
  {
    proj.At(0, 0) != 0.0 && proj.At(1, 1) != 0.0 && proj.At(2, 2) != 0.0 &&
    (IsOrthographic(proj) ||
     (Rcp(proj, 2) + 1.0 != 0.0 && Hypot1(sqrt, Rcp(proj, 0)) != 0.0))
  }

  /** The planes GenerateFromOrthographic writes, slot by slot. */
  function OrthographicPlanes(left: real, right: real, top: real, bottom: real,
                              front: real, back: real): seq<Plane>
  {
    [ PlaneFromCoefficients(0.0, 0.0, -1.0, -front),  // Near
      PlaneFromCoefficients(0.0, 0.0, 1.0, back),     // Far
      PlaneFromCoefficients(1.0, 0.0, 0.0, -left),    // Left
      PlaneFromCoefficients(-1.0, 0.0, 0.0, right),   // Right
      PlaneFromCoefficients(0.0, -1.0, 0.0, bottom),  // Top
      PlaneFromCoefficients(0.0, 1.0, 0.0, -top) ]    // Bottom
  }

  /** The planes GenerateFromPerspective writes, slot by slot. */
  function PerspectivePlanes(sqrt: real -> real, hTan: real, vTan: real,
                             zNear: real, zFar: real): seq<Plane>
    requires Hypot1(sqrt, hTan) != 0.0 && Hypot1(sqrt, vTan) != 0.0
  {
    var nHx := 1.0 / Hypot1(sqrt, hTan);
    var nHz := -nHx * hTan;
    var nVy := 1.0 / Hypot1(sqrt, vTan);
    var nVz := -nVy * vTan;
    [ PlaneFromCoefficients(0.0, 0.0, -1.0, -zNear),  // Near
      PlaneFromCoefficients(0.0, 0.0, 1.0, zFar),     // Far
      PlaneFromCoefficients(nHx, 0.0, nHz, 0.0),      // Left
      PlaneFromCoefficients(-nHx, 0.0, nHz, 0.0),     // Right
      PlaneFromCoefficients(0.0, -nVy, nVz, 0.0),     // Top
      PlaneFromCoefficients(0.0, nVy, nVz, 0.0) ]     // Bottom
  }

  /** The six bounds the orthographic branch reads off the matrix. */
  datatype OrthographicBounds = OrthographicBounds(left: real, right: real, top: real, bottom: real,
                                                   front: real, back: real)

  function Bounds(proj: Mat4): (b: OrthographicBounds)
    requires proj.At(0, 0) != 0.0 && proj.At(1, 1) != 0.0 && proj.At(2, 2) != 0.0
    ensures b.right - b.left == 2.0 * Rcp(proj, 0)
    ensures b.top - b.bottom == 2.0 * Rcp(proj, 1)
    ensures b.back - b.front == Rcp(proj, 2)
  {
    OrthographicBounds((-1.0 - proj.At(0, 3)) * Rcp(proj, 0), (1.0 - proj.At(0, 3)) * Rcp(proj, 0),
                       (1.0 - proj.At(1, 3)) * Rcp(proj, 1), (-1.0 - proj.At(1, 3)) * Rcp(proj, 1),
                       (0.0 - proj.At(2, 3)) * Rcp(proj, 2), (1.0 - proj.At(2, 3)) * Rcp(proj, 2))
  }

  /** The far clip of the perspective branch: `proj(2,3) * rcpZZ` when
      rcpZZ > 0, and that value divided by `rcpZZ + 1` otherwise. */
  function FarClip(proj: Mat4): real
    requires proj.At(2, 2) != 0.0 && Rcp(proj, 2) + 1.0 != 0.0
  {
    if Rcp(proj, 2) > 0.0 then proj.At(2, 3) * Rcp(proj, 2)
    else proj.At(2, 3) * Rcp(proj, 2) / (Rcp(proj, 2) + 1.0)
  }

  /** The near clip of the perspective branch: `farClip / (rcpZZ + 1)`
      when rcpZZ > 0, and `proj(2,3) * rcpZZ` otherwise. */
  function NearClip(proj: Mat4): real
    requires proj.At(2, 2) != 0.0 && Rcp(proj, 2) + 1.0 != 0.0
  {
    if Rcp(proj, 2) > 0.0 then proj.At(2, 3) * Rcp(proj, 2) / (Rcp(proj, 2) + 1.0)
    else proj.At(2, 3) * Rcp(proj, 2)
  }

  /** The six planes `Frustum(proj)` ends with: in the orthographic case the
      planes of the bounds with front and back put in increasing order, and
      in the perspective case the planes of GenerateFromPerspective called
      with rcpXX as both tangents, the far clip as zNear and the near clip as
      zFar. */
  function ProjectionPlanes(sqrt: real -> real, proj: Mat4): seq<Plane>
    requires CanExtract(sqrt, proj)
  {
    if IsOrthographic(proj) then
      var b := Bounds(proj);
      OrthographicPlanes(b.left, b.right, b.top, b.bottom, Min(b.front, b.back), Max(b.front, b.back))
    else
      PerspectivePlanes(sqrt, Rcp(proj, 0), Rcp(proj, 0), FarClip(proj), NearClip(proj))
  }

  class Frustum {
    /** `m_Planes`, one slot per Section. */
    const planes: array<Plane>

    ghost predicate Valid()
      reads this
    {
      planes.Length == 6
    }

    /** The planes in slot order. */
    ghost function Planes(): seq<Plane>
      reads this, planes
    {
      planes[..]
    }

    /** `Frustum{}`: six default planes. */
    constructor ()
      ensures Valid() && fresh(planes)
      ensures Planes() == [DefaultPlane, DefaultPlane, DefaultPlane, DefaultPlane, DefaultPlane, DefaultPlane]
    {
      planes := new Plane[6](_ => DefaultPlane);
    }

    /** `Frustum(proj)`: the planes of an orthographic or perspective
        projection, chosen by the last row of `proj`. */
    constructor FromProjection(sqrt: real -> real, proj: Mat4)
      requires CanExtract(sqrt, proj)
      ensures Valid() && fresh(planes)
      ensures Planes() == ProjectionPlanes(sqrt, proj)
    {
      planes := new Plane[6](_ => DefaultPlane);
      new;
      var rcpXX := 1.0 / proj.At(0, 0);
      var rcpYY := 1.0 / proj.At(1, 1);
      var rcpZZ := 1.0 / proj.At(2, 2);
      if proj.At(3, 0) == 0.0 && proj.At(3, 1) == 0.0 && proj.At(3, 2) == 0.0 && proj.At(3, 3) == 1.0 {
        var left := (-1.0 - proj.At(0, 3)) * rcpXX;
        var right := (1.0 - proj.At(0, 3)) * rcpXX;
        var top := (1.0 - proj.At(1, 3)) * rcpYY;
        var bottom := (-1.0 - proj.At(1, 3)) * rcpYY;
        var front := (0.0 - proj.At(2, 3)) * rcpZZ;
        var back := (1.0 - proj.At(2, 3)) * rcpZZ;
        assert Bounds(proj) == OrthographicBounds(left, right, top, bottom, front, back);
        if front < back {
          GenerateFromOrthographic(left, right, top, bottom, front, back);
        } else {
          GenerateFromOrthographic(left, right, top, bottom, back, front);
        }
      } else {
        if rcpZZ > 0.0 {
          var farClip := proj.At(2, 3) * rcpZZ;
          var nearClip := farClip / (rcpZZ + 1.0);
          assert rcpXX == Rcp(proj, 0) && farClip == FarClip(proj) && nearClip == NearClip(proj);
          GenerateFromPerspective(sqrt, rcpXX, rcpXX, farClip, nearClip);
        } else {
          var nearClip := proj.At(2, 3) * rcpZZ;
          var farClip := nearClip / (rcpZZ + 1.0);
          assert rcpXX == Rcp(proj, 0) && farClip == FarClip(proj) && nearClip == NearClip(proj);
          GenerateFromPerspective(sqrt, rcpXX, rcpXX, farClip, nearClip);
        }
      }
    }

    /** Replaces the plane of one section; the other five are kept. */
    method SetPlane(section: Section, plane: Plane)
      requires Valid()
      modifies planes
      ensures Planes() == old(Planes())[section.Index() := plane]
    {
      planes[section.Index()] := plane;
    }

    /** The plane of a section; every section has one. */
    function PlaneAt(section: Section): (p: Plane)
      requires Valid()
      reads this, planes
      ensures p == Planes()[section.Index()]
    {
      planes[section.Index()]
    }

    method GenerateFromPerspective(sqrt: real -> real, hTan: real, vTan: real, zNear: real, zFar: real)
      requires Valid()
      requires Hypot1(sqrt, hTan) != 0.0 && Hypot1(sqrt, vTan) != 0.0
      modifies planes
      ensures Planes() == PerspectivePlanes(sqrt, hTan, vTan, zNear, zFar)
    {
      var nHx := 1.0 / Hypot1(sqrt, hTan);
      var nHz := -nHx * hTan;
      var nVy := 1.0 / Hypot1(sqrt, vTan);
      var nVz := -nVy * vTan;
      planes[Near.Index()] := PlaneFromCoefficients(0.0, 0.0, -1.0, -zNear);
      planes[Far.Index()] := PlaneFromCoefficients(0.0, 0.0, 1.0, zFar);
      planes[Left.Index()] := PlaneFromCoefficients(nHx, 0.0, nHz, 0.0);
      planes[Right.Index()] := PlaneFromCoefficients(-nHx, 0.0, nHz, 0.0);
      planes[Top.Index()] := PlaneFromCoefficients(0.0, -nVy, nVz, 0.0);
      planes[Bottom.Index()] := PlaneFromCoefficients(0.0, nVy, nVz, 0.0);
      ghost var ps := PerspectivePlanes(sqrt, hTan, vTan, zNear, zFar);
      assert planes[2] == ps[2] && planes[3] == ps[3];
      assert planes[4] == ps[4] && planes[5] == ps[5];
    }

    method GenerateFromOrthographic(left: real, right: real, top: real, bottom: real,
                                    front: real, back: real)
      requires Valid()
      modifies planes
      ensures Planes() == OrthographicPlanes(left, right, top, bottom, front, back)
    {
      planes[Near.Index()] := PlaneFromCoefficients(0.0, 0.0, -1.0, -front);
      planes[Far.Index()] := PlaneFromCoefficients(0.0, 0.0, 1.0, back);
      planes[Left.Index()] := PlaneFromCoefficients(1.0, 0.0, 0.0, -left);
      planes[Right.Index()] := PlaneFromCoefficients(-1.0, 0.0, 0.0, right);
      planes[Top.Index()] := PlaneFromCoefficients(0.0, -1.0, 0.0, bottom);
      planes[Bottom.Index()] := PlaneFromCoefficients(0.0, 1.0, 0.0, -top);
    }
  }

  /** Reading back a section after SetPlane yields the new plane, and every
      other section still yields its old plane. */
  lemma SetPlaneThenPlaneAt(before: seq<Plane>, after: seq<Plane>, s: Section, t: Section, p: Plane)
    requires |before| == 6 && after == before[s.Index() := p]
    ensures after[s.Index()] == p
    ensures t != s ==> after[t.Index()] == before[t.Index()]
  {
    if t != s {
      SectionRoundTrip(s);
      SectionRoundTrip(t);
    }
  }

  /** What GenerateFromOrthographic produces: axis-aligned planes whose
      offsets are the bounds, with Top at offset `bottom` and Bottom at
      offset `-top` as the source places them. */
  lemma OrthographicShape(left: real, right: real, top: real, bottom: real, front: real, back: real)
    ensures
      var ps := OrthographicPlanes(left, right, top, bottom, front, back);
      |ps| == 6 &&
      ps[Near.Index()] == Plane(Vec3(0.0, 0.0, -1.0), -front) &&
      ps[Far.Index()] == Plane(Vec3(0.0, 0.0, 1.0), back) &&
      ps[Left.Index()] == Plane(Vec3(1.0, 0.0, 0.0), -left) &&
      ps[Right.Index()] == Plane(Vec3(-1.0, 0.0, 0.0), right) &&
      ps[Top.Index()] == Plane(Vec3(0.0, -1.0, 0.0), bottom) &&
      ps[Bottom.Index()] == Plane(Vec3(0.0, 1.0, 0.0), -top)
  {
  }

  /** The orthographic branch of `Frustum(proj)`: the near plane faces -z at
      offset `-min(front, back)` and the far plane faces +z at offset
      `max(front, back)`, whichever order the matrix gives them in; the
      other four planes carry the bounds as GenerateFromOrthographic places
      them. */
  lemma OrthographicExtraction(sqrt: real -> real, proj: Mat4)
    requires CanExtract(sqrt, proj) && IsOrthographic(proj)
    ensures
      var b := Bounds(proj);
      var ps := ProjectionPlanes(sqrt, proj);
      |ps| == 6 &&
      ps[Near.Index()] == Plane(Vec3(0.0, 0.0, -1.0), -Min(b.front, b.back)) &&
      ps[Far.Index()] == Plane(Vec3(0.0, 0.0, 1.0), Max(b.front, b.back)) &&
      ps[Left.Index()] == Plane(Vec3(1.0, 0.0, 0.0), -b.left) &&
      ps[Right.Index()] == Plane(Vec3(-1.0, 0.0, 0.0), b.right) &&
      ps[Top.Index()] == Plane(Vec3(0.0, -1.0, 0.0), b.bottom) &&
      ps[Bottom.Index()] == Plane(Vec3(0.0, 1.0, 0.0), -b.top)
  {
    var b := Bounds(proj);
    OrthographicShape(b.left, b.right, b.top, b.bottom, Min(b.front, b.back), Max(b.front, b.back));
  }

  /** The near and far planes of the orthographic branch face opposite ways:
      a point has non-negative signed distance to both exactly when its z
      lies between `-max(front, back)` and `-min(front, back)`. */
  lemma OrthographicDepthSlab(sqrt: real -> real, proj: Mat4, q: Vec3)
    requires CanExtract(sqrt, proj) && IsOrthographic(proj)
    ensures
      var b := Bounds(proj);
      var ps := ProjectionPlanes(sqrt, proj);
      |ps| == 6 &&
      ((0.0 <= SignedDistance(ps[Near.Index()], q) && 0.0 <= SignedDistance(ps[Far.Index()], q)) <==>
       -Max(b.front, b.back) <= q.z <= -Min(b.front, b.back))
  {
    OrthographicExtraction(sqrt, proj);
  }

  /** In the orthographic branch Top keeps the side `y <= bottom` and Bottom
      the side `y >= top`. When proj(1,1) > 0, top exceeds bottom and no
      point is on the non-negative side of both planes; when proj(1,1) < 0
      the points with `top <= y <= bottom` are. */
  lemma OrthographicTopBottom(sqrt: real -> real, proj: Mat4, q: Vec3)
    requires CanExtract(sqrt, proj) && IsOrthographic(proj)
    ensures
      var b := Bounds(proj);
      var ps := ProjectionPlanes(sqrt, proj);
      |ps| == 6 &&
      ((0.0 <= SignedDistance(ps[Top.Index()], q) && 0.0 <= SignedDistance(ps[Bottom.Index()], q)) <==>
       b.top <= q.y <= b.bottom) &&
      (0.0 < proj.At(1, 1) ==> b.bottom < b.top)
  {
    OrthographicExtraction(sqrt, proj);
    if 0.0 < proj.At(1, 1) {
      assert 0.0 < Rcp(proj, 1);
    }
  }

  /** What GenerateFromPerspective produces whatever its arguments: the near
      plane faces -z at offset -zNear, the far plane faces +z at offset
      zFar, the four side planes pass through the origin, Right mirrors
      Left in x, Bottom mirrors Top in y, and with equal tangents Left and
      Top share their z component. */
  lemma PerspectiveShape(sqrt: real -> real, hTan: real, vTan: real, zNear: real, zFar: real)
    requires Hypot1(sqrt, hTan) != 0.0 && Hypot1(sqrt, vTan) != 0.0
    ensures
      var ps := PerspectivePlanes(sqrt, hTan, vTan, zNear, zFar);
      |ps| == 6 &&
      ps[Near.Index()] == Plane(Vec3(0.0, 0.0, -1.0), -zNear) &&
      ps[Far.Index()] == Plane(Vec3(0.0, 0.0, 1.0), zFar) &&
      ps[Left.Index()].offset == 0.0 && ps[Right.Index()].offset == 0.0 &&
      ps[Top.Index()].offset == 0.0 && ps[Bottom.Index()].offset == 0.0 &&
      ps[Left.Index()].normal.y == 0.0 && ps[Top.Index()].normal.x == 0.0 &&
      ps[Right.Index()].normal == Vec3(-ps[Left.Index()].normal.x, ps[Left.Index()].normal.y, ps[Left.Index()].normal.z) &&
      ps[Bottom.Index()].normal == Vec3(ps[Top.Index()].normal.x, -ps[Top.Index()].normal.y, ps[Top.Index()].normal.z) &&
      (hTan == vTan ==> ps[Left.Index()].normal.z == ps[Top.Index()].normal.z)
  {
  }

  /** The perspective branch of `Frustum(proj)`: the near plane gets offset
      `-farClip` and the far plane offset `nearClip`, the side planes pass
      through the origin in mirrored pairs, and because both tangents are
      rcpXX, Left and Top share their z component. */
  lemma PerspectiveExtraction(sqrt: real -> real, proj: Mat4)
    requires CanExtract(sqrt, proj) && !IsOrthographic(proj)
    ensures
      var ps := ProjectionPlanes(sqrt, proj);
      |ps| == 6 &&
      ps[Near.Index()] == Plane(Vec3(0.0, 0.0, -1.0), -FarClip(proj)) &&
      ps[Far.Index()] == Plane(Vec3(0.0, 0.0, 1.0), NearClip(proj)) &&
      ps[Left.Index()].offset == 0.0 && ps[Right.Index()].offset == 0.0 &&
      ps[Top.Index()].offset == 0.0 && ps[Bottom.Index()].offset == 0.0 &&
      ps[Right.Index()].normal == Vec3(-ps[Left.Index()].normal.x, ps[Left.Index()].normal.y, ps[Left.Index()].normal.z) &&
      ps[Bottom.Index()].normal == Vec3(ps[Top.Index()].normal.x, -ps[Top.Index()].normal.y, ps[Top.Index()].normal.z) &&
      ps[Left.Index()].normal.z == ps[Top.Index()].normal.z
  {
    PerspectiveShape(sqrt, Rcp(proj, 0), Rcp(proj, 0), FarClip(proj), NearClip(proj));
  }

  /** The side normals `(k, 0, -k t)` and their mirrors have unit length when
      `k = 1 / s` and `s * s = 1 + t * t`. */
  lemma SideNormalUnit(k: real, s: real, t: real)
    requires k * s == 1.0 && s * s == 1.0 + t * t
    ensures Dot(Vec3(k, 0.0, -k * t), Vec3(k, 0.0, -k * t)) == 1.0
    ensures Dot(Vec3(-k, 0.0, -k * t), Vec3(-k, 0.0, -k * t)) == 1.0
    ensures Dot(Vec3(0.0, -k, -k * t), Vec3(0.0, -k, -k * t)) == 1.0
    ensures Dot(Vec3(0.0, k, -k * t), Vec3(0.0, k, -k * t)) == 1.0
  {
    assert Dot(Vec3(k, 0.0, -k * t), Vec3(k, 0.0, -k * t)) == k * k * (1.0 + t * t);
    assert Dot(Vec3(0.0, k, -k * t), Vec3(0.0, k, -k * t)) == k * k * (1.0 + t * t);
    ReciprocalSquare(k, s, 1.0 + t * t);
  }

  /** With a square root that obeys its law, every plane GenerateFromPerspective
      writes has a unit normal, so its signed distances are true distances. */
  lemma PerspectiveUnitNormals(sqrt: real -> real, hTan: real, vTan: real, zNear: real, zFar: real)
    requires SqrtLaw(sqrt)
    ensures Hypot1(sqrt, hTan) != 0.0 && Hypot1(sqrt, vTan) != 0.0
    ensures forall p | p in PerspectivePlanes(sqrt, hTan, vTan, zNear, zFar) :: UnitNormal(p)
  {
    OnePlusSquarePositive(hTan);
    OnePlusSquarePositive(vTan);
    var sh := Hypot1(sqrt, hTan);
    var sv := Hypot1(sqrt, vTan);
    assert 0.0 < sh && sh * sh == 1.0 + hTan * hTan;
    assert 0.0 < sv && sv * sv == 1.0 + vTan * vTan;
    assert (1.0 / sh) * sh == 1.0;
    assert (1.0 / sv) * sv == 1.0;
    SideNormalUnit(1.0 / sh, sh, hTan);
    SideNormalUnit(1.0 / sv, sv, vTan);
  }
}
