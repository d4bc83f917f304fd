/** The vector and matrix vocabulary the geometry kernel uses: 3- and
    4-component vectors of reals (F32 is modelled as `real`), a 4x4 matrix
    addressed by (row, col), dot and cross products, matrix-vector product,
    transpose, Max/Min, and normalisation over a square root that is passed
    in, since the library that computes it is not part of this model. */
module Vectors {
  import opened Reals

  datatype Vec3 = Vec3(x: real, y: real, z: real)

  datatype Vec4 = Vec4(x: real, y: real, z: real, w: real) {
    /** Component i, in the order x, y, z, w. */
    function At(i: nat): real
      requires i < 4
    {
      if i == 0 then x else if i == 1 then y else if i == 2 then z else w
    }
  }

  /** A 4x4 matrix stored row by row. */
  datatype Mat4 = Mat4(row0: Vec4, row1: Vec4, row2: Vec4, row3: Vec4) {
    function Row(i: nat): Vec4
      requires i < 4
    {
      if i == 0 then row0 else if i == 1 then row1 else if i == 2 then row2 else row3
    }

    /** The element `m(row, col)`. */
    function At(row: nat, col: nat): real
      requires row < 4 && col < 4
    {
      Row(row).At(col)
    }
  }

  const Zero3 := Vec3(0.0, 0.0, 0.0)

  function Add(a: Vec3, b: Vec3): Vec3 { Vec3(a.x + b.x, a.y + b.y, a.z + b.z) }

  function Sub(a: Vec3, b: Vec3): Vec3 { Vec3(a.x - b.x, a.y - b.y, a.z - b.z) }

  function Scale(k: real, v: Vec3): Vec3 { Vec3(k * v.x, k * v.y, k * v.z) }

  function Dot(a: Vec3, b: Vec3): real { a.x * b.x + a.y * b.y + a.z * b.z }

  function Cross(a: Vec3, b: Vec3): Vec3
  {
    Vec3(a.y * b.z - a.z * b.y, a.z * b.x - a.x * b.z, a.x * b.y - a.y * b.x)
  }

  function Dot4(a: Vec4, b: Vec4): real { a.x * b.x + a.y * b.y + a.z * b.z + a.w * b.w }

  /** `Vec4(v, w)`: a 3-vector extended by a fourth component. */
  function Extend(v: Vec3, w: real): Vec4 { Vec4(v.x, v.y, v.z, w) }

  /** `Vec3(v.x, v.y, v.z)`: the first three components of a 4-vector. */
  function Truncate(v: Vec4): Vec3 { Vec3(v.x, v.y, v.z) }

  function Column(m: Mat4, j: nat): Vec4
    requires j < 4
  {
    Vec4(m.row0.At(j), m.row1.At(j), m.row2.At(j), m.row3.At(j))
  }

  function Transpose(m: Mat4): (t: Mat4)
    ensures forall i: nat, j: nat :: i < 4 && j < 4 ==> t.At(i, j) == m.At(j, i)
  {
    Mat4(Column(m, 0), Column(m, 1), Column(m, 2), Column(m, 3))
  }

  /** `m * v`: component i of the result is row i of `m` dotted with `v`. */
  function MulVec(m: Mat4, v: Vec4): (r: Vec4)
    ensures forall i: nat :: i < 4 ==> r.At(i) == Dot4(m.Row(i), v)
  {
    Vec4(Dot4(m.row0, v), Dot4(m.row1, v), Dot4(m.row2, v), Dot4(m.row3, v))
  }

  function Identity(): Mat4
  {
    Mat4(Vec4(1.0, 0.0, 0.0, 0.0), Vec4(0.0, 1.0, 0.0, 0.0),
         Vec4(0.0, 0.0, 1.0, 0.0), Vec4(0.0, 0.0, 0.0, 1.0))
  }

  function Max(a: real, b: real): (r: real)
    ensures a <= r && b <= r && (r == a || r == b)
  {
    if a >= b then a else b
  }

  function Min(a: real, b: real): (r: real)
    ensures r <= a && r <= b && (r == a || r == b)
  {
    if a <= b then a else b
  }

  /** What the kernel relies on of the library's square root: on positive
      arguments it is positive and squares back to its argument. */
  ghost predicate SqrtLaw(sqrt: real -> real)
  {
    forall x: real :: 0.0 < x ==> 0.0 < sqrt(x) && sqrt(x) * sqrt(x) == x
  }

  /** `Sqrt(1 + t * t)`, the length of the vector (1, t). */
  function Hypot1(sqrt: real -> real, t: real): real { sqrt(1.0 + t * t) }

  /** `v` divided by its length. */
  function Normalize(sqrt: real -> real, v: Vec3): Vec3
    requires sqrt(Dot(v, v)) != 0.0
  {
    Scale(1.0 / sqrt(Dot(v, v)), v)
  }

  lemma DotScaleLeft(k: real, a: Vec3, b: Vec3)
    ensures Dot(Scale(k, a), b) == k * Dot(a, b)
  {
  }

  lemma DotSubRight(a: Vec3, b: Vec3, c: Vec3)
    ensures Dot(a, Sub(b, c)) == Dot(a, b) - Dot(a, c)
  {
  }

  /** The cross product is orthogonal to both of its arguments. */
  lemma CrossOrthogonal(a: Vec3, b: Vec3)
    ensures Dot(Cross(a, b), a) == 0.0 && Dot(Cross(a, b), b) == 0.0
  {
  }

  /** Normalize scales a vector of positive length by a positive factor,
      and the result has unit length. */
  lemma NormalizeUnitMultiple(sqrt: real -> real, v: Vec3)
    requires SqrtLaw(sqrt) && 0.0 < Dot(v, v)
    ensures 0.0 < sqrt(Dot(v, v))
    ensures 0.0 < 1.0 / sqrt(Dot(v, v)) && Normalize(sqrt, v) == Scale(1.0 / sqrt(Dot(v, v)), v)
    ensures Dot(Normalize(sqrt, v), Normalize(sqrt, v)) == 1.0
  {
    var d := Dot(v, v);
    var s := sqrt(d);
    var k := 1.0 / s;
    assert 0.0 < s && s * s == d;
    assert k * s == 1.0;
    DotScaleLeft(k, v, Scale(k, v));
    DotScaleLeft(k, v, v);
    assert Dot(v, Scale(k, v)) == k * d;
    ReciprocalSquare(k, s, d);
  }

  /** Lagrange's identity: `|a|^2 |b|^2 - (a . b)^2 == |a x b|^2`. */
  lemma LagrangeIdentity(a: Vec3, b: Vec3)
    ensures Dot(a, a) * Dot(b, b) - Dot(a, b) * Dot(a, b) == Dot(Cross(a, b), Cross(a, b))
  {
  }

  lemma IdentityNeutral(v: Vec4)
    ensures MulVec(Identity(), v) == v && Transpose(Identity()) == Identity()
  {
  }
}
