# Hawk view-frustum culling kernel, in Dafny

This project models the geometry kernel in
`VolumeRender/3rdParty/Hawk/Math/Geometry.hpp`. The kernel covers:

- the value types `Plane`, `Ray`, `Sphere` and `Box`, with their constructors, setters and accessors;
- the `Frustum`, which holds six planes in a fixed array `m_Planes[6]` indexed by the sections `Near, Far, Left, Right, Top, Bottom`;
- the `Frustum(proj)` constructor, which fills that array in closed form from a projection matrix, with an orthographic branch and a perspective branch;
- the two culling tests `Intersects(Frustum, Sphere)` and `Intersects(Frustum, Box)`, the latter being the "positive vertex" test;
- the five `operator*` transforms that apply a 4x4 matrix to each primitive.

Files, one module each:

- `reals.dfy` (`Reals`): small facts of real arithmetic the proofs are built from.
- `vectors.dfy` (`Vectors`): the vector and matrix vocabulary, that is `Vec3`, `Vec4`, `Mat4`, `Dot`, `Cross`, `Transpose`, matrix-vector product, `Max`/`Min`, and `Normalize` over a square root that is passed in.
- `primitives.dfy` (`Primitives`): `Plane`, `Ray`, `Sphere` and `Box`.
- `frustum.dfy` (`Frustums`):
  - the `Section` enumeration;
  - the class `Frustum` over `array<Plane>`, with `SetPlane`, `Plane` (named `PlaneAt`), `GenerateFromPerspective`, `GenerateFromOrthographic` and the two constructors;
  - the closed forms of the extracted planes and the properties of each branch.
- `intersection.dfy` (`Intersection`):
  - the two culling loops, proved against the predicates `SphereVisible` and `BoxVisible`;
  - lemmas about what those predicates mean.
- `transform.dfy` (`Transforms`): the matrix transforms.

`F32` is modelled as `real`. `Sqrt` and `Inverse` come from `Hawk/Math/Functions.hpp`, which is not part of this model. Each is passed in as a function parameter:

- `sqrt: real -> real`, and where a property needs it, `SqrtLaw(sqrt)`: on positive arguments the root is positive and squares back to its argument;
- `inverse: Mat4 -> Mat4`.

The value types are C++ classes with value semantics: they are copied on assignment, stored by value in `m_Planes`, and never shared. Each is therefore a Dafny `datatype`. A setter such as `p.SetOffset(d)` becomes the value `p.SetOffset(d)` that replaces `p`.

`Frustum` owns mutable storage written in place, so it is a `class`:

- its array `planes` has length 6;
- its methods `modifies planes`;
- their postconditions state the whole new array contents (`Planes()`) as a function of the old contents or of the arguments.

## Notes on the source

The model keeps the following behaviours of the code exactly as written.

- **Both tangents are rcpXX.** Lines 231 and 235 pass `rcpXX` for both `hTan` and `vTan`, so the vertical planes use the horizontal scale. `Frustums.PerspectiveExtraction` proves a consequence: the Left and Top normals share their z component.
- **Far and near clips are swapped.** The same two lines pass `(farClip, nearClip)` into the parameters `(zNear, zFar)`. So the Near plane gets offset `-farClip` and the Far plane gets offset `nearClip`. `Frustums.ProjectionPlanes` and `Frustums.PerspectiveExtraction` say so.
- **Top and Bottom offsets.** Lines 299-300 give the Top plane (normal `(0,-1,0)`) the offset `bottom` and the Bottom plane (normal `(0,1,0)`) the offset `-top`.
  - So Top keeps `y <= bottom`, Bottom keeps `y >= top`, and for `proj(1,1) > 0` we have `bottom < top`.
  - `Frustums.OrthographicTopBottom` proves that then no point lies on the non-negative side of both planes.
  - `Intersection.OrthographicRejectsSmallSpheres` proves that every sphere with radius up to `1/proj(1,1)` is culled by such a frustum.
  - Whether this is intended depends on the matrix convention of the callers, which are not part of this model. It is recorded here rather than as a defect.
- **The box test is strict, the sphere test is not.** A sphere touching a plane from outside is culled (`<=`). A box reduced to a point on a plane is kept (`<`). `Intersection.DegenerateBoxNotRejected` shows both at the same point.
- **The box transform does not re-order corners.** It maps the two corners independently, so a mirror produces a box whose min corner exceeds its max corner (`Transforms.TransformBoxKeepsCornerRoles`).

## Model

| member | source | states |
|---|---|---|
| Primitives.Plane.SetNormal | VolumeRender/3rdParty/Hawk/Math/Geometry.hpp:119-121 | the normal becomes the argument and the offset is kept |
| Primitives.Plane.SetOffset | VolumeRender/3rdParty/Hawk/Math/Geometry.hpp:123-125 | the offset becomes the argument and the normal is kept |
| Primitives.PlaneFromVec4 | VolumeRender/3rdParty/Hawk/Math/Geometry.hpp:110 | `Plane(Vec4 v)` packs back to `v`: normal `(v.x, v.y, v.z)`, offset `v.w` |
| Primitives.PlaneFromCoefficients | VolumeRender/3rdParty/Hawk/Math/Geometry.hpp:112 | `Plane(a, b, c, d)` is the plane of the 4-vector `(a, b, c, d)`, i.e. `Plane(Vec3(a, b, c), d)` |
| Primitives.PlaneVec4RoundTrip | VolumeRender/3rdParty/Hawk/Math/Geometry.hpp:110 | unpacking a plane from its 4-vector and packing it again are inverse in both orders |
| Primitives.PlaneFromPoints | VolumeRender/3rdParty/Hawk/Math/Geometry.hpp:114-117 | for non-collinear points and a lawful square root, the plane passes through a, b and c, its normal is orthogonal to both edges and has unit length |
| Vectors.NormalizeUnitMultiple | VolumeRender/3rdParty/Hawk/Math/Geometry.hpp:115 | Normalize scales a non-zero vector by a positive factor and yields unit length |
| Primitives.DefaultValues | VolumeRender/3rdParty/Hawk/Math/Geometry.hpp:10-73 | default Plane has normal (0,1,0) and offset 0; default Ray starts at the origin along +y; default Sphere is the unit sphere at the origin; default Box has both corners at the origin |
| Primitives.Ray.SetPosition | VolumeRender/3rdParty/Hawk/Math/Geometry.hpp:137-139 | the position becomes the argument and the direction is kept |
| Primitives.Ray.SetDirection | VolumeRender/3rdParty/Hawk/Math/Geometry.hpp:141-143 | the direction becomes the argument and the position is kept |
| Primitives.Sphere.SetCenter | VolumeRender/3rdParty/Hawk/Math/Geometry.hpp:158-160 | the center becomes the argument and the radius is kept |
| Primitives.Sphere.SetCenterCoords | VolumeRender/3rdParty/Hawk/Math/Geometry.hpp:162-164 | `SetCenter(x, y, z)` equals `SetCenter(Vec3(x, y, z))` |
| Primitives.Sphere.SetRadius | VolumeRender/3rdParty/Hawk/Math/Geometry.hpp:166-168 | the radius becomes the argument and the center is kept |
| Primitives.SphereFromCoords | VolumeRender/3rdParty/Hawk/Math/Geometry.hpp:156 | `Sphere(x, y, z, radius)` is the sphere with center `(x, y, z)` and that radius |
| Primitives.Box.SetMinExtends | VolumeRender/3rdParty/Hawk/Math/Geometry.hpp:180-182 | the min corner becomes the argument and the max corner is kept |
| Primitives.Box.SetMaxExtends | VolumeRender/3rdParty/Hawk/Math/Geometry.hpp:184-186 | the max corner becomes the argument and the min corner is kept |
| Primitives.Box.SetMinExtendsCoords | VolumeRender/3rdParty/Hawk/Math/Geometry.hpp:188-190 | `SetMinExtends(x, y, z)` equals `SetMinExtends(Vec3(x, y, z))` |
| Primitives.Box.SetMaxExtendsCoords | VolumeRender/3rdParty/Hawk/Math/Geometry.hpp:192-194 | `SetMaxExtends(x, y, z)` equals `SetMaxExtends(Vec3(x, y, z))` |
| Frustums.Section.Index | VolumeRender/3rdParty/Hawk/Math/Geometry.hpp:77 | every section has a slot below 6 |
| Frustums.SectionOf | VolumeRender/3rdParty/Hawk/Math/Geometry.hpp:252 | the cast of slot i to a section names that slot |
| Frustums.SectionRoundTrip | VolumeRender/3rdParty/Hawk/Math/Geometry.hpp:77 | a section and its slot number convert back to the same section |
| Frustums.Frustum.constructor | VolumeRender/3rdParty/Hawk/Math/Geometry.hpp:79 | `Frustum{}` holds six default planes in fresh storage |
| Frustums.Bounds | VolumeRender/3rdParty/Hawk/Math/Geometry.hpp:215-220 | the orthographic bounds span `2 rcpXX` in x and `2 rcpYY` in y, with `back - front == rcpZZ` |
| Frustums.Frustum.FromProjection | VolumeRender/3rdParty/Hawk/Math/Geometry.hpp:205-238 | the planes are those of the branch chosen by the last row: the orthographic planes with front/back ordered, or the perspective planes with rcpXX twice and far/near clips as the sign of rcpZZ selects |
| Frustums.Frustum.SetPlane | VolumeRender/3rdParty/Hawk/Math/Geometry.hpp:240-242 | only the slot of the section changes, to the given plane |
| Frustums.Frustum.PlaneAt | VolumeRender/3rdParty/Hawk/Math/Geometry.hpp:244-246 | every section yields the plane in its slot |
| Frustums.SetPlaneThenPlaneAt | VolumeRender/3rdParty/Hawk/Math/Geometry.hpp:240-246 | after SetPlane(s, p), section s reads p and every other section reads its old plane |
| Frustums.Frustum.GenerateFromPerspective | VolumeRender/3rdParty/Hawk/Math/Geometry.hpp:272-292 | the array holds exactly the six perspective planes of the arguments |
| Frustums.Frustum.GenerateFromOrthographic | VolumeRender/3rdParty/Hawk/Math/Geometry.hpp:294-302 | the array holds exactly the six orthographic planes of the arguments |
| Frustums.OrthographicShape | VolumeRender/3rdParty/Hawk/Math/Geometry.hpp:294-301 | the six axis-aligned planes with offsets -front, back, -left, right, bottom (Top) and -top (Bottom) |
| Frustums.OrthographicExtraction | VolumeRender/3rdParty/Hawk/Math/Geometry.hpp:213-225 | the orthographic branch gives Near `(0,0,-1)` at `-min(front,back)`, Far `(0,0,1)` at `max(front,back)`, Left `(1,0,0,-left)`, Right `(-1,0,0,right)`, Top `(0,-1,0,bottom)`, Bottom `(0,1,0,-top)` |
| Frustums.OrthographicDepthSlab | VolumeRender/3rdParty/Hawk/Math/Geometry.hpp:219-225 | a point is on the non-negative side of both Near and Far iff its z lies between `-max(front,back)` and `-min(front,back)` |
| Frustums.OrthographicTopBottom | VolumeRender/3rdParty/Hawk/Math/Geometry.hpp:299-300 | a point is on the non-negative side of both Top and Bottom iff `top <= y <= bottom`, and `bottom < top` when proj(1,1) > 0 |
| Frustums.PerspectiveShape | VolumeRender/3rdParty/Hawk/Math/Geometry.hpp:279-290 | Near/Far face -z/+z at -zNear/zFar, the side planes pass through the origin, Right mirrors Left in x and Bottom mirrors Top in y, and equal tangents give Left and Top the same z |
| Frustums.PerspectiveExtraction | VolumeRender/3rdParty/Hawk/Math/Geometry.hpp:226-236 | the perspective branch gives Near offset `-farClip`, Far offset `nearClip`, zero side offsets, mirrored side normals, and a shared z component for Left and Top |
| Frustums.PerspectiveUnitNormals | VolumeRender/3rdParty/Hawk/Math/Geometry.hpp:280-290 | with a lawful square root the divisions are defined and every perspective plane has a unit normal |
| Intersection.IntersectsSphere | VolumeRender/3rdParty/Hawk/Math/Geometry.hpp:249-258 | false iff some plane i in 0..5 has `Dot(n_i, center) + off_i <= -radius` |
| Intersection.IntersectsBox | VolumeRender/3rdParty/Hawk/Math/Geometry.hpp:260-271 | false iff some plane has `sum over axes of max(min_a n_a, max_a n_a) + off < 0` |
| Intersection.SphereVisiblePermutation | VolumeRender/3rdParty/Hawk/Math/Geometry.hpp:251-256 | the sphere verdict does not depend on the order of the planes, so not on which rejecting plane is met first |
| Intersection.BoxVisiblePermutation | VolumeRender/3rdParty/Hawk/Math/Geometry.hpp:262-269 | the box verdict does not depend on the order of the planes |
| Intersection.TouchingSphereRejected | VolumeRender/3rdParty/Hawk/Math/Geometry.hpp:253 | a sphere whose center is exactly `radius` behind a plane is rejected |
| Intersection.SphereRejectionSound | VolumeRender/3rdParty/Hawk/Math/Geometry.hpp:253 | for a unit normal, a plane that rejects a sphere has every point of the sphere on its non-positive side |
| Intersection.AxisBound | VolumeRender/3rdParty/Hawk/Math/Geometry.hpp:264-266 | on one axis, any coordinate between the extents or equal to one of them gives a product at most the per-axis maximum |
| Intersection.AxisVertex | VolumeRender/3rdParty/Hawk/Math/Geometry.hpp:264-266 | the per-axis maximum is attained by the extent with the larger product |
| Intersection.SupportBoundsPoint | VolumeRender/3rdParty/Hawk/Math/Geometry.hpp:264-266 | the per-axis maximum sum bounds `Dot(n, q)` for every point and every corner q of the box |
| Intersection.SupportIsMaxOverCorners | VolumeRender/3rdParty/Hawk/Math/Geometry.hpp:264-266 | the per-axis maximum sum is the maximum of `Dot(n, corner)` over the eight corners: it bounds all and the positive vertex attains it |
| Intersection.BoxRejectionSound | VolumeRender/3rdParty/Hawk/Math/Geometry.hpp:264-268 | a plane that rejects a box has every point and corner of the box strictly on its negative side |
| Intersection.BoxWithInsidePointVisible | VolumeRender/3rdParty/Hawk/Math/Geometry.hpp:260-271 | a box with a point on the non-negative side of every plane is never culled |
| Intersection.DegenerateBoxNotRejected | VolumeRender/3rdParty/Hawk/Math/Geometry.hpp:267 | a box with min == max == p on a plane is kept by that plane, while the radius-0 sphere at p is rejected |
| Intersection.OrthographicRejectsSmallSpheres | VolumeRender/3rdParty/Hawk/Math/Geometry.hpp:299-300 | with proj(1,1) > 0, the orthographic frustum culls every sphere of radius at most `1/proj(1,1)` |
| Transforms.MovePoint | VolumeRender/3rdParty/Hawk/Math/Geometry.hpp:311 | a point is moved as `Vec4(v, 1)` and cut back to its first three components |
| Transforms.TransformPlane | VolumeRender/3rdParty/Hawk/Math/Geometry.hpp:304-306 | the plane's packed coefficients are multiplied by `Transpose(Inverse(lhs))` |
| Transforms.TransformRay | VolumeRender/3rdParty/Hawk/Math/Geometry.hpp:307-309 | the result is the default ray: position (0,0,0), direction (0,1,0) |
| Transforms.TransformSphere | VolumeRender/3rdParty/Hawk/Math/Geometry.hpp:310-313 | the radius is unchanged and the center is moved as a point with w == 1 |
| Transforms.TransformBox | VolumeRender/3rdParty/Hawk/Math/Geometry.hpp:314-318 | the min and max corners are each moved as a point with w == 1 |
| Transforms.TransformPlanes | VolumeRender/3rdParty/Hawk/Math/Geometry.hpp:321-327 | the same number of planes, plane i transformed into slot i |
| Transforms.TransformFrustum | VolumeRender/3rdParty/Hawk/Math/Geometry.hpp:319-328 | a fresh frustum whose planes keep their order, each the input plane at the same index transformed |
| Transforms.MovePointIdentity | VolumeRender/3rdParty/Hawk/Math/Geometry.hpp:311 | the identity moves no point |
| Transforms.MovePointTranslation | VolumeRender/3rdParty/Hawk/Math/Geometry.hpp:311 | a translation matrix moves a point by its offset |
| Transforms.TransformSphereTranslation | VolumeRender/3rdParty/Hawk/Math/Geometry.hpp:310-313 | a translated sphere has its center moved and its radius kept; the identity leaves it unchanged |
| Transforms.TransformBoxTranslation | VolumeRender/3rdParty/Hawk/Math/Geometry.hpp:314-318 | a translated box has both corners moved; the identity leaves it unchanged |
| Transforms.TransformBoxKeepsCornerRoles | VolumeRender/3rdParty/Hawk/Math/Geometry.hpp:314-318 | the corners are not re-sorted: mirroring x turns min.x < max.x into min.x > max.x |
| Transforms.TransformPlaneIdentity | VolumeRender/3rdParty/Hawk/Math/Geometry.hpp:304-306 | when Inverse maps the identity to itself, the identity transform leaves every plane and every plane sequence unchanged |
| Transforms.TransformRayConstant | VolumeRender/3rdParty/Hawk/Math/Geometry.hpp:307-309 | the ray transform gives the same result for every matrix and every ray |

## Left out

- Floating-point rounding, NaN and infinity: `F32` is `real`. Divisions carry preconditions that their divisor is non-zero: `proj(0,0)`, `proj(1,1)`, `proj(2,2)`, and `rcpZZ + 1` in the perspective branch. The code's behaviour on degenerate input is not modelled.
- `Hawk/Math/Functions.hpp` is not part of this model.
  - `Sqrt` and `Inverse` are function parameters.
  - `Normalize` is defined as division by the square root of `Dot(v, v)`.
  - `Dot`, `Cross`, `Transpose`, `Max`, `Min` and the matrix-vector product are defined concretely, with their usual meaning.
- Frustums.Frustum.FromProjection: also requires `Sqrt(1 + rcpXX^2) != 0` in the perspective branch. The source divides by it without a check. Since the square root is a parameter, the requirement is stated. `Frustums.PerspectiveUnitNormals` proves it for every square root that obeys `SqrtLaw`.
- In-place update of the value types: `SetNormal`, `SetRadius` and the other setters return the updated value instead of changing a variable. These types are copied and never shared, so no aliasing is lost.
- The accessors `Normal()`, `Offset()`, `Center()`, `Radius()`, `Position()`, `Direction()`, `MinExtends()` and `MaxExtends()` are the datatype fields themselves.
- The locals `nearX`, `nearY`, `farX` and `farY` of `GenerateFromPerspective` (lines 274-277) are computed and never used, so they are not modelled.
- Incidence under the plane transform: that `Transpose(Inverse(M))` maps a plane through q to a plane through `M q` is not proved. `Inverse` is abstract here.
- Any geometric claim the code does not make, such as inward-facing side normals or a match with a camera's field of view. The perspective call passes duplicated and swapped arguments, and such claims would not hold.
- The ray transform is a stub in the source and is modelled as that stub.
- `constexpr`, `ILINE`, `[[nodiscard]]` and `noexcept` have no counterpart.
