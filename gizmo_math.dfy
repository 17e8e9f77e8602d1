/** The exactly-rational geometry helpers of the rotation gizmo: vectors and
    column-major 4x4 matrices over `real`, ray/plane intersection, the
    linear part of a transform, and the clip -> NDC -> screen mapping.
    Single-precision `float` is modelled by `real`; rounding is not modelled. */
module GizmoMath {

  /** FLT_EPSILON, 2^-23. The proofs below only use that it is positive. */
  const FltEpsilon: real := 1.0 / 8388608.0

  datatype Vec2 = Vec2(x: real, y: real)
  datatype Vec3 = Vec3(x: real, y: real, z: real)
  datatype Vec4 = Vec4(x: real, y: real, z: real, w: real)

  /** A matrix stored as its four columns, as GLM does: `m[c][r]` is `m.c<c>.<r>`. */
  datatype Mat4 = Mat4(c0: Vec4, c1: Vec4, c2: Vec4, c3: Vec4)

  function Abs(x: real): real { if x < 0.0 then -x else x }

  function Xyz(v: Vec4): Vec3 { Vec3(v.x, v.y, v.z) }

  function Point(p: Vec3): Vec4 { Vec4(p.x, p.y, p.z, 1.0) }

  function Direction(p: Vec3): Vec4 { Vec4(p.x, p.y, p.z, 0.0) }

  function Add(a: Vec4, b: Vec4): Vec4 { Vec4(a.x + b.x, a.y + b.y, a.z + b.z, a.w + b.w) }

  function Sub(a: Vec4, b: Vec4): Vec4 { Vec4(a.x - b.x, a.y - b.y, a.z - b.z, a.w - b.w) }

  function Scale(a: Vec4, k: real): Vec4 { Vec4(a.x * k, a.y * k, a.z * k, a.w * k) }

  /** `glm::dot` of the xyz parts. */
  function Dot3(a: Vec4, b: Vec4): real { a.x * b.x + a.y * b.y + a.z * b.z }

  /** `glm::dot` of two vec4. */
  function Dot4(a: Vec4, b: Vec4): real { a.x * b.x + a.y * b.y + a.z * b.z + a.w * b.w }

  function Cross(a: Vec3, b: Vec3): Vec3
  {
    Vec3(a.y * b.z - a.z * b.y, a.z * b.x - a.x * b.z, a.x * b.y - a.y * b.x)
  }

  /** Component `k` of a vec4, as `v[k]`. */
  function Component(v: Vec4, k: nat): real
    requires k < 4
  {
    if k == 0 then v.x else if k == 1 then v.y else if k == 2 then v.z else v.w
  }

  /** The matrix-vector product `m * v`: the columns weighted by the components of v. */
  function MulVec(m: Mat4, v: Vec4): Vec4
  {
    Add(Add(Scale(m.c0, v.x), Scale(m.c1, v.y)), Add(Scale(m.c2, v.z), Scale(m.c3, v.w)))
  }

  /** The matrix product `a * b`, column by column. */
  function MatMul(a: Mat4, b: Mat4): Mat4
  {
    Mat4(MulVec(a, b.c0), MulVec(a, b.c1), MulVec(a, b.c2), MulVec(a, b.c3))
  }

  /** `glm::clamp(x, lo, hi)`, that is `min(max(x, lo), hi)`. */
  function Clamp(x: real, lo: real, hi: real): (r: real)
    requires lo <= hi
    ensures lo <= r <= hi
    ensures lo <= x <= hi ==> r == x
    ensures x < lo ==> r == lo
    ensures hi < x ==> r == hi
  {
    var m := if x < lo then lo else x;
    if hi < m then hi else m
  }

  // ---------------------------------------------------------------------
  // IntersectRayPlane

  /** The ray parameter at which `origin + t * dir` meets the plane
      `plan.xyz . p == plan.w`, or the sentinel -1 when the ray is (nearly)
      parallel to the plane. */
  function IntersectRayPlane(origin: Vec4, dir: Vec4, plan: Vec4): (t: real)
    ensures Abs(Dot3(plan, dir)) < FltEpsilon ==> t == -1.0
    ensures Abs(Dot3(plan, dir)) >= FltEpsilon ==> t * Dot3(plan, dir) == plan.w - Dot3(plan, origin)
  {
    var numer := Dot3(plan, origin) - plan.w;
    var denom := Dot3(plan, dir);
    if Abs(denom) < FltEpsilon then
      -1.0
    else
      -(numer / denom)
  }

  /** The dot product with a point of a ray is affine in the ray parameter. */
  lemma DotAlongRay(n: Vec4, origin: Vec4, dir: Vec4, t: real)
    ensures Dot3(n, Add(origin, Scale(dir, t))) == Dot3(n, origin) + t * Dot3(n, dir)
  {
  }

  /** A (nearly) parallel ray gets the sentinel; any other ray gets the
      parameter of a point on the plane. */
  lemma IntersectionIsOnPlane(origin: Vec4, dir: Vec4, plan: Vec4)
    ensures var t := IntersectRayPlane(origin, dir, plan);
            && (Abs(Dot3(plan, dir)) < FltEpsilon ==> t == -1.0)
            && (Abs(Dot3(plan, dir)) >= FltEpsilon ==> Dot3(plan, Add(origin, Scale(dir, t))) == plan.w)
  {
    DotAlongRay(plan, origin, dir, IntersectRayPlane(origin, dir, plan));
  }

  /** When the ray is not parallel to the plane, the returned parameter is the
      only one whose point lies on the plane. */
  lemma IntersectionIsUnique(origin: Vec4, dir: Vec4, plan: Vec4, t: real)
    requires Abs(Dot3(plan, dir)) >= FltEpsilon
    ensures Dot3(plan, Add(origin, Scale(dir, t))) == plan.w <==> t == IntersectRayPlane(origin, dir, plan)
  {
    DotAlongRay(plan, origin, dir, t);
    var d := Dot3(plan, dir);
    assert d != 0.0;
    if Dot3(plan, Add(origin, Scale(dir, t))) == plan.w {
      assert t * d == plan.w - Dot3(plan, origin);
      assert t == (plan.w - Dot3(plan, origin)) / d;
    }
  }

  // ---------------------------------------------------------------------
  // TransformVector

  /** Applies the scale and rotation of `matrix` to `v`: the xyz of `v` weight
      columns 0..2; `v.w` and column 3 play no part. */
  function TransformVector(matrix: Mat4, v: Vec4): (r: Vec4)
    ensures r == MulVec(matrix, Direction(Xyz(v)))
  {
    var x, y, z := v.x, v.y, v.z;
    Vec4(x * matrix.c0.x + y * matrix.c1.x + z * matrix.c2.x,
         x * matrix.c0.y + y * matrix.c1.y + z * matrix.c2.y,
         x * matrix.c0.z + y * matrix.c1.z + z * matrix.c2.z,
         x * matrix.c0.w + y * matrix.c1.w + z * matrix.c2.w)
  }

  /** The translation column and the w of the input never reach the result. */
  lemma TransformVectorIgnoresTranslation(matrix: Mat4, v: Vec4, column3: Vec4, w: real)
    ensures TransformVector(matrix.(c3 := column3), v.(w := w)) == TransformVector(matrix, v)
  {
  }

  // ---------------------------------------------------------------------
  // worldToScreen, and the mouse mapping of ComputeCameraRay

  /** NDC [-1,1] to window pixels, with y flipped (pixel rows grow downwards). */
  function NdcToScreen(ndcX: real, ndcY: real, windowSize: Vec2): (p: Vec2)
    ensures ndcX == -1.0 ==> p.x == 0.0
    ensures ndcX == 1.0 ==> p.x == windowSize.x
    ensures ndcY == 1.0 ==> p.y == 0.0
    ensures ndcY == -1.0 ==> p.y == windowSize.y
  {
    Vec2((ndcX + 1.0) * 0.5 * windowSize.x, (1.0 - ndcY) * 0.5 * windowSize.y)
  }

  /** The clip-space position of a world point. */
  function Clip(worldPos: Vec3, mvp: Mat4): Vec4 { MulVec(mvp, Point(worldPos)) }

  /** Projects a world point to window pixels; z and w of the result are 0.
      The perspective divide needs a clip w other than 0. */
  function WorldToScreen(worldPos: Vec3, mvp: Mat4, windowSize: Vec2): (r: Vec4)
    requires Clip(worldPos, mvp).w != 0.0
    ensures r.z == 0.0 && r.w == 0.0
    ensures var c := Clip(worldPos, mvp);
            Vec2(r.x, r.y) == NdcToScreen(c.x / c.w, c.y / c.w, windowSize)
  {
    var clip := Clip(worldPos, mvp);
    var ndcX, ndcY := clip.x / clip.w, clip.y / clip.w;
    var sx := (ndcX + 1.0) * 0.5 * windowSize.x;
    var sy := (1.0 - ndcY) * 0.5 * windowSize.y;
    Vec4(sx, sy, 0.0, 0.0)
  }

  /** The mouse mapping of ComputeCameraRay takes the pixel worldToScreen
      gives a point back to that point's NDC position. */
  lemma WorldToScreenMouseRoundTrip(worldPos: Vec3, mvp: Mat4, windowSize: Vec2)
    requires Clip(worldPos, mvp).w != 0.0
    requires windowSize.x != 0.0 && windowSize.y != 0.0
    ensures var c := Clip(worldPos, mvp);
            var r := WorldToScreen(worldPos, mvp, windowSize);
            MouseToNdc(Vec2(r.x, r.y), windowSize) == Vec2(c.x / c.w, c.y / c.w)
  {
    var c := Clip(worldPos, mvp);
    ScreenNdcRoundTrip(c.x / c.w, c.y / c.w, windowSize);
  }

  /** Window pixels to NDC, as ComputeCameraRay maps the mouse position:
      the window's left and right edges go to x = -1 and 1, its top and
      bottom rows to y = 1 and -1. */
  function MouseToNdc(mouse: Vec2, windowSize: Vec2): (n: Vec2)
    requires windowSize.x != 0.0 && windowSize.y != 0.0
    ensures mouse.x == 0.0 ==> n.x == -1.0
    ensures mouse.x == windowSize.x ==> n.x == 1.0
    ensures mouse.y == 0.0 ==> n.y == 1.0
    ensures mouse.y == windowSize.y ==> n.y == -1.0
  {
    var fx, fy := mouse.x / windowSize.x, mouse.y / windowSize.y;
    DivCancel(1.0, windowSize.x);
    DivCancel(1.0, windowSize.y);
    Vec2(fx * 2.0 - 1.0, (1.0 - fy) * 2.0 - 1.0)
  }

  /** The mouse mapping of ComputeCameraRay undoes the NDC -> screen mapping of worldToScreen. */
  lemma ScreenNdcRoundTrip(ndcX: real, ndcY: real, windowSize: Vec2)
    requires windowSize.x != 0.0 && windowSize.y != 0.0
    ensures MouseToNdc(NdcToScreen(ndcX, ndcY, windowSize), windowSize) == Vec2(ndcX, ndcY)
  {
    var p := NdcToScreen(ndcX, ndcY, windowSize);
    DivCancel((ndcX + 1.0) * 0.5, windowSize.x);
    DivCancel((1.0 - ndcY) * 0.5, windowSize.y);
  }

  lemma DivCancel(a: real, b: real)
    requires b != 0.0
    ensures (a * b) / b == a
  {
  }

  lemma ScaleByHalfInverse(a: real, w: real)
    requires w != 0.0
    ensures a * (0.5 / w) == (a / w) * 0.5
  {
  }

  /** ...and the other way round: every pixel is the image of the NDC point the mouse mapping gives. */
  lemma NdcScreenRoundTrip(mouse: Vec2, windowSize: Vec2)
    requires windowSize.x != 0.0 && windowSize.y != 0.0
    ensures var n := MouseToNdc(mouse, windowSize); NdcToScreen(n.x, n.y, windowSize) == mouse
  {
    var n := MouseToNdc(mouse, windowSize);
    assert (n.x + 1.0) * 0.5 == mouse.x / windowSize.x;
    assert (1.0 - n.y) * 0.5 == mouse.y / windowSize.y;
  }

  /** Pixel x grows with NDC x; pixel y shrinks as NDC y grows. */
  lemma NdcToScreenMonotone(a: Vec2, b: Vec2, windowSize: Vec2)
    requires windowSize.x > 0.0 && windowSize.y > 0.0
    ensures a.x < b.x ==> NdcToScreen(a.x, a.y, windowSize).x < NdcToScreen(b.x, b.y, windowSize).x
    ensures a.y < b.y ==> NdcToScreen(a.x, a.y, windowSize).y > NdcToScreen(b.x, b.y, windowSize).y
  {
  }

  const Origin: Vec3 := Vec3(0.0, 0.0, 0.0)

  /** The screen position setUpContext computes for the gizmo centre (the
      model origin): scale by 0.5 / w, shift by 0.5, flip y, scale to pixels.
      It is the NDC -> screen mapping of worldToScreen applied to the origin. */
  function GizmoCenter(mvp: Mat4, windowSize: Vec2): (r: Vec2)
    requires Clip(Origin, mvp).w != 0.0
    ensures var c := Clip(Origin, mvp); r == NdcToScreen(c.x / c.w, c.y / c.w, windowSize)
  {
    CenterOfClip(Clip(Origin, mvp), windowSize)
  }

  function CenterOfClip(c: Vec4, windowSize: Vec2): (r: Vec2)
    requires c.w != 0.0
    ensures r == NdcToScreen(c.x / c.w, c.y / c.w, windowSize)
  {
    var h := Scale(c, 0.5 / c.w);
    var qx, qy := c.x / c.w, c.y / c.w;
    ScaleByHalfInverse(c.x, c.w);
    ScaleByHalfInverse(c.y, c.w);
    var x := h.x + 0.5;
    var y := 1.0 - (h.y + 0.5);
    assert x == (qx + 1.0) * 0.5;
    assert y == (1.0 - qy) * 0.5;
    Vec2(x * windowSize.x, y * windowSize.y)
  }

  /** So the gizmo centre is where worldToScreen puts the model origin. */
  lemma GizmoCenterIsProjectedOrigin(mvp: Mat4, windowSize: Vec2)
    requires Clip(Origin, mvp).w != 0.0
    ensures var s := WorldToScreen(Origin, mvp, windowSize); GizmoCenter(mvp, windowSize) == Vec2(s.x, s.y)
  {
  }
}
