/** The per-frame state machine of the rotation gizmo: the process-wide
    context, setUpContext and manipulate (hover detection against a pixel
    threshold, drag start on button press, incremental rotation while
    dragging, drag end on release). */
module Gizmo {
  import opened Base
  import opened GizmoMath

  /** The GLM and C library routines the gizmo calls and the model leaves
      uninterpreted: they are supplied by the caller. */
  datatype Glm = Glm(
    normalize3: Vec3 -> Vec3,
    normalize4: Vec4 -> Vec4,
    length3: Vec3 -> real,
    length2: Vec2 -> real,
    inverse: Mat4 -> Mat4,
    rotate: (Mat4, real, Vec3) -> Mat4,
    acos: real -> real)

  /** Radius of the rings, in model units. */
  const Radius: real := 0.2
  /** A ring is hovered when the mouse is closer than this many pixels. */
  const PixelThreshold: real := 15.0
  /** setUpContext fixes the window size. */
  const WindowWidth: nat := 1200
  const WindowHeight: nat := 800

  /** The mouse as the input layer reports it in one frame: the cursor in
      window pixels (origin top left) and the state of the left button.
      IsMouseButtonPressed and IsMouseButtonReleased both read that one
      state, so "pressed" is `leftDown` and "released" is `!leftDown`. */
  datatype Mouse = Mouse(x: real, y: real, leftDown: bool)

  /** What manipulate writes through its `matrix` and `delta` parameters. */
  datatype DragOutput = DragOutput(matrix: Mat4, delta: Mat4)

  /** The discrete part of the context: hovered axis (`type`, 0 = none,
      1..3 = plane normal index + 1), the axis being dragged and the drag flag. */
  datatype DragState = DragState(hoverType: nat, mainType: nat, usingGizmo: bool)

  const ZeroVec: Vec4 := Vec4(0.0, 0.0, 0.0, 0.0)
  const ZeroMat: Mat4 := Mat4(ZeroVec, ZeroVec, ZeroVec, ZeroVec)

  // ---------------------------------------------------------------------
  // Pieces of setUpContext and manipulate

  /** GetScaleFromMatrix: the lengths of the three basis columns. */
  function ScaleFromMatrix(glm: Glm, m: Mat4): Vec3
  {
    Vec3(glm.length3(Xyz(m.c0)), glm.length3(Xyz(m.c1)), glm.length3(Xyz(m.c2)))
  }

  /** RemoveScale: the normalised basis columns (w = 0) and the translation (w = 1). */
  function RemoveScale(glm: Glm, m: Mat4): (r: Mat4)
    ensures Xyz(r.c3) == Xyz(m.c3) && r.c3.w == 1.0
    ensures r.c0.w == 0.0 && r.c1.w == 0.0 && r.c2.w == 0.0
  {
    Mat4(Direction(glm.normalize3(Xyz(m.c0))),
         Direction(glm.normalize3(Xyz(m.c1))),
         Direction(glm.normalize3(Xyz(m.c2))),
         Point(Xyz(m.c3)))
  }

  /** `glm::scale(m, s)`: columns 0..2 multiplied by the components of s. */
  function ScaleColumns(m: Mat4, s: Vec3): (r: Mat4)
    ensures r.c3 == m.c3
  {
    Mat4(Scale(m.c0, s.x), Scale(m.c1, s.y), Scale(m.c2, s.z), m.c3)
  }

  /** Splitting an affine matrix into its scale-free part and its scale, and
      scaling the columns back, gives the matrix again. The last three
      requires are the library identity normalize(v) * length(v) == v (true
      of every non-zero column in exact arithmetic), one per basis column,
      not a fact about the gizmo; given them, the round trip is column-wise
      bookkeeping. */
  lemma SplitScaleRoundTrip(glm: Glm, m: Mat4)
    requires m.c0.w == 0.0 && m.c1.w == 0.0 && m.c2.w == 0.0 && m.c3.w == 1.0
    requires Scale(Direction(glm.normalize3(Xyz(m.c0))), glm.length3(Xyz(m.c0))) == Direction(Xyz(m.c0))
    requires Scale(Direction(glm.normalize3(Xyz(m.c1))), glm.length3(Xyz(m.c1))) == Direction(Xyz(m.c1))
    requires Scale(Direction(glm.normalize3(Xyz(m.c2))), glm.length3(Xyz(m.c2))) == Direction(Xyz(m.c2))
    ensures ScaleColumns(RemoveScale(glm, m), ScaleFromMatrix(glm, m)) == m
  {
  }

  /** The scale and the scale-free basis do not depend on the translation. */
  lemma ScaleAndRotationIgnoreTranslation(glm: Glm, m: Mat4, t: Vec4)
    ensures ScaleFromMatrix(glm, m.(c3 := t)) == ScaleFromMatrix(glm, m)
    ensures RemoveScale(glm, m.(c3 := t)) == RemoveScale(glm, m).(c3 := Point(Xyz(t)))
  {
  }

  /** `planNormals[i]`: the model columns 2, 1, 0 in that order. */
  function PlaneNormal(model: Mat4, i: nat): Vec4
    requires i < 3
  {
    if i == 0 then model.c2 else if i == 1 then model.c1 else model.c0
  }

  /** The plane of ring `i`: the normalised plane normal in xyz, and a w
      that puts the model's centre on the plane whenever the normalised
      normal is a direction (w = 0). */
  function PickPlane(glm: Glm, model: Mat4, i: nat): (plane: Vec4)
    requires i < 3
    ensures Xyz(plane) == Xyz(glm.normalize4(PlaneNormal(model, i)))
    ensures glm.normalize4(PlaneNormal(model, i)).w == 0.0 ==> Dot3(plane, model.c3) == plane.w
  {
    var n := glm.normalize4(PlaneNormal(model, i));
    Vec4(n.x, n.y, n.z, Dot4(n, model.c3))
  }

  /** The point where the camera ray meets `plane`, relative to `centre`.
      The sentinel -1 of IntersectRayPlane is used as a parameter like any other. */
  function DragLocalPos(rayOrigin: Vec4, rayVector: Vec4, plane: Vec4, centre: Vec4): Vec4
  {
    Sub(Add(rayOrigin, Scale(rayVector, IntersectRayPlane(rayOrigin, rayVector, plane))), centre)
  }

  /** The signed rotation angle of `localPos` from the reference vector:
      acos of the clamped cosine, negated unless `localPos` lies on the
      negative side of the perpendicular vector. */
  function SignedAngle(glm: Glm, localPos: Vec4, source: Vec4, plane: Vec4): real
  {
    var angle := glm.acos(AngleCosine(glm, localPos, source));
    if Dot4(localPos, Perpendicular(glm, source, plane)) < 0.0 then angle else -angle
  }

  /** The angle depends only on the direction of the hit point from the
      centre, not on its distance: moving the point along its own direction
      changes neither the cosine nor the side of the perpendicular. The
      requires is glm::normalize's invariance under positive scaling, a
      property of the library rather than of the gizmo. */
  lemma SignedAngleIgnoresDistance(glm: Glm, localPos: Vec4, k: real, source: Vec4, plane: Vec4)
    requires k > 0.0
    requires glm.normalize4(Scale(localPos, k)) == glm.normalize4(localPos)
    ensures SignedAngle(glm, Scale(localPos, k), source, plane) == SignedAngle(glm, localPos, source, plane)
  {
    var n := Perpendicular(glm, source, plane);
    var d := Dot4(localPos, n);
    assert Dot4(Scale(localPos, k), n) == k * d;
    assert k * d < 0.0 <==> d < 0.0;
  }

  /** The normalised cross product of the reference vector and the plane
      normal, as a direction: it tells the two sides of the reference apart. */
  function Perpendicular(glm: Glm, source: Vec4, plane: Vec4): Vec4
  {
    glm.normalize4(Direction(Cross(Xyz(source), Xyz(plane))))
  }

  /** The cosine handed to acos: the dot product of the normalised position
      and the reference vector, clamped to acos's domain [-1, 1] so that
      rounding cannot push it outside. */
  function AngleCosine(glm: Glm, localPos: Vec4, source: Vec4): (c: real)
    ensures -1.0 <= c <= 1.0
    ensures var d := Dot4(glm.normalize4(localPos), source); -1.0 <= d <= 1.0 ==> c == d
  {
    Clamp(Dot4(glm.normalize4(localPos), source), -1.0, 1.0)
  }

  /** Two positions on opposite sides of the reference with the same cosine
      get opposite angles. */
  lemma SignedAngleSides(glm: Glm, p: Vec4, q: Vec4, source: Vec4, plane: Vec4)
    requires AngleCosine(glm, p, source) == AngleCosine(glm, q, source)
    requires Dot4(p, Perpendicular(glm, source, plane)) < 0.0 <= Dot4(q, Perpendicular(glm, source, plane))
    ensures SignedAngle(glm, p, source, plane) == -SignedAngle(glm, q, source, plane)
  {
  }

  /** The rotation axis in the drag-start model's local space: the drag
      plane's normal taken back through the inverse model as a direction. */
  function RotationAxis(glm: Glm, modelSource: Mat4, plane: Vec4): (axis: Vec3)
    ensures axis == Xyz(glm.normalize4(MulVec(glm.inverse(modelSource), Direction(Xyz(plane)))))
  {
    Xyz(glm.normalize4(TransformVector(glm.inverse(modelSource), Direction(Xyz(plane)))))
  }

  /** Only the plane's normal matters for the axis: its distance term w
      does not reach it. */
  lemma RotationAxisIgnoresPlaneDistance(glm: Glm, modelSource: Mat4, plane: Vec4, w: real)
    ensures RotationAxis(glm, modelSource, plane.(w := w)) == RotationAxis(glm, modelSource, plane)
  {
  }

  /** The fields setUpContext rewrites at the start of every frame: the
      camera, the edited matrix split into a scale-free model and its scale,
      the model-view-projection matrix, the camera position, the window
      size and the camera ray of the mouse. */
  datatype Frame = Frame(
    viewMat: Mat4,
    projectionMat: Mat4,
    model: Mat4,
    modelScaleOrigin: Vec3,
    mvp: Mat4,
    cameraEye: Vec4,
    width: nat,
    height: nat,
    rayOrigin: Vec4,
    rayVector: Vec4)

  /** setUpContext's values for one frame. The ray is a parameter: its
      unprojection from the mouse position is not part of this model. */
  function FrameOf(glm: Glm, view: Mat4, projection: Mat4, matrix: Mat4, rayOrigin: Vec4, rayVector: Vec4): (f: Frame)
    ensures f.width == WindowWidth && f.height == WindowHeight
  {
    var model := RemoveScale(glm, matrix);
    Frame(view, projection, model, ScaleFromMatrix(glm, matrix), MatMul(MatMul(projection, view), model),
          glm.inverse(view).c3, WindowWidth, WindowHeight, rayOrigin, rayVector)
  }

  /** Splitting off the scale keeps the translation of the edited matrix,
      and putting the scale back (as the drag output does) keeps it too. */
  lemma FrameKeepsTranslation(glm: Glm, view: Mat4, projection: Mat4, matrix: Mat4, rayOrigin: Vec4, rayVector: Vec4)
    ensures var f := FrameOf(glm, view, projection, matrix, rayOrigin, rayVector);
            && Xyz(f.model.c3) == Xyz(matrix.c3) && f.model.c3.w == 1.0
            && ScaleColumns(f.model, f.modelScaleOrigin).c3 == f.model.c3
            && f.model.c0.w == 0.0 && f.model.c1.w == 0.0 && f.model.c2.w == 0.0
  {
  }

  /** The hover test of manipulate for plane normal `i`. False when the
      ray/plane intersection fails the view-depth check, or when the ideal
      ring point projects with clip w = 0 (IEEE division then yields an
      infinity or NaN, and `distance < 15` is false). The distance is
      glm::length of the pixel difference. */
  predicate AxisHit(glm: Glm, f: Frame, mouse: Mouse, i: nat)
    requires i < 3
  {
    var trans := Clip(IdealRingPoint(glm, f, i), f.mvp);
    && NotBehindCentre(f, HoverIntersection(glm, f, i))
    && trans.w != 0.0
    && glm.length2(HoverOffset(trans, f.width as real, f.height as real, mouse)) < PixelThreshold
  }

  /** The pixel difference of manipulate: the ideal point's NDC scaled to
      the window with y pointing up, minus the mouse with its y flipped. It
      is the difference from worldToScreen's pixel to the mouse as reported,
      with y negated. */
  function HoverOffset(trans: Vec4, width: real, height: real, mouse: Mouse): (d: Vec2)
    requires trans.w != 0.0
    ensures var s := NdcToScreen(trans.x / trans.w, trans.y / trans.w, Vec2(width, height));
            d == Vec2(s.x - mouse.x, -(s.y - mouse.y))
  {
    var ndcX, ndcY := trans.x / trans.w, trans.y / trans.w;
    var sx := (ndcX * 0.5 + 0.5) * width;
    var sy := (ndcY * 0.5 + 0.5) * height;
    HoverDistanceIsScreenDistance(ndcX, ndcY, width, height, mouse);
    Vec2(sx - mouse.x, sy - (height - mouse.y))
  }

  /** A hit is an intersection no farther from the camera than the centre
      (up to FLT_EPSILON) whose ideal ring point lies within the threshold
      of the mouse, measured from where worldToScreen puts that point. */
  lemma AxisHitIsScreenDistance(glm: Glm, f: Frame, mouse: Mouse, i: nat)
    requires i < 3
    ensures AxisHit(glm, f, mouse, i) <==>
              && NotBehindCentre(f, HoverIntersection(glm, f, i))
              && Clip(IdealRingPoint(glm, f, i), f.mvp).w != 0.0
              && var s := WorldToScreen(IdealRingPoint(glm, f, i), f.mvp, Vec2(f.width as real, f.height as real));
                 glm.length2(Vec2(s.x - mouse.x, -(s.y - mouse.y))) < PixelThreshold
  {
  }

  /** Where the camera ray meets the plane of ring `i` (at the sentinel
      parameter -1 when the ray is parallel to it). */
  function HoverIntersection(glm: Glm, f: Frame, i: nat): Vec4
    requires i < 3
  {
    var plane := PickPlane(glm, f.model, i);
    Add(f.rayOrigin, Scale(f.rayVector, IntersectRayPlane(f.rayOrigin, f.rayVector, plane)))
  }

  /** The depth check of the hover loop: the intersection is not farther
      from the camera, in view space, than the model centre. */
  predicate NotBehindCentre(f: Frame, p: Vec4)
  {
    Abs(MulVec(f.viewMat, f.model.c3).z) - Abs(MulVec(f.viewMat, p).z) >= -FltEpsilon
  }

  /** The point at ring radius in the direction of the intersection, taken
      into the model's local space. */
  function IdealRingPoint(glm: Glm, f: Frame, i: nat): Vec3
    requires i < 3
  {
    var localPos := Sub(HoverIntersection(glm, f, i), f.model.c3);
    Xyz(TransformVector(glm.inverse(f.model), Scale(glm.normalize4(localPos), Radius)))
  }

  /** The hover tests of the three plane normals, in loop order. */
  function AxisHits(glm: Glm, f: Frame, mouse: Mouse): (hits: seq<bool>)
    ensures |hits| == 3
  {
    [AxisHit(glm, f, mouse, 0), AxisHit(glm, f, mouse, 1), AxisHit(glm, f, mouse, 2)]
  }

  /** The value the first `|hits|` iterations of the hover loop leave in
      `type`: one more than the largest index whose test passed, or 0 when
      none did. */
  function HoverType(hits: seq<bool>): (t: nat)
    ensures t <= |hits|
    ensures t == 0 <==> forall i :: 0 <= i < |hits| ==> !hits[i]
    ensures t > 0 ==> hits[t - 1] && forall j :: t <= j < |hits| ==> !hits[j]
  {
    if hits == [] then 0
    else if hits[|hits| - 1] then |hits|
    else HoverType(hits[..|hits| - 1])
  }

  /** The value `type` holds after the hover loop has run the tests
      `hits[0 .. n-1]`, in the order the loop runs them: reset to 0, then
      overwritten by each test that passes. */
  function HoverAfter(n: nat, hits: seq<bool>): (t: nat)
    requires n <= |hits|
    ensures t <= n
  {
    if n == 0 then 0
    else if hits[n - 1] then n
    else HoverAfter(n - 1, hits)
  }

  /** The loop's value is the last-hit value of the tests it has run. */
  lemma {:induction false} HoverAfterIsHoverType(n: nat, hits: seq<bool>)
    requires n <= |hits|
    ensures HoverAfter(n, hits) == HoverType(hits[..n])
  {
    if n > 0 {
      HoverAfterIsHoverType(n - 1, hits);
      assert hits[..n][..n - 1] == hits[..n - 1];
    }
  }

  /** The hover test compares the mouse with the ideal ring point in the
      same pixel space as worldToScreen: flipping the mouse y and mapping NDC
      y upwards gives the difference vector of worldToScreen's downward y
      against the mouse as reported, with y negated (so the same length). */
  lemma HoverDistanceIsScreenDistance(ndcX: real, ndcY: real, width: real, height: real, mouse: Mouse)
    ensures var s := NdcToScreen(ndcX, ndcY, Vec2(width, height));
            && (ndcX * 0.5 + 0.5) * width - mouse.x == s.x - mouse.x
            && (ndcY * 0.5 + 0.5) * height - (height - mouse.y) == -(s.y - mouse.y)
  {
    var s := NdcToScreen(ndcX, ndcY, Vec2(width, height));
    assert (ndcX * 0.5 + 0.5) * width == s.x;
    assert (ndcY * 0.5 + 0.5) * height - (height - mouse.y) == -(s.y - mouse.y);
  }

  /** One frame of the hover/drag state machine of manipulate, given the
      hovered value the loop computed and the left button state. */
  function NextDragState(s: DragState, hovered: nat, leftDown: bool): (r: DragState)
    requires hovered <= 3
    ensures r.hoverType <= 3
    // while not dragging, mainType follows the hovered axis
    ensures !s.usingGizmo ==> r.mainType == hovered
    // while dragging, mainType is kept, also on the release frame
    ensures s.usingGizmo ==> r.mainType == s.mainType
    // a drag runs after this frame iff one ran or a hovered axis was pressed, and the button is still down
    ensures r.usingGizmo <==> (s.usingGizmo || hovered != 0) && leftDown
    // a drag never starts without a hovered axis
    ensures !s.usingGizmo && r.usingGizmo ==> r.mainType != 0 && r.mainType == hovered
    // releasing the button ends a drag and clears the hovered axis
    ensures s.usingGizmo && !leftDown ==> !r.usingGizmo && r.hoverType == 0
    // otherwise the hovered axis is what the loop found
    ensures !(s.usingGizmo && !leftDown) ==> r.hoverType == hovered
  {
    var mainType := if s.usingGizmo then s.mainType else hovered;
    var dragging := s.usingGizmo || (mainType != 0 && leftDown);
    if dragging && !leftDown then DragState(0, mainType, false)
    else DragState(hovered, mainType, dragging)
  }

  /** With the button up and no drag running, a second identical frame
      changes nothing. */
  lemma HoverWithoutButtonIsIdempotent(s: DragState, hovered: nat)
    requires hovered <= 3 && !s.usingGizmo
    ensures var once := NextDragState(s, hovered, false);
            NextDragState(once, hovered, false) == once && !once.usingGizmo && once.hoverType == hovered
  {
  }

  /** The deltaAngle values successive drag frames hand out when the angles
      computed in those frames are `angles` and the origin angle before the
      first of them is `origin`: each frame turns by its angle minus the
      origin, then makes its angle the new origin. */
  function DragDeltas(origin: real, angles: seq<real>): (d: seq<real>)
    ensures |d| == |angles|
    decreases |angles|
  {
    if angles == [] then [] else [angles[0] - origin] + DragDeltas(angles[0], angles[1..])
  }

  /** A drag frame appended at the end turns by its angle minus the angle
      of the frame before it (or minus the origin, for the first frame). */
  lemma {:induction false} DragDeltasAppend(origin: real, angles: seq<real>, angle: real)
    ensures DragDeltas(origin, angles + [angle])
            == DragDeltas(origin, angles) + [angle - (if angles == [] then origin else angles[|angles| - 1])]
    decreases |angles|
  {
    if angles != [] {
      assert (angles + [angle])[1..] == angles[1..] + [angle];
      DragDeltasAppend(angles[0], angles[1..], angle);
    }
  }

  function Sum(s: seq<real>): real
  {
    if s == [] then 0.0 else s[0] + Sum(s[1..])
  }

  /** The deltas of a drag add up to the last angle minus the starting
      origin: nothing is lost or counted twice between frames. */
  lemma {:induction false} DragDeltasTelescope(origin: real, angles: seq<real>)
    requires angles != []
    ensures Sum(DragDeltas(origin, angles)) == angles[|angles| - 1] - origin
    decreases |angles|
  {
    if |angles| > 1 {
      DragDeltasTelescope(angles[0], angles[1..]);
    }
  }

  // ---------------------------------------------------------------------
  // The context

  /** What a drag records when it starts (drag plane, reference vector,
      model) and updates while it runs (the angles). */
  datatype Drag = Drag(
    translationPlan: Vec4,
    rotationVectorSource: Vec4,
    modelSource: Mat4,
    rotationAngleOrigin: real,
    rotationAngle: real)

  /** The drag a press on ring `mainType` starts: its plane, the reference
      vector from the centre to the hit point, the origin angle, the model. */
  function StartDrag(glm: Glm, f: Frame, mainType: nat, rotationAngle: real): (d: Drag)
    requires 1 <= mainType <= 3
    ensures d.modelSource == f.model
    ensures d.translationPlan == PickPlane(glm, f.model, mainType - 1)
    ensures d.rotationAngle == rotationAngle
  {
    var plane := PickPlane(glm, f.model, mainType - 1);
    var localPos := DragLocalPos(f.rayOrigin, f.rayVector, plane, f.model.c3);
    var source := glm.normalize4(localPos);
    Drag(plane, source, f.model, SignedAngle(glm, localPos, source, plane), rotationAngle)
  }

  /** The angle of the mouse on the drag plane, measured from the drag's
      reference vector about the drag-start centre. */
  function DragAngle(glm: Glm, f: Frame, d: Drag): real
  {
    SignedAngle(glm, DragLocalPos(f.rayOrigin, f.rayVector, d.translationPlan, d.modelSource.c3),
                d.rotationVectorSource, d.translationPlan)
  }

  /** The drag angle of each of `frames` for the drag `d`. */
  function DragAngles(glm: Glm, frames: seq<Frame>, d: Drag): seq<real>
  {
    seq(|frames|, i requires 0 <= i < |frames| => DragAngle(glm, frames[i], d))
  }

  /** The frame that starts a drag measures the drag angle from the same
      hit point the origin angle was taken from, so it turns by zero. */
  lemma StartFrameTurnsByZero(glm: Glm, f: Frame, mainType: nat, rotationAngle: real)
    requires 1 <= mainType <= 3
    ensures var d := StartDrag(glm, f, mainType, rotationAngle);
            DragAngle(glm, f, d) - d.rotationAngleOrigin == 0.0
  {
  }

  /** The process-wide gizmo context (`gContext`): the per-frame fields,
      the hover/drag state (`type`, `mainType`, `usingGizmo`) and the drag
      fields, which persist across frames. */
  class Context {
    var frame: Frame
    var state: DragState
    var drag: Drag

    ghost predicate Valid()
      reads this
    {
      && state.hoverType <= 3
      && state.mainType <= 3
      && (state.usingGizmo ==> 1 <= state.mainType)
    }

    /** The global is zero-initialised; the constructor clears usingGizmo. */
    constructor ()
      ensures Valid()
      ensures state == DragState(0, 0, false)
      ensures drag.rotationAngleOrigin == 0.0 && drag.rotationAngle == 0.0
    {
      frame := Frame(ZeroMat, ZeroMat, ZeroMat, Vec3(0.0, 0.0, 0.0), ZeroMat, ZeroVec, 0, 0, ZeroVec, ZeroVec);
      state := DragState(0, 0, false);
      drag := Drag(ZeroVec, ZeroVec, ZeroMat, 0.0, 0.0);
    }

    /** setUpContext: the frame fields are recomputed from this frame's
        camera, edited matrix and mouse ray; the hover, drag and the drag
        fields are left as they are. */
    method SetUpContext(glm: Glm, view: Mat4, projection: Mat4, matrix: Mat4, rayOrigin: Vec4, rayVector: Vec4)
      modifies this`frame
      ensures frame == FrameOf(glm, view, projection, matrix, rayOrigin, rayVector)
    {
      frame := FrameOf(glm, view, projection, matrix, rayOrigin, rayVector);
    }

    /** The hover loop of manipulate: `type` ends up one more than the last
        plane normal whose ring passes the hover test, or 0. */
    method UpdateHover(glm: Glm, mouse: Mouse)
      modifies this`state
      ensures state == old(state).(hoverType := HoverAfter(3, AxisHits(glm, frame, mouse)))
    {
      state := state.(hoverType := 0);
      for i := 0 to 3
        invariant state == old(state).(hoverType := HoverAfter(i, AxisHits(glm, frame, mouse)))
      {
        if AxisHit(glm, frame, mouse, i) {
          state := state.(hoverType := 1 + i);
        }
      }
    }

    /** One frame of a running drag: the rotation by the change of the drag
        angle about the plane normal in the drag-start model's local space,
        placed at the drag-start translation and rescaled; the angle becomes
        the new origin. Releasing the button ends the drag. */
    method DragFrame(glm: Glm, leftDown: bool) returns (out: DragOutput)
      requires state.usingGizmo
      modifies this`state, this`drag
      ensures drag == old(drag).(rotationAngle := DragAngle(glm, frame, old(drag)),
                                 rotationAngleOrigin := DragAngle(glm, frame, old(drag)))
      ensures out.delta == glm.rotate(frame.model, drag.rotationAngle - old(drag.rotationAngleOrigin),
                                      RotationAxis(glm, drag.modelSource, drag.translationPlan))
      ensures out.matrix == ScaleColumns(out.delta.(c3 := drag.modelSource.c3), frame.modelScaleOrigin)
      ensures state == if leftDown then old(state) else old(state).(hoverType := 0, usingGizmo := false)
    {
      var len := IntersectRayPlane(frame.rayOrigin, frame.rayVector, drag.translationPlan);
      var localPos := Sub(Add(frame.rayOrigin, Scale(frame.rayVector, len)), drag.modelSource.c3);
      var angle := SignedAngle(glm, localPos, drag.rotationVectorSource, drag.translationPlan);
      var rotationAxisLocalSpace := glm.normalize4(TransformVector(glm.inverse(drag.modelSource), Direction(Xyz(drag.translationPlan))));
      var deltaAngle := angle - drag.rotationAngleOrigin;
      var deltamat := glm.rotate(frame.model, deltaAngle, Xyz(rotationAxisLocalSpace));
      var result := deltamat.(c3 := drag.modelSource.c3);
      result := ScaleColumns(result, frame.modelScaleOrigin);
      drag := drag.(rotationAngle := angle, rotationAngleOrigin := angle);
      if !leftDown {
        state := state.(hoverType := 0, usingGizmo := false);
      }
      out := DragOutput(result, glm.rotate(frame.model, deltaAngle, Xyz(rotationAxisLocalSpace)));
    }

    /** Successive frames of one drag with the button held: each frame runs
        the drag block of manipulate, and the angle it turns by
        (`deltaAngle`) is collected. Those angles are DragDeltas of the
        frames' drag angles from the origin angle the drag had before. */
    method HoldDrag(glm: Glm, frames: seq<Frame>) returns (deltas: seq<real>)
      requires state.usingGizmo
      modifies this`frame, this`state, this`drag
      ensures deltas == DragDeltas(old(drag.rotationAngleOrigin), DragAngles(glm, frames, old(drag)))
      ensures state == old(state)
      ensures frames != [] ==>
                var last := DragAngle(glm, frames[|frames| - 1], old(drag));
                drag == old(drag).(rotationAngle := last, rotationAngleOrigin := last)
    {
      ghost var angles := DragAngles(glm, frames, old(drag));
      deltas := [];
      for i := 0 to |frames|
        invariant state == old(state)
        invariant drag == if i == 0 then old(drag)
                          else old(drag).(rotationAngle := angles[i - 1], rotationAngleOrigin := angles[i - 1])
        invariant deltas == DragDeltas(old(drag.rotationAngleOrigin), angles[..i])
      {
        frame := frames[i];
        var before := drag.rotationAngleOrigin;
        var out := DragFrame(glm, true);
        // the angle out.delta turns by
        deltas := deltas + [drag.rotationAngle - before];
        DragDeltasAppend(old(drag.rotationAngleOrigin), angles[..i], angles[i]);
        assert angles[..i + 1] == angles[..i] + [angles[i]];
      }
      assert angles[..|frames|] == angles;
    }

    /** One call of manipulate. Returns the values written through `matrix`
        and `delta`, or None when they are left untouched. */
    method Manipulate(glm: Glm, view: Mat4, projection: Mat4, matrix: Mat4, rayOrigin: Vec4, rayVector: Vec4, mouse: Mouse)
      returns (out: Option<DragOutput>)
      requires Valid()
      modifies this
      ensures Valid()
      ensures frame == FrameOf(glm, view, projection, matrix, rayOrigin, rayVector)
      ensures state == NextDragState(old(state), HoverAfter(3, AxisHits(glm, frame, mouse)), mouse.leftDown)
      // the drag block runs (and the outputs are written) iff a drag was running or one starts now
      ensures var begins := !old(state.usingGizmo) && HoverAfter(3, AxisHits(glm, frame, mouse)) != 0 && mouse.leftDown;
              && (out.Some? <==> old(state.usingGizmo) || begins)
              && (out.None? ==> drag == old(drag))
              // a drag starts from the pressed ring's plane, reference vector and model
              && var d0 := if begins then StartDrag(glm, frame, state.mainType, old(drag.rotationAngle)) else old(drag);
              // each drag frame turns by the change of the drag angle since the origin angle
              && (out.Some? ==>
                    && drag == d0.(rotationAngle := DragAngle(glm, frame, d0), rotationAngleOrigin := DragAngle(glm, frame, d0))
                    && out.value.delta == glm.rotate(frame.model, drag.rotationAngle - d0.rotationAngleOrigin,
                                                     RotationAxis(glm, drag.modelSource, drag.translationPlan))
                    && out.value.matrix == ScaleColumns(out.value.delta.(c3 := drag.modelSource.c3), frame.modelScaleOrigin)
                    && out.value.matrix.c3 == drag.modelSource.c3)
    {
      SetUpContext(glm, view, projection, matrix, rayOrigin, rayVector);
      UpdateHover(glm, mouse);
      if !state.usingGizmo {
        state := state.(mainType := state.hoverType);
        if state.mainType != 0 && mouse.leftDown {
          state := state.(usingGizmo := true);
          drag := StartDrag(glm, frame, state.mainType, drag.rotationAngle);
        }
      }
      out := None;
      if state.usingGizmo {
        var result := DragFrame(glm, mouse.leftDown);
        out := Some(result);
      }
    }
  }
}
