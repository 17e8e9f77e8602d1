/** The ring geometry of the rotation gizmo: the half-ring vertex and index
    lists that init builds and drawRotationGizmo rebuilds every frame so that
    each half ring faces the camera, and the colour each ring is drawn in. */
module GizmoRings {
  import opened Base
  import opened GizmoMath
  import opened Gizmo

  /** Line segments per half ring. */
  const NumSegments: nat := 100
  /** The PI macro of the gizmo (single-precision literal 3.14159f). */
  const Pi: real := 3.14159

  /** The C math routines the ring code calls, left uninterpreted. */
  datatype Trig = Trig(cos: real -> real, sin: real -> real, atan2: (real, real) -> real)

  /** The angle of ring point `i`: half a turn split into NumSegments steps. */
  function RingAngle(start: real, i: nat): real
  {
    start + (i as real) / (NumSegments as real) * Pi
  }

  /** `axisPos`: the components of (x, y, 0, 1) taken from index `axis`
      onwards, cyclically over the first three. */
  function AxisPosition(axis: nat, x: real, y: real): (p: Vec3)
    requires axis < 3
    // x lands in coordinate (3 - axis) % 3, y in (4 - axis) % 3, and 0 in the third
    ensures Coordinate(p, (3 - axis) % 3) == x && Coordinate(p, (4 - axis) % 3) == y
    ensures Coordinate(p, 2 - axis) == 0.0
  {
    var pos := [x, y, 0.0, 1.0];
    Vec3(pos[axis], pos[(axis + 1) % 3], pos[(axis + 2) % 3])
  }

  function Coordinate(p: Vec3, k: nat): real
    requires k < 3
  {
    if k == 0 then p.x else if k == 1 then p.y else p.z
  }

  /** The ring of `axis` has no extent along model axis 2 - axis: it lies in
      the plane whose normal is plane normal `axis` of manipulate's hover
      test (model column 2 - axis), so the ring drawn for `type` t is the
      ring tested as t. */
  lemma AxisPositionInPlane(axis: nat, x: real, y: real)
    requires axis < 3
    ensures Coordinate(AxisPosition(axis, x, y), 2 - axis) == 0.0
    ensures var p := AxisPosition(axis, x, y);
            p.x * p.x + p.y * p.y + p.z * p.z == x * x + y * y
  {
  }

  /** The first `n` points of the half ring of `axis` starting at angle
      `start`, three floats per point, as the vertex list holds them. */
  function RingVertices(trig: Trig, start: real, axis: nat, n: nat): (v: seq<real>)
    requires axis < 3
    ensures |v| == 3 * n
  {
    if n == 0 then []
    else
      var angle := RingAngle(start, n - 1);
      var p := AxisPosition(axis, Radius * trig.cos(angle), Radius * trig.sin(angle));
      RingVertices(trig, start, axis, n - 1) + [p.x, p.y, p.z]
  }

  /** Every point of the ring of `axis` is in the plane of plane normal `axis`. */
  lemma {:induction false} RingInPlane(trig: Trig, start: real, axis: nat, n: nat, k: nat)
    requires axis < 3 && k < n
    ensures RingVertices(trig, start, axis, n)[3 * k + (2 - axis)] == 0.0
  {
    var angle := RingAngle(start, n - 1);
    AxisPositionInPlane(axis, Radius * trig.cos(angle), Radius * trig.sin(angle));
    if k < n - 1 {
      RingInPlane(trig, start, axis, n - 1, k);
    }
  }

  /** The first `n` segments of the index list: the pairs (k, k + 1). */
  function RingIndices(n: nat): (ix: seq<u32>)
    requires n < U32Limit
    ensures |ix| == 2 * n
  {
    if n == 0 then [] else RingIndices(n - 1) + [(n - 1) as u32, n as u32]
  }

  /** Segment k joins points k and k + 1, so every index names one of the
      n + 1 points of the ring. */
  lemma {:induction false} RingIndicesJoinNeighbours(n: nat, k: nat)
    requires n < U32Limit && k < n
    ensures RingIndices(n)[2 * k] as int == k && RingIndices(n)[2 * k + 1] as int == k + 1
  {
    if k < n - 1 {
      RingIndicesJoinNeighbours(n - 1, k);
    }
  }

  lemma {:induction false} RingIndicesInRange(n: nat)
    requires n < U32Limit
    ensures forall j :: 0 <= j < |RingIndices(n)| ==> RingIndices(n)[j] as int <= n
  {
    if n > 0 {
      RingIndicesInRange(n - 1);
    }
  }

  /** The camera direction in the model's local space, whose components
      orient each half ring (`cameraToModelNormalized`). */
  function CameraDirectionLocal(glm: Glm, model: Mat4, cameraEye: Vec4): (c: Vec4)
    ensures c == MulVec(glm.inverse(model), Direction(Xyz(glm.normalize4(Sub(model.c3, cameraEye)))))
  {
    TransformVector(glm.inverse(model), glm.normalize4(Sub(model.c3, cameraEye)))
  }

  /** The start angle of the half ring of `axis`: a quarter turn past the
      angle of the local camera direction `c` in the ring's own coordinate
      plane. */
  function AngleStart(trig: Trig, c: Vec4, axis: nat): real
    requires axis < 3
  {
    trig.atan2(Component(c, (4 - axis) % 3), Component(c, (3 - axis) % 3)) + Pi * 0.5
  }

  /** The projection of `p` onto the plane of ring `axis`: its coordinate
      along plane normal `axis` set to 0. */
  function OntoRingPlane(p: Vec3, axis: nat): (q: Vec3)
    requires axis < 3
    ensures Coordinate(q, 2 - axis) == 0.0
  {
    if axis == 0 then p.(z := 0.0) else if axis == 1 then p.(y := 0.0) else p.(x := 0.0)
  }

  /** The start angle is a quarter turn past the angle, in the ring's own
      (x, y) coordinates, of the camera direction's projection onto the
      ring plane: reading the camera direction at the coordinates where
      axisPos places x and y and feeding them back through axisPos gives
      exactly that projection. */
  lemma AngleStartFromProjectedCamera(trig: Trig, c: Vec4, axis: nat)
    requires axis < 3
    ensures var x, y := Component(c, (3 - axis) % 3), Component(c, (4 - axis) % 3);
            && AxisPosition(axis, x, y) == OntoRingPlane(Xyz(c), axis)
            && AngleStart(trig, c, axis) == trig.atan2(y, x) + Pi * 0.5
  {
  }

  /** The half ring of `axis` that drawRotationGizmo builds for the local
      camera direction `c`. */
  function FacingRing(trig: Trig, c: Vec4, axis: nat): (v: seq<real>)
    requires axis < 3
  {
    RingVertices(trig, AngleStart(trig, c, axis), axis, NumSegments + 1)
  }

  const Red: Vec3 := Vec3(1.0, 0.0, 0.0)
  const Green: Vec3 := Vec3(0.0, 1.0, 0.0)
  const Blue: Vec3 := Vec3(0.0, 0.0, 1.0)
  const Orange: Vec3 := Vec3(1.0, 0.5, 0.0)

  /** The colour of the ring of `axis`: red, green, blue, or orange for the
      ring of the dragged (or last hovered) axis. `mainType - 1` is unsigned
      32-bit arithmetic, so mainType 0 selects no ring. */
  function AxisColor(axis: nat, mainType: nat): (c: Vec3)
    requires axis < 3 && mainType < U32Limit
    ensures c == Orange <==> mainType != 0 && axis == mainType - 1
    ensures !(mainType != 0 && axis == mainType - 1) ==> c == [Red, Green, Blue][axis]
  {
    var selected := TruncateU32(mainType + U32Limit - 1);
    if axis as int == selected as int then Orange
    else if axis == 0 then Red
    else if axis == 1 then Green
    else Blue
  }

  /** At most one ring is orange. */
  lemma OneRingHighlighted(mainType: nat, a: nat, b: nat)
    requires a < 3 && b < 3 && mainType < U32Limit
    requires AxisColor(a, mainType) == Orange && AxisColor(b, mainType) == Orange
    ensures a == b
  {
  }

  /** The vertex loop of init for one ring: the NumSegments + 1 points of the
      half ring at angles 0 .. PI in the plane z = 0. */
  method FlatHalfRing(trig: Trig) returns (v: seq<real>)
    ensures v == RingVertices(trig, 0.0, 0, NumSegments + 1)
  {
    v := [];
    for i := 0 to NumSegments + 1
      invariant v == RingVertices(trig, 0.0, 0, i)
    {
      var angle := (i as real) / (NumSegments as real) * Pi;
      var x := Radius * trig.cos(angle);
      var y := Radius * trig.sin(angle);
      v := v + [x, y, 0.0];
    }
  }

  /** The index loop of init for one ring: segment i joins points i and i + 1. */
  method SegmentIndices() returns (ix: seq<u32>)
    ensures ix == RingIndices(NumSegments)
  {
    ix := [];
    for i := 0 to NumSegments
      invariant ix == RingIndices(i)
    {
      ix := ix + [i as u32, (i + 1) as u32];
    }
  }

  /** The vertex loop of drawRotationGizmo for one ring: the NumSegments + 1
      points of the half ring of `axis` from angle `start`. */
  method HalfRing(trig: Trig, start: real, axis: nat) returns (v: seq<real>)
    requires axis < 3
    ensures v == RingVertices(trig, start, axis, NumSegments + 1)
  {
    v := [];
    for i := 0 to NumSegments + 1
      invariant v == RingVertices(trig, start, axis, i)
    {
      var angle := start + (i as real) / (NumSegments as real) * Pi;
      var p := AxisPosition(axis, Radius * trig.cos(angle), Radius * trig.sin(angle));
      v := v + [p.x, p.y, p.z];
    }
  }

  /** The vertex and index lists of the three half rings (`vertices[3]`,
      `indices[3]`). */
  class RingBuffers {
    var vertices: seq<seq<real>>
    var indices: seq<seq<u32>>

    ghost predicate Valid()
      reads this
    {
      |vertices| == 3 && |indices| == 3
    }

    constructor ()
      ensures Valid()
      ensures vertices == [[], [], []] && indices == [[], [], []]
    {
      vertices := [[], [], []];
      indices := [[], [], []];
    }

    /** The list-building part of init: every ring gets the points of the
        half ring at angles 0 .. PI in the plane z = 0, and the segment
        indices; both are appended to what the lists already hold. */
    method Init(trig: Trig)
      requires Valid()
      modifies this`vertices, this`indices
      ensures Valid()
      ensures forall axis :: 0 <= axis < 3 ==>
                vertices[axis] == old(vertices[axis]) + RingVertices(trig, 0.0, 0, NumSegments + 1)
      ensures forall axis :: 0 <= axis < 3 ==>
                indices[axis] == old(indices[axis]) + RingIndices(NumSegments)
    {
      ghost var flat := RingVertices(trig, 0.0, 0, NumSegments + 1);
      ghost var segmentIndices := RingIndices(NumSegments);
      for axis := 0 to 3
        invariant Valid()
        invariant forall a :: 0 <= a < 3 ==> vertices[a] == old(vertices[a]) + (if a < axis then flat else [])
        invariant forall a :: 0 <= a < 3 ==> indices[a] == old(indices[a]) + (if a < axis then segmentIndices else [])
      {
        var ring := FlatHalfRing(trig);
        var segments := SegmentIndices();
        vertices := vertices[axis := vertices[axis] + ring];
        indices := indices[axis := indices[axis] + segments];
      }
    }

    /** The list-rebuilding part of drawRotationGizmo: each ring's vertex list
        is replaced by the half ring that starts a quarter turn from the
        camera direction. Returns the colour uniform of each ring. */
    method DrawRotationGizmo(glm: Glm, trig: Trig, model: Mat4, cameraEye: Vec4, mainType: nat)
      returns (colors: seq<Vec3>)
      requires Valid() && mainType < U32Limit
      modifies this`vertices
      ensures Valid()
      ensures indices == old(indices)
      ensures forall axis :: 0 <= axis < 3 ==>
                vertices[axis] == FacingRing(trig, CameraDirectionLocal(glm, model, cameraEye), axis)
      ensures |colors| == 3
      ensures forall axis :: 0 <= axis < 3 ==> colors[axis] == AxisColor(axis, mainType)
    {
      var cameraToModelNormalized := CameraDirectionLocal(glm, model, cameraEye);
      colors := [];
      for axis := 0 to 3
        invariant Valid()
        invariant indices == old(indices)
        invariant forall a :: 0 <= a < axis ==>
                    vertices[a] == FacingRing(trig, cameraToModelNormalized, a)
        invariant |colors| == axis
        invariant forall a :: 0 <= a < axis ==> colors[a] == AxisColor(a, mainType)
      {
        var angleStart := AngleStart(trig, cameraToModelNormalized, axis);
        var v := HalfRing(trig, angleStart, axis);
        vertices := vertices[axis := v];
        colors := colors + [AxisColor(axis, mainType)];
      }
    }
  }
}
