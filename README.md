# OpenGL-Gizmos: rotation gizmo and buffer bookkeeping, modelled in Dafny

OpenGL-Gizmos draws a rotation gizmo over a model in an OpenGL scene. The
gizmo has three half rings, one per model axis. Each frame the gizmo does
three things:

- it rebuilds the rings so that they face the camera;
- it finds the ring under the mouse (within 15 pixels);
- while the left button is held, it rotates the edited matrix by the
  change of the mouse's angle on the ring's plane.

Beside the gizmo sits a small rendering layer:

- shader data types and their byte sizes;
- buffer layouts, with stride and offsets;
- vertex and index buffers;
- a vertex array that assigns attribute slots;
- meshes whose submeshes keep their indices packed into bytes.

This project models both parts:

| file | module | what it holds |
|---|---|---|
| `base.dfy` | `Base` | unsigned integer types, the 32-bit truncation of a size, the index format |
| `opengl.dfy` | `OpenGL` | the OpenGL context as a trace of calls plus a counter that hands out object names |
| `gizmo_math.dfy` | `GizmoMath` | vectors and column-major matrices over `real`, ray/plane intersection, `TransformVector`, the NDC/screen mappings |
| `gizmo.dfy` | `Gizmo` | the gizmo context (`gContext`) as a class; `setUpContext` and `manipulate` as its methods; the hover loop and drag state machine, with their specifications |
| `gizmo_rings.dfy` | `GizmoRings` | the ring vertex and index lists built by `init` and rebuilt by `drawRotationGizmo`; the ring colours |
| `buffer.dfy` | `Buffer` | `ShaderDataType` tables, `BufferAttribute`, `BufferLayout`, `VertexBuffer`, `IndexBuffer` |
| `vertex_array.dfy` | `VertexArray` | the vertex array object and the calls `AddVertexBuffer` makes |
| `mesh.dfy` | `Mesh` | `SubMesh` index packing and `StaticMesh` |

Single-precision floats are modelled as `real`. The library routines the
gizmo calls are left uninterpreted; they are fields of the `Glm` and
`Trig` records, which the caller supplies:

- `glm::normalize`, `glm::length`, `glm::inverse`, `glm::rotate`;
- `acos`, `cos`, `sin`, `atan2`.

The mouse position and the left button state are plain inputs to
`Manipulate`. So is the camera ray that `ComputeCameraRay` unprojects.

Effects on OpenGL become entries appended to `GlContext.calls`:

- bind calls;
- attribute enables and `glVertexAttribPointer` set-ups;
- failed `assertm` checks.

New object names come from `GlContext.nextName`.

## Model

| member | source | states |
|---|---|---|
| Base.TruncateU32 | src/Mesh.h:10 | a `size_t` stored into a `uint32_t` keeps its value modulo 2^32, and is unchanged below 2^32 |
| OpenGL.GlContext.GenName | src/VertexArray.cpp:7 | each created object gets a name no earlier creation returned (the counter advances by one); no call is traced |
| GizmoMath.IntersectionIsOnPlane | src/Gizmo.cpp:262-273 | IntersectRayPlane returns exactly -1 when the absolute value of the plane normal's dot product with the ray direction is below FLT_EPSILON; otherwise the ray point at the returned parameter satisfies the plane equation |
| GizmoMath.IntersectionIsUnique | src/Gizmo.cpp:262-273 | for a non-parallel ray, a parameter puts the ray point on the plane if and only if it is the one IntersectRayPlane returns |
| GizmoMath.DotAlongRay | src/Gizmo.cpp:264-265 | the plane's dot product with a ray point is affine in the ray parameter |
| GizmoMath.IntersectRayPlane | src/Gizmo.cpp:262-273 | -1 when the plane normal is within FLT_EPSILON of orthogonal to the ray; otherwise the parameter t with t times (normal . direction) = w - normal . origin, the ray point on the plane |
| GizmoMath.TransformVector | src/Gizmo.cpp:150-160 | the result is the matrix applied to the direction (x, y, z, 0): a linear map of in.xyz through columns 0 to 2 |
| GizmoMath.TransformVectorIgnoresTranslation | src/Gizmo.cpp:150-160 | neither the matrix's column 3 nor in.w affects the result |
| GizmoMath.NdcToScreen | src/Gizmo.cpp:172-175 | NDC x = -1 and x = 1 map to 0 and the window width; y is flipped: NDC y = 1 maps to 0 and y = -1 to the window height |
| GizmoMath.MouseToNdc | src/Gizmo.cpp:187-188 | the window's left and right edges map to NDC x = -1 and 1; its top row to NDC y = 1 and its bottom row to y = -1 |
| GizmoMath.WorldToScreen | src/Gizmo.cpp:164-178 | needs clip w other than 0; returns z = w = 0 and the screen mapping of the perspective-divided clip x, y |
| GizmoMath.WorldToScreenMouseRoundTrip | src/Gizmo.cpp:164-188 | for a non-empty window, the mouse mapping of ComputeCameraRay takes worldToScreen's pixel back to the point's NDC coordinates |
| GizmoMath.ScreenNdcRoundTrip | src/Gizmo.cpp:186-188 | the mouse-to-NDC mapping of ComputeCameraRay inverts worldToScreen's NDC-to-screen mapping |
| GizmoMath.NdcScreenRoundTrip | src/Gizmo.cpp:186-188 | and the other way round: every pixel is the screen image of the NDC point the mouse mapping gives it |
| GizmoMath.NdcToScreenMonotone | src/Gizmo.cpp:174-175 | pixel x grows with NDC x and pixel y shrinks as NDC y grows |
| GizmoMath.Clamp | src/Gizmo.cpp:351 | the clamped cosine lies in [-1, 1]; values inside are unchanged, values outside go to the nearer bound |
| GizmoMath.GizmoCenter | src/Gizmo.cpp:249-257 | the gizmo centre computed in setUpContext (scale by 0.5 / w, shift by 0.5, flip y, scale to pixels) is the NDC-to-screen mapping of the projected model origin |
| GizmoMath.CenterOfClip | src/Gizmo.cpp:249-257 | the same for any clip position with w other than 0 |
| GizmoMath.GizmoCenterIsProjectedOrigin | src/Gizmo.cpp:249-257 | the gizmo centre is where worldToScreen puts the model origin |
| Gizmo.ScaleColumns | src/Gizmo.cpp:381 | glm::scale leaves the translation column alone |
| Gizmo.RemoveScale | src/Gizmo.cpp:205-221 | the scale-free matrix keeps the translation with w = 1 and has w = 0 in its basis columns |
| Gizmo.SplitScaleRoundTrip | src/Gizmo.cpp:205-229 | for an affine matrix whose basis columns are their normalised selves times their lengths, scaling the columns of RemoveScale by GetScaleFromMatrix gives the matrix back (as the drag output does at src/Gizmo.cpp:381) |
| Gizmo.ScaleAndRotationIgnoreTranslation | src/Gizmo.cpp:205-229 | GetScaleFromMatrix and the basis of RemoveScale do not depend on the translation column, which RemoveScale copies with w = 1 |
| Gizmo.PickPlane | src/Gizmo.cpp:289-290 | the plane has the normalised plane normal in xyz; when that is a direction (w = 0), the model centre lies on the plane |
| Gizmo.AxisHitIsScreenDistance | src/Gizmo.cpp:289-332 | a ring is hit exactly when the intersection is not behind the centre in view depth (up to FLT_EPSILON), the ideal ring point projects with clip w other than 0, and the glm length of the difference between worldToScreen's pixel for that point and the mouse (y negated) is below 15 |
| Gizmo.HoverOffset | src/Gizmo.cpp:306-324 | the pixel difference of the hover test is worldToScreen's x difference to the mouse and the negated y difference |
| Gizmo.AngleCosine | src/Gizmo.cpp:351 | the cosine handed to acos lies in [-1, 1] and is the dot product itself whenever that already does |
| Gizmo.SignedAngleIgnoresDistance | src/Gizmo.cpp:365-369 | the drag angle depends only on the direction of the hit point from the centre: scaling it by any positive factor (under which glm::normalize is invariant) leaves the angle unchanged |
| Gizmo.SignedAngleSides | src/Gizmo.cpp:365-369 | two positions with the same cosine on opposite sides of the reference get opposite angles |
| Gizmo.RotationAxis | src/Gizmo.cpp:372-373 | the rotation axis is the normalised inverse of the drag-start model applied to the drag plane normal as a direction |
| Gizmo.RotationAxisIgnoresPlaneDistance | src/Gizmo.cpp:372-373 | the plane's w does not reach the rotation axis |
| Gizmo.FrameOf | src/Gizmo.cpp:233-247 | setUpContext fixes the window size to 1200 x 800 |
| Gizmo.FrameKeepsTranslation | src/Gizmo.cpp:205-221 | the scale-free model keeps the edited matrix's translation with w = 1 and has w = 0 in its basis columns; rescaling it keeps the translation |
| Gizmo.AxisHits | src/Gizmo.cpp:286-333 | the hover loop runs one test per plane normal, three in all |
| Gizmo.HoverType | src/Gizmo.cpp:285-333 | `type` after the loop is 0 exactly when no test passed; otherwise it is 1 + the largest passing index, so it is at most 3 |
| Gizmo.HoverAfter | src/Gizmo.cpp:285-333 | after running n of the tests, `type` is at most n |
| Gizmo.HoverAfterIsHoverType | src/Gizmo.cpp:285-333 | the loop's value (type reset to 0, then overwritten by each passing test in order) is the last-hit value of the tests it ran |
| Gizmo.HoverDistanceIsScreenDistance | src/Gizmo.cpp:310-325 | the hover test's pixel difference (NDC y upwards, mouse y flipped) has worldToScreen's x difference and the negated y difference, so the same length |
| Gizmo.NextDragState | src/Gizmo.cpp:336-358 | while not dragging, mainType := type; a drag starts only on a pressed button over a hovered ring; a drag keeps mainType, also on release; release ends the drag and clears type but not mainType |
| Gizmo.HoverWithoutButtonIsIdempotent | src/Gizmo.cpp:336-340 | with the button up and no drag, repeating a frame with the same hover result changes nothing |
| Gizmo.DragDeltas | src/Gizmo.cpp:375-385 | a drag of n frames hands out n deltas; the recurrence (each frame turns by its angle minus the origin, then makes its angle the origin) is DragFrame's ensures, which HoldDrag ties to it |
| Gizmo.DragDeltasTelescope | src/Gizmo.cpp:375-385 | because each frame makes its angle the new origin, the deltas of a drag add up to the last angle minus the starting origin |
| Gizmo.DragDeltasAppend | src/Gizmo.cpp:375-385 | one more frame adds one delta: its angle minus the previous frame's angle, or minus the origin for the first frame |
| Gizmo.StartDrag | src/Gizmo.cpp:339-356 | a drag starts on the pressed ring's plane (plane normal mainType - 1), records the current model and keeps rotationAngle |
| Gizmo.StartFrameTurnsByZero | src/Gizmo.cpp:345-369 | the frame that starts a drag turns by zero: its angle is measured from the same hit point as the origin angle |
| Gizmo.Context.constructor | src/Gizmo.cpp:26-28 | the context starts with no drag, type and mainType 0 and zero angles |
| Gizmo.Context.SetUpContext | src/Gizmo.cpp:233-260 | the frame fields are recomputed from view, projection, matrix and the camera ray; nothing else changes |
| Gizmo.Context.UpdateHover | src/Gizmo.cpp:285-333 | the hover loop leaves HoverAfter(3) of the three tests in `type` and changes nothing else |
| Gizmo.Context.DragFrame | src/Gizmo.cpp:360-394 | both angles become the current drag angle; delta is the rotation by (angle - old origin) about the drag plane normal in the drag-start model's local space; the output matrix is delta with the drag-start translation, rescaled; release ends the drag and clears type |
| Gizmo.Context.HoldDrag | src/Gizmo.cpp:360-394 | successive frames of a drag with the button held hand out exactly DragDeltas of their drag angles from the drag's origin angle; the drag stays on, and both angles end at the last frame's angle (only the drag block runs: setUpContext and the hover update are not run between frames) |
| Gizmo.Context.Manipulate | src/Gizmo.cpp:275-397 | the state follows NextDragState of the hover result; outputs are written exactly when a drag was running or starts now (release frame included), and the drag fields change only then; the output translation is the drag-start model's |
| GizmoRings.AxisPositionInPlane | src/Gizmo.cpp:411-413 | the permuted point has 0 in coordinate 2 - axis, the model column that is plane normal `axis` of the hover test, and keeps the squared radius |
| GizmoRings.AxisPosition | src/Gizmo.cpp:411-413 | x lands in coordinate (3 - axis) mod 3, y in (4 - axis) mod 3, and 0 in coordinate 2 - axis |
| GizmoRings.CameraDirectionLocal | src/Gizmo.cpp:400-401 | the local camera direction is the inverse model applied, as a direction, to the normalised vector from the camera to the model centre |
| GizmoRings.AngleStartFromProjectedCamera | src/Gizmo.cpp:404-413 | angleStart reads the camera direction at the coordinates where axisPos puts x and y, so it is a quarter turn past the angle of the camera direction's projection onto the ring plane |
| GizmoRings.OntoRingPlane | src/Gizmo.cpp:404-413 | the projection onto the ring plane has 0 along that ring's plane normal |
| GizmoRings.RingVertices | src/Gizmo.cpp:406-418 | n ring points give 3n floats |
| GizmoRings.RingInPlane | src/Gizmo.cpp:406-418 | every point of the ring of `axis` lies in that ring's plane |
| GizmoRings.RingIndices | src/Gizmo.cpp:77-80 | n segments give 2n indices |
| GizmoRings.RingIndicesJoinNeighbours | src/Gizmo.cpp:77-80 | segment k joins points k and k + 1 |
| GizmoRings.RingIndicesInRange | src/Gizmo.cpp:77-80 | every index names one of the numSegments + 1 points |
| GizmoRings.AxisColor | src/Gizmo.cpp:419-423 | a ring is orange if and only if mainType is not 0 and axis == mainType - 1 (unsigned); every other ring keeps its own colour: red, green, blue for axes 0, 1, 2 |
| GizmoRings.OneRingHighlighted | src/Gizmo.cpp:419-423 | at most one ring is orange |
| GizmoRings.FlatHalfRing | src/Gizmo.cpp:68-75 | init's vertex loop yields the numSegments + 1 points of the half ring at angles 0 to PI in the plane z = 0 |
| GizmoRings.SegmentIndices | src/Gizmo.cpp:77-80 | init's index loop yields the segment pairs (i, i + 1) |
| GizmoRings.HalfRing | src/Gizmo.cpp:406-418 | drawRotationGizmo's vertex loop yields the permuted half ring from angleStart |
| GizmoRings.RingBuffers.constructor | src/Gizmo.cpp:21-22 | three empty vertex lists and three empty index lists |
| GizmoRings.RingBuffers.Init | src/Gizmo.cpp:62-80 | every ring's lists get the flat half ring and its segment indices appended |
| GizmoRings.RingBuffers.DrawRotationGizmo | src/Gizmo.cpp:399-423 | each ring's vertex list is replaced by the half ring from a quarter turn past the camera direction's angle in that ring's plane; index lists are unchanged; ring colours are AxisColor |
| Buffer.ShaderDataTypeSize | src/Buffer.h:12-25 | the size is 0 exactly for None; otherwise 4, 8 or 12, always a multiple of 4 |
| Buffer.ShaderDataTypeToGLType | src/Buffer.h:27-39 | GL_FLOAT exactly for the float kinds, GL_INT exactly for the integer kinds, 0 exactly for None |
| Buffer.NewBufferAttribute | src/Buffer.h:48-49 | keeps type and normalized, takes the size from the size table and sets offset 0 |
| Buffer.GetComponentCount | src/Buffer.h:51-63 | 0 exactly for None, otherwise 1 to 3; the byte size is 4 times the component count |
| Buffer.BufferLayout.Default | src/Buffer.h:71 | a default layout has no attributes |
| Buffer.BufferLayout.FromList | src/Buffer.h:72-74 | keeps the attributes in order; the stride is their total size modulo 2^32 (0 for an empty list), so the layout is in its built state (Valid) |
| Buffer.BufferLayout.CalculateOffsetAndStride | src/Buffer.h:86-94 | the stride becomes the sum of the sizes modulo 2^32, establishing Valid; the stored attributes, offsets included, are left as they were |
| Buffer.BufferLayout.GetStride | src/Buffer.h:76 | for a layout in its built state (Valid: the stride is the total size of its attributes modulo 2^32), the byte size of a whole vertex modulo 2^32 |
| Buffer.PositionAndUvOverlap | src/Buffer.h:89-90 | for (Float3, Float2), the second attribute's stored offset lies inside the first attribute's bytes, while the intended offsets are 0 and 12 |
| Buffer.BufferLayout.StoreRunningOffsets | src/Buffer.h:86-94 | the corrected loop stores each attribute's running offset and computes the same stride; the layout is Valid afterwards |
| Buffer.RunningOffsetsKeepSizes | src/Buffer.h:86-94 | storing the running offsets leaves the total size, so the stride of the corrected layout still matches its attributes |
| Buffer.SizeSumOfPrefix | src/Buffer.h:91-92 | the running total over the first k attributes ignores what follows them |
| Buffer.WithRunningOffsets | src/Buffer.h:86-94 | the corrected attribute list has one entry per attribute |
| Buffer.RunningOffsetIsPrefixSum | src/Buffer.h:86-94 | corrected attribute i keeps type, size and flag, at the sum of the sizes before it |
| Buffer.AttributeEndsBefore | src/Buffer.h:86-94 | attribute i ends no later than the prefix sum at any later position |
| Buffer.CorrectedAttributesAreDisjoint | src/Buffer.h:86-94 | with the corrected offsets the attributes lie one after another without overlap, inside the stride |
| Buffer.VertexBuffer.constructor | src/Buffer.cpp:13-18 | a new buffer gets a fresh name, holds the vertices and starts with an empty default layout |
| Buffer.VertexBuffer.Bind | src/Buffer.cpp:24-26 | binds the buffer as the array buffer |
| Buffer.VertexBuffer.SetLayout | src/Buffer.h:113 | replaces the layout and changes nothing else |
| Buffer.IndexBuffer.constructor | src/Buffer.cpp:51-60 | a new buffer gets a fresh name and holds the bytes, count and format it is given |
| Buffer.IndexBuffer.Bind | src/Buffer.cpp:66-68 | binds the buffer as the element array buffer |
| VertexArray.SlotsIncrease | src/VertexArray.cpp:34-53 | slot-taking attributes get distinct slots, later ones higher |
| VertexArray.SlotsAreDense | src/VertexArray.cpp:34-53 | the slots leave no gap: each slot number below the count belongs to one attribute |
| VertexArray.LayoutAttribsUseStride | src/VertexArray.cpp:36-51 | for any layout, every `glVertexAttribPointer` call for a buffer carries the layout's stride, 2 or 3 components (only Float2 and Float3 take a slot), GL_FLOAT and the stored offset of one of the layout's attributes |
| VertexArray.ZeroOffsetsConfigureZero | src/VertexArray.cpp:36-51 | with the all-zero offsets the layout loop leaves (src/Buffer.h:89-90), every attribute is configured at byte 0 of the vertex |
| VertexArray.VertexArray.constructor | src/VertexArray.cpp:6-8 | a new vertex array gets a fresh name, slot counter 0, no vertex buffers and no index buffer |
| VertexArray.VertexArray.Bind | src/VertexArray.cpp:14-16 | binds this vertex array |
| VertexArray.VertexArray.Unbind | src/VertexArray.cpp:18-20 | binds vertex array 0 |
| VertexArray.VertexArray.AddVertexBuffer | src/VertexArray.cpp:22-81 | binds the array and the buffer, then makes the calls of each attribute in order, with slots numbered on from the counter; the counter advances by the number of Float2/Float3 attributes; the buffer is appended last |
| VertexArray.VertexArray.AddAttributes | src/VertexArray.cpp:27-78 | the attribute loop appends the calls of every attribute in order and advances the counter by the number of slot-taking attributes |
| VertexArray.VertexArray.AddAttribute | src/VertexArray.cpp:29-77 | a Float2 or Float3 attribute enables the current slot and configures it with component count, GL type, GL_TRUE iff normalized, the stride and the stored offset, then advances the counter by one; other types fail the "Not implemented" or "Unknown ShaderDataType!" assertion and leave it |
| VertexArray.VertexArray.SetIndexBuffer | src/VertexArray.cpp:83-87 | binds the array and the index buffer and makes it the current one, changing nothing else |
| Mesh.Le16RoundTrip | src/Mesh.h:17 | reading a 16-bit index back from its two little-endian bytes gives the index |
| Mesh.FromLe16RoundTrip | src/Mesh.h:25 | any two bytes are the encoding of the index read from them |
| Mesh.Le32RoundTrip | src/Mesh.h:12 | reading a 32-bit index back from its four little-endian bytes gives the index |
| Mesh.FromLe32RoundTrip | src/Mesh.h:26 | any four bytes are the encoding of the index read from them |
| Mesh.Pack16 | src/Mesh.h:16-17 | n 16-bit indices occupy 2n bytes |
| Mesh.Unpack16 | src/Mesh.h:25 | 2n bytes read as n 16-bit indices |
| Mesh.Pack32 | src/Mesh.h:11-12 | n 32-bit indices occupy 4n bytes |
| Mesh.Unpack32 | src/Mesh.h:26 | 4n bytes read as n 32-bit indices |
| Mesh.Unpack16Pack16 | src/Mesh.h:15-17 | reading the packed bytes as 16-bit indices gives the original indices |
| Mesh.Pack16Unpack16 | src/Mesh.h:25 | packing what a byte buffer reads as gives the buffer back |
| Mesh.Unpack32Pack32 | src/Mesh.h:10-12 | reading the packed bytes as 32-bit indices gives the original indices |
| Mesh.Pack32Unpack32 | src/Mesh.h:26 | packing what a byte buffer reads as gives the buffer back |
| Mesh.CopyBytes | src/Mesh.h:11-12 | the resized buffer holds a copy of every source byte |
| Mesh.NewSubMesh32 | src/Mesh.h:10-13 | format UInt32, the material index kept, count = number of indices (32-bit), 4 bytes per index in order; getIndexData32 gives the indices back |
| Mesh.NewSubMesh16 | src/Mesh.h:15-18 | format UInt16, the material index kept, count = number of indices (32-bit), 2 bytes per index in order; getIndexData16 gives the indices back |
| Mesh.GetIndexData16 | src/Mesh.h:25 | the bytes read as 16-bit indices: half as many, and they pack back to the same bytes |
| Mesh.GetIndexData32 | src/Mesh.h:26 | the bytes read as 32-bit indices: a quarter as many, and they pack back to the same bytes |
| Mesh.GetIndexData8 | src/Mesh.h:27 | exactly the packed bytes, count times the format width of them |
| Mesh.GetCount | src/Mesh.h:29 | for a consistent submesh (count and bytes agree), the number of indices its bytes hold modulo 2^32 |
| Mesh.StaticMesh.constructor | src/Mesh.cpp:4-19 | needs one submesh and a stride of 4 or more; copies vertices and submeshes; the vertex count is the float count divided by the floats per vertex; takes 2 + (number of submeshes) fresh names, in creation order (vertex array, vertex buffer, index buffers); index buffer i has submesh i's bytes, count and format; the vertex array holds the vertex buffer with the layout, its slots and index buffer 0; the GL trace gains exactly AddVertexBuffer's binds and attribute calls, then SetIndexBuffer's two binds |
| Mesh.StaticMesh.BindSubMesh | src/Mesh.cpp:21 | index buffer `index` becomes the current one, with that submesh's bytes, and nothing else changes |
| Mesh.StaticMesh.SubMeshCount | src/Mesh.h:37 | the number of submeshes modulo 2^32, which is the number of index buffers |
| Mesh.StaticMesh.GetSubMesh | src/Mesh.cpp:23 | submesh `index` unchanged, with the same bytes and count as index buffer `index` |

## Left out

- GL uploads, uniforms, state switches and draws are not traced: `glBufferData` and `glBufferSubData`, `glUniform*`, `glEnable` and `glDisable`, `glLineWidth`, `glDrawElements` and `glDrawArrays`. This covers `init`, `drawRotationGizmo` and src/Buffer.cpp.
- Buffer.VertexBuffer.constructor: does not trace the bind, upload and unbind of src/Buffer.cpp:14-17. The constructor states that no call is made.
- Buffer.IndexBuffer.constructor: does not trace the bind and upload of src/Buffer.cpp:52-59.
- The buffer's own copy of the vertex bytes is kept as the vertex sequence itself.
- The gray billboard circle of `init` and `drawRotationGizmo` (src/Gizmo.cpp:104-124, 442-467) is left out: it is trigonometry and GL calls only.
- `DecomposeTransform` (src/Gizmo.cpp:127-147) is left out: it is never called by the core, and it is quaternion and Euler-angle conversion.
- `ComputeCameraRay`'s unprojection through the inverse view-projection matrix is left out. The ray is an input of `Manipulate`; only its mouse-to-NDC mapping is modelled (`MouseToNdc`).
- `gizmoCenter` and `dist` are computed by setUpContext and manipulate but used nowhere. `gizmoCenter`'s formula is modelled as a function (`GizmoCenter`); neither is a field of the context. `drawModel` is also unused and left out.
- Library routines are uninterpreted: normalize, length, inverse, rotate, acos, cos, sin and atan2. So the model proves nothing about rotation matrices or ring radii beyond what the code computes with them.
- `glm::scale` is written out (`ScaleColumns`).
- Float rounding is not modelled: floats are `real`, so the proofs do not cover rounding error.
- FLT_EPSILON is the exact value 2^-23.
- Hover detection is modelled as written. The source marks it as not working well, and the model does not claim it picks the right ring.
- The mouse button is modelled as one boolean, the left button state. IsMouseButtonPressed and IsMouseButtonReleased read the same button state, so "released" means "not pressed".
- The gizmo context is grouped into three parts: the per-frame fields (`Frame`), the hover/drag state (`DragState`) and the drag fields (`Drag`).
- `manipulate` is split into helper methods: `SetUpContext`, `UpdateHover` and `DragFrame`.
- The `*matrix` and `*delta` outputs are modelled as an optional result.
- `init` and `drawRotationGizmo` are split the same way: the inner vertex and index loops are helper methods whose results are appended.
- The shared ring vectors are the fields of `RingBuffers`; the VAO, VBO and EBO arrays of the rings are left out.
- `assertm(false, …)` is modelled as an `AssertionFailed` trace entry. A release build goes on, as modelled; a debug build aborts there.
- `getShaderDataTypeSize`, `ShaderDataTypeToGLType` and `getComponentCount` (src/Buffer.h:61) fail that assertion for None; this is not traced, since they are pure functions returning 0.
- VertexArray.cpp:55-65 handles `ShaderDataType::Float4`, which is not an enumerator of the `ShaderDataType` declared in src/Buffer.h:10. That case has no counterpart in the model.
- Buffer.BufferLayout.StoreRunningOffsets: the running offset is unbounded; the source's `uint32_t offset` (src/Buffer.h:87) wraps once a vertex exceeds 4 GiB.
- VertexArray.VertexArray.AddVertexBuffer: the slot counter is a `nat`; the 32-bit wrap-around of `m_vertexBufferIndex` is not modelled.
- Buffer.BufferLayout.FromList calls the loop as written (`CalculateOffsetAndStride`), as the source does. Every layout the model builds therefore keeps offset 0 in each attribute. The corrected loop (`StoreRunningOffsets`) is the one whose properties are proved; see Findings.
- Layouts are shared references in place of the copies `SetLayout` and the `StaticMesh` constructor make. Nothing in the modelled program changes a layout after it is built, so the two cannot be told apart; `StoreRunningOffsets` is the corrected loop, and no modelled caller uses it.
- The default `BufferLayout` constructor leaves the stride uninitialised. The model leaves it unconstrained.
- `VertexBuffer(uint32_t size)`, `SetData`, the unbind methods and `IndexBuffer::getCount` are left out: nothing in the core calls them (the mesh takes the count from the submesh, `Mesh.GetCount`).
- The `uint32_t*` and `uint16_t*` IndexBuffer constructors of src/Buffer.cpp are left out. The only one used (src/Buffer.cpp:51-60) is modelled. src/Buffer.h:120-132 declares a different signature and no format, and the code is followed.
- `StaticMesh::mIndexFormat` is never initialised and never read, so it is left out.
- `StaticMesh` fills `mIbo` by appending rather than by `resize` then assignment by index; the result is the same.
- Destructors and the release of GL objects are left out.
- Base.h, which declares `IndexType` and `Ref`, is not part of this model. `Ref` is modelled as an object reference.

## Findings

| source | as written | input that shows it | evidently intended | confidence | as-written member | corrected member |
|---|---|---|---|---|---|---|
| src/Buffer.h:89-90 | `for (BufferAttribute attrib : m_attributes)` copies each attribute, so `attrib.offset = offset` writes a copy; every stored offset stays 0 | the layout `{Float3, Float2}`: the Float2 attribute's stored offset is 0, inside the Float3 attribute's 12 bytes, so the vertex array points both attributes at byte 0 of the vertex | iterate by reference so that attribute i's offset is the sum of the sizes before it (0 and 12 here) | high; not executed | Buffer.BufferLayout.CalculateOffsetAndStride, Buffer.PositionAndUvOverlap | Buffer.BufferLayout.StoreRunningOffsets, Buffer.CorrectedAttributesAreDisjoint |
