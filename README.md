# PTFTube in Dafny

A model of `PTFTube`, the class that extrudes a circular profile along a 3D
path using parallel-transport frames, and of the four views it generates
(the path, a wireframe, the frame slices and a closed triangle mesh).

- `geometry.dfy` (module `Geometry`) holds exact `real` versions of the
  `osg::Vec3f` and `osg::Matrix` operations the class uses: dot and cross
  product, `normalize`, `translate` and the row-vector matrix product. The
  numerical routines that cannot be written exactly are fields of a
  `Kernel` value supplied by the caller: `sqrt` (inside `length`), `acos`,
  `cos`, `sin` and `osg::Matrix::rotate`.
- `frames.dfy` (module `Frames`) holds the pure frame computations
  `firstFrame`, `nextFrame`, `lastFrame` and `getNormal`. It also holds the
  fold `build` performs, as the functions `Chain` and `FrameSeq`.
- `sampling.dfy` (module `Sampling`) holds what the constructor derives from
  its arguments: the tangents of `extractTangents` and the circle of
  `makeCircleProfile`.
- `meshes.dfy` (module `Meshes`) describes the output of the views
  symbolically. Every vertex is named by what is transformed to produce
  it:
  - a path point;
  - profile point `ci` placed by frame `fi`;
  - a slice corner placed by frame `fi`.

  Every normal is named by the three vertices `getNormal` is applied to, in
  the order of the call. The counts, the order and the connectivity of the
  output are therefore exact.
- `tube.dfy` (module `Tube`) holds the class `PTFTube`. Its fields are
  `ps`, `prof`, `ts` and `frames` (`m_Ps`, `m_prof`, `m_Ts`, `m_frames`).
  - The constructor, `ExtractTangents`, `MakeCircleProfile` and `Build` are
    methods that change those fields with the same loops as the source.
  - The four `Generate*` methods have no `modifies` clause. They change no
    field, as the source's `const` promises.
  - Each method is proved against the specification function of its
    module.

## Model

| member | source | states |
|---|---|---|
| Tube.PTFTube.constructor | libPTFTube/PTFTube.h:12-16 | The path is copied. The tangents are `TangentSeq` of the path and the profile is `CircleProfile(radius, numProfPts)`. No frames exist until `build` (`frames == []`). The class invariant `Valid` holds. |
| Tube.PTFTube.ExtractTangents | libPTFTube/PTFTube.cpp:256-274 | Replaces the tangents by exactly one per path point, equal to `TangentSeq`, in path order. Since the path is unchanged, the class invariant `Valid` is kept. |
| Tube.PTFTube.MakeCircleProfile | libPTFTube/PTFTube.cpp:276-284 | Replaces the profile by `CircleProfile(radius, segments)`. The defaults are radius 0.25 and 16 segments. The class invariant `Valid` is kept. |
| Tube.PTFTube.Build | libPTFTube/PTFTube.cpp:16-30 | Previous frames are discarded. The result is `FrameSeq(ps, ts)`: empty for fewer than 3 points, otherwise exactly one frame per point. When the tangents are those of the path, the class invariant holds afterwards. |
| Tube.PTFTube.FramesOnPath | libPTFTube/PTFTube.cpp:16-30 | Under the class invariant, the frames are either not built or one per path point on a path of at least 3 points. With linear rotations, frame i is affine with origin at path point i. |
| Tube.ChainFrames | libPTFTube/PTFTube.cpp:18-29 | The frame buffer `build` fills ends equal to `FrameSeq(ps, ts)`. |
| Tube.StepFrames | libPTFTube/PTFTube.cpp:23-27 | After the `nextFrame` loop, slots 0 .. n-1 hold `Chain(ps, ts, n)`: slot i is `nextFrame` of slot i-1 with points i-1, i and tangents i-1, i. |
| Tube.PTFTube.GeneratePath | libPTFTube/PTFTube.cpp:32-52 | One line strip through path points 0 .. n-1 in order, with the path color. |
| Tube.PTFTube.GenerateWireFrame | libPTFTube/PTFTube.cpp:54-102 | No geometry exactly when the frame count differs from the path length, there are fewer than 3 frames, or the profile is empty. Otherwise one line strip of s + 6 s (n-1) vertices, equal to `WireFrameView`. Under the class invariant, built frames and a non-empty profile always give the strip. |
| Tube.PTFTube.GenerateFrameSlices | libPTFTube/PTFTube.cpp:104-159 | No geometry exactly when the path or the frames are empty. Otherwise a line list of 8 n vertices and a quad list of 4 n vertices, equal to `SlicesView`. |
| Tube.PTFTube.GenerateTriMesh | libPTFTube/PTFTube.cpp:161-254 | Same guard as the wireframe. Otherwise one triangle list with 3 (2 max(s-2,0) + 2 s (n-1)) vertices and as many normals, equal to `TriMeshView`, whose last cap carries the source's `getNormal(P0, P1, P2)`. Under the class invariant, built frames and a non-empty profile always give the mesh. |
| Tube.EmitWireStrip | libPTFTube/PTFTube.cpp:67-94 | The wireframe's loops emit exactly `WireVertices(s, n)`: the ring of frame 0, then one band per segment. |
| Tube.EmitBand | libPTFTube/PTFTube.cpp:76-93 | The inner loop of segment i emits `BandStrip(s, i, s)`: for each ci, P0, P3, P1 then P1, P3, P2. |
| Tube.EmitMesh | libPTFTube/PTFTube.cpp:173-243 | The three loops emit the corners and normals of `MeshTriangles(s, n)`: the first cap, the side and the last cap, in that order. The last cap is as the source writes it, with normal `getNormal(P0, P1, P2)` (see Findings). |
| Tube.EmitFirstCap | libPTFTube/PTFTube.cpp:177-192 | The first cap's loop emits the corners and normals of `FirstCap`. |
| Tube.EmitSide | libPTFTube/PTFTube.cpp:194-227 | The side's nested loops emit the corners and normals of `Side` over the n-1 segments. |
| Tube.EmitLastCap | libPTFTube/PTFTube.cpp:228-243 | The last cap's loop emits the corners and normals of `LastCapAsWritten`: P1, P0, P2 with normal `getNormal(P0, P1, P2)` on the last frame, for ci from 1 to s-2. |
| Tube.TubeTranslates | libPTFTube/PTFTube.cpp:256-274 | Moving the whole path by `c` leaves the tangents unchanged and moves every built frame by `c`, with its basis unchanged (given linear rotations). |
| Tube.StraightTubeNoTwist | libPTFTube/PTFTube.cpp:315-343 | For a path of at least 3 points on one line, every built frame has the first frame's basis: nothing rotates and nothing twists. |
| Sampling.TangentAt | libPTFTube/PTFTube.cpp:259-272 | Tangent i lies along the forward difference at index 0, the central difference P[i+1]-P[i-1] inside, and the backward difference at the last index. It is non-zero when that difference is. At both ends it points the same way as the difference; inside it does too when `sqrt` is never negative. |
| Tube.TangentOfPoint | libPTFTube/PTFTube.cpp:261-271 | The body of the tangent loop for point i computes `TangentAt(i)`: forward, central or backward difference, normalized. |
| Sampling.TangentSeq | libPTFTube/PTFTube.cpp:256-274 | Exactly one tangent per path point; tangent i is `TangentAt(i)`. |
| Sampling.TangentTranslates | libPTFTube/PTFTube.cpp:259-272 | Tangents depend only on differences of points. A translated path is just as well defined and has the same tangents. |
| Sampling.TangentOnLine | libPTFTube/PTFTube.cpp:259-272 | On a straight path every tangent is a multiple of the line's direction. |
| Sampling.ProfilePoint | libPTFTube/PTFTube.cpp:279-282 | Every profile point has z = 0. |
| Sampling.CircleProfile | libPTFTube/PTFTube.cpp:276-284 | Exactly `segments` points (none when `segments <= 0`), every one with z = 0. |
| Sampling.ProfileAnglesEven | libPTFTube/PTFTube.cpp:278-281 | Point i uses angle i * 2 E_PI / segments. The angles are evenly spaced, start at 0, and `segments` steps make 2 E_PI. |
| Sampling.ProfileOnCircle | libPTFTube/PTFTube.cpp:279-282 | When cos^2 + sin^2 = 1, every profile point is at distance `radius` from the frame origin. Point 0 is (radius, 0, 0) when cos 0 = 1 and sin 0 = 0. |
| Frames.FallbackAxis | libPTFTube/PTFTube.cpp:296-297 | The chosen index i has abs(t[i]) <= abs(t[j]) for every j. |
| Frames.FallbackNotParallel | libPTFTube/PTFTube.cpp:295-303 | For a non-zero tangent, the fallback axis is not parallel to it, so `t ^ v` is not zero. |
| Frames.FirstFrame | libPTFTube/PTFTube.cpp:286-313 | The matrix has last column (0,0,0,1) and row 3 is the first point. Row 2 is the normalized P1-P0. Row 0 is row 2 crossed with row 1 (b = t ^ n). Unless `t ^ (P2-P0)` normalizes to length 0 (collinear points), row 1 lies along `t ^ (P2-P0)`, the same way round, and is perpendicular to P2-P0. |
| Frames.FirstFrameOrthogonal | libPTFTube/PTFTube.cpp:288-305 | Rows b, n and t are mutually orthogonal. |
| Frames.FirstFrameNondegenerate | libPTFTube/PTFTube.cpp:291-304 | When P1 != P0, the tangent and the normal are non-zero, including for collinear points. |
| Frames.FirstFrameCollinear | libPTFTube/PTFTube.cpp:294-303 | Collinear first points take the fallback branch: the normal is `t ^ UnitAxis(FallbackAxis(t))`, normalized. |
| Frames.Clamp | libPTFTube/PTFTube.cpp:323-327 | The dot product is clamped into [-1, 1]; a value already inside is left unchanged. |
| Frames.TurnBetween | libPTFTube/PTFTube.cpp:317-342 | The translation-only branch is taken exactly when a tangent has length 0, the axis has length 0, or the angle is 0. Otherwise the rotation uses acos of the clamped dot product and the cross-product axis. |
| Frames.ParallelTangentsSlide | libPTFTube/PTFTube.cpp:320-342 | Parallel tangents always take the translation-only branch. |
| Frames.SlideKeepsBasis | libPTFTube/PTFTube.cpp:339-342 | The translation-only product `prev * translate(curr - prev)` keeps the rotation block and moves the origin by the step. |
| Frames.LastFrame | libPTFTube/PTFTube.cpp:345-348 | `lastFrame` always has the translation-only form: the previous frame with its origin moved by the last step. |
| Frames.NextFrame | libPTFTube/PTFTube.cpp:315-343 | With linear rotations, either branch keeps a frame affine and carries its origin from the previous point to the current one. |
| Frames.NextFrameRotatesBasis | libPTFTube/PTFTube.cpp:332-337 | In the rotating branch, the new frame's rows b, n and t are those of `prev * R`, for the rotation R of `TurnBetween`: the translations `Ti` and `Tj` do not touch the basis. |
| Frames.FirstFrameTranslates | libPTFTube/PTFTube.cpp:286-313 | Moving the first three points by c moves the first frame by c and keeps its basis. |
| Frames.StepTranslates | libPTFTube/PTFTube.cpp:315-343 | Moving the previous frame and both points by c moves the next frame by c. |
| Frames.GetNormal | libPTFTube/PTFTube.cpp:350-357 | The normal points the same way as (P1-P0) ^ (P2-P0), and is zero exactly when that cross product is (parallel edges). |
| Frames.GetNormalPerpendicular | libPTFTube/PTFTube.cpp:350-357 | The normal is perpendicular to both edges from P0. |
| Frames.GetNormalOrder | libPTFTube/PTFTube.cpp:350-357 | Swapping P1 and P2 negates the normal. |
| Frames.GetNormalRotate | libPTFTube/PTFTube.cpp:350-357 | A cyclic rotation of the three points keeps the normal. |
| Frames.Chain | libPTFTube/PTFTube.cpp:22-27 | After m loop iterations of `build`, m slots are filled. |
| Frames.FrameSeq | libPTFTube/PTFTube.cpp:16-30 | The frames `build` leaves: none for fewer than 3 points, otherwise exactly n. |
| Frames.ChainPrefix | libPTFTube/PTFTube.cpp:24-27 | A slot of the loop never changes once written. |
| Frames.FramesRecurrence | libPTFTube/PTFTube.cpp:22-28 | frames[0] = firstFrame(P0, P1, P2). For 1 <= i <= n-2, frames[i] = nextFrame(frames[i-1], P[i-1], P[i], T[i-1], T[i]). frames[n-1] = lastFrame(frames[n-2], P[n-2], P[n-1]), overwriting the loop's value. |
| Frames.FramesAnchored | libPTFTube/PTFTube.cpp:16-30 | With linear rotations, every built frame is affine and its origin is its path point. |
| Frames.FramesTranslate | libPTFTube/PTFTube.cpp:16-30 | Translating the path translates every built frame and keeps every basis. |
| Frames.FramesStraight | libPTFTube/PTFTube.cpp:16-30 | When all tangents are multiples of one direction, every built frame, the last included, has the first frame's basis. |
| Meshes.NextIndex | libPTFTube/PTFTube.cpp:77-78 | `idx1` is (ci + 1) mod s and stays below s. |
| Meshes.Ring | libPTFTube/PTFTube.cpp:69-73 | The first frame's profile: s vertices, vertex ci being profile point ci on frame 0. |
| Meshes.SideStripCorners | libPTFTube/PTFTube.cpp:76-93 | The wireframe's sextets are, vertex for vertex, the corners of the side triangles. |
| Meshes.WireFrameLayout | libPTFTube/PTFTube.cpp:68-94 | There are s + 6 s (n-1) vertices, starting with the profile ring of frame 0. At s + 6 s i + 6 ci comes (idx0@i, idx0@i+1, idx1@i, idx1@i, idx0@i+1, idx1@i+1), with idx1 = (ci+1) mod s. |
| Meshes.WireFrameInRange | libPTFTube/PTFTube.h:24-34 | Every wireframe vertex is a profile point below s on a frame below n. Nothing wraps from the last frame to the first. |
| Meshes.TriMeshLayout | libPTFTube/PTFTube.cpp:177-243 | There are 2 max(s-2,0) + 2 s (n-1) triangles. The first cap is wound (ci+1, 0, ci) on frame 0 with the normal of (0, ci, ci+1). The last cap is wound (ci, 0, ci+1) on the last frame, also with the normal of (0, ci, ci+1), as the source stores it. |
| Meshes.TriMeshSideAt | libPTFTube/PTFTube.cpp:196-227 | The side quad of ci between frames i and i+1 is the triangles P0-P3-P1 and P1-P3-P2, both with normal `getNormal(P0, P3, P1)`, placed after the first cap. |
| Meshes.TriMeshNormals | libPTFTube/PTFTube.cpp:245-246 | There is one normal per vertex, and a triangle's three vertices share its normal. |
| Meshes.WireTracesMesh | libPTFTube/PTFTube.h:40 | The wireframe, after its first ring, is exactly the side of the triangle mesh between the two caps. |
| Meshes.WindingNormal | libPTFTube/PTFTube.cpp:350-357 | For any placement of the vertices: a triangle whose stored normal follows its drawing order has the normal of its drawn face; one that opposes it has that normal reversed. |
| Meshes.LastCapAsWritten | libPTFTube/PTFTube.cpp:229-243 | The last cap has s-2 triangles (none for s < 2). Triangle t is drawn P1, P0, P2 with P0 = profile point 0 and P1, P2 = points t+1, t+2 on the last frame, and stores `getNormal(P0, P1, P2)`. |
| Meshes.LastCapOpposesWinding | libPTFTube/PTFTube.cpp:229-243 | As written, every last-cap triangle stores the reverse of its face's normal, while every first-cap triangle stores its own. |
| Meshes.CapsFollowWinding | libPTFTube/PTFTube.cpp:178-192 | After the correction, both caps store their face's normal. The corrected last cap differs from the as-written one only in the order of its normal's points. |
| Meshes.CorrectedMeshDiffers | libPTFTube/PTFTube.cpp:173-243 | The corrected mesh has the same length and the same vertices as the mesh the source emits. It differs only in the last cap, where each normal's last two points are swapped: the corrected triangle follows its winding and the as-written one opposes it. |
| Meshes.SideQuadFollowsWinding | libPTFTube/PTFTube.cpp:207-225 | The first triangle of a side quad stores its face's normal, and the second triangle shares it. |
| Meshes.SlicesLayout | libPTFTube/PTFTube.cpp:125-148 | Slice i is the corners (-1,1), (1,1), (1,-1), (-1,-1) of frame i, scaled. Outline line e runs from corner e to corner (e+1) mod 4. |
| Meshes.PathLayout | libPTFTube/PTFTube.cpp:35-36 | The path view has one vertex per path point, in order. |

## Left out

- Sampling.TangentAt: at interior points, the tangent is shown to point along P[i+1]-P[i-1] (rather than against it) only under `SqrtNonNegative`, because `sqrt` is an uninterpreted kernel field.
- Floating point: coordinates are exact reals, so float rounding is not modelled.
- NaN is not modelled. The interior tangent `dt / dt.length()` divides by zero when P[i+1] = P[i-1] (a NaN in the source). The constructor therefore requires `TangentsDefined`.
- A path of exactly one point makes `extractTangents` read past the end. That case is excluded by the same precondition.
- `sqrt`, `acos`, `cos`, `sin` and `osg::Matrix::rotate` are uninterpreted `Kernel` fields. Orthonormality of the frames, unit length of normals, determinant +1 and twist minimisation are not proved. Lemmas that need a property of these routines state it as a precondition (`SqrtOfZero`, `RigidRotations`, `Pythagorean`).
- `Vec3 * Matrix` (placing a profile point or slice corner with a frame) is not computed: vertices are symbolic tags. Normals are tags naming the three vertices `getNormal` receives.
- OpenSceneGraph state is left out: lighting, depth test, blend function, line width, primitive-set ranges, reference counting. Colors are kept as values.
- main.cpp is not part of this model: the viewer, the key handler, the scene switch and the helix sampling.
- Tube.PTFTube.Build: requires only `|ts| == |ps|`, the size `build` indexes. It promises the class invariant only when the tangents are those of the path, which the constructor establishes and nothing else changes. The loop runs on a local buffer in `ChainFrames` and `StepFrames`, which `Build` then stores in the field.
- Tube.PTFTube.GenerateFrameSlices: requires the class invariant `Valid`. The source needs only that `m_frames` is empty or holds one frame per path point, because it reads `m_frames[i]` for every path index; `Valid` implies this (`FramesOnPath`). `Valid` also asks that the tangents be those of the path, which every object the constructor makes has and keeps.
- Tube.PTFTube.GenerateTriMesh: the source fills the first cap, the side and the last cap with three loops in one method. The model runs the same loops in three helper methods (`EmitFirstCap`, `EmitSide`, `EmitLastCap`), called from `EmitMesh`, and concatenates their results.
- Tube.PTFTube.GenerateWireFrame: the source's nested loops run in `EmitWireStrip`, with the inner loop in `EmitBand`; each appends to its own sequence, which the caller concatenates.
- Tube.PTFTube.MakeCircleProfile: the step `2 E_PI / segments` is computed inside the loop rather than once before it. With exact reals the value is the same; the float division by zero for `segments == 0` is never used because the loop does not run.

## Findings

| source | as written | input that shows it | evidently intended | confidence | as-written member | corrected member |
|---|---|---|---|---|---|---|
| libPTFTube/PTFTube.cpp:229-243 | The last cap draws each triangle as P1, P0, P2 but stores `getNormal(P0, P1, P2)`. That is the normal of the opposite winding: for a frame with rows b, n, t (b = t ^ n), it is -t, which points back into the tube. | Any built tube with a profile of at least 3 points, e.g. the default 4-point profile. Every last-cap triangle's stored normal is the negation of its drawn face's normal. | `getNormal(P0, P2, P1)`, the normal of the winding the cap is drawn with, pointing out of the tube like the first cap's normals do. The model's mesh keeps the source's normal; `CorrectedMeshTriangles` is the mesh with this correction. | medium; not executed | Meshes.LastCapOpposesWinding | Meshes.CorrectedMeshDiffers |
