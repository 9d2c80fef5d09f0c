# CG-21 demos in Dafny

A model of the buffer-building and interaction cores of six small OpenGL teaching demos, with proofs about it:

- **InClass04**: a keyboard callback moves a small triangle in steps of 0.2. A step that would push any vertex out of the window is ignored.
- **InClass05**: a 360-point circle and a fixed segment. The circle is drawn as a closed loop of 360 chords. The 359 chords from point i to point i+1 are intersected with the segment's line; the closing chord from point 359 back to point 0 is drawn but never tested. Hits are counted, and the last one is kept as a marker point.
- **InClass07**: a cone of 33 triangles in a four-float vertex buffer. Each frame draws triangle i in colour i mod 6 of a six-colour table.
- **InClass08**: a five-sided cylinder built from a vertex array, an index buffer of two triangles per quad, and texture coordinates.
- **InClass09**: a 32-triangle cone whose normals are rebuilt for flat or smooth shading.
- **InClass10**: a cylinder of 2^N slices (N in [2, 6]) with positions, normals, colours and texture coordinates. The last slice closes the seam.

## Conventions

- **Cosine and sine** are a parameter `Trig` of every operation that uses them. An angle is named by its index: `Angle(step, slices)` stands for 2π·step/slices. So every property proved holds for any pair of functions, and nothing depends on trigonometric identities.
- **A full turn**: a few lemmas are about what the program draws one full turn later. They take as a hypothesis that cos and sin agree at step and at step + slices, for the steps they need (`Geometry.FullTurnAgrees`).
- **Numbers**: floats are reals and int counters are `int`/`nat`. InClass04 counts offsets in whole steps, so unit n means n · 0.2.
- **Buffers** are `seq<real>`. Each fill method builds the floats its loop writes, in the loop's order. Whatever a buffer held beyond the written range is passed in as `prev` (or `blank` in a constructor) and comes back unchanged.
- **Layout**: properties are stated per vertex slot, as "vertex k of triangle or slice i". Accessor functions read three or four floats from the flat array for this.

Modules:

- `Geometry`: angles, vectors, flat-buffer views and the cross product.
- `Results`: `Option` and `Result`.
- `MovingTriangle`: InClass04.
- `CircleLine`: InClass05.
- `ColouredCone`: InClass07.
- `IndexedCylinder`: InClass08.
- `ShadedCone`: InClass09.
- `SubdividedCylinder`: InClass10.

## Model

| member | source | states |
|---|---|---|
| MovingTriangle.KeyCallback | InClass04/InClass04/InClass04.cpp:108-128 | Only a press of ESC or an arrow key changes anything. ESC sets the close flag. An arrow moves at most one axis, by exactly its one step in its own direction or not at all. The colour never changes. A triangle inside the window stays inside. |
| MovingTriangle.InWindowIff | InClass04/InClass04/InClass04.cpp:53-57 | The triangle (0,0.2), (-0.2,-0.2), (0.2,-0.2), shifted by the offsets, lies in [-1,1]² if and only if both offsets lie in [-0.8, 0.8]. |
| MovingTriangle.ClampIsExact | InClass04/InClass04/InClass04.cpp:112-127 | From inside the window, a pressed arrow moves the triangle if and only if the moved triangle is still entirely inside. The guards are neither too strict nor too loose. |
| MovingTriangle.RunStaysInWindow | InClass04/InClass04/InClass04.cpp:108-128 | For any sequence of key events, the triangle never leaves the window and its colour never changes. |
| MovingTriangle.RightEdgeReached | InClass04/InClass04/InClass04.cpp:112-115 | From the start, four RIGHT presses reach X = 0.8, and a fifth is ignored. |
| CircleLine.BuildCircle | InClass05/InClass05/InClass05.cpp:18-24 | Point i of the 720-float buffer is (0.5 cos i°, 0.25 + 0.5 sin i°), for all 360 points. |
| CircleLine.LineAsWritten | InClass05/InClass05/InClass05.cpp:211-213 | The program's coefficients exist exactly when the segment is not vertical. |
| CircleLine.AsWrittenLineThroughEndpointsIff | InClass05/InClass05/InClass05.cpp:210-213 | The program's line passes through the segment's start, or its end, if and only if the segment starts on the x axis. |
| CircleLine.AsWrittenLineMissesRaisedSegment | InClass05/InClass05/InClass05.cpp:211-213 | For the segment (0,1)-(1,2), the program's line does not contain the start point. |
| CircleLine.LineThrough | InClass05/InClass05/InClass05.cpp:210-213 | The corrected line exists exactly for non-vertical segments, and then contains both endpoints. |
| CircleLine.AsWrittenAgreesOnAxisStart | InClass05/InClass05/InClass05.cpp:211-213 | When the segment starts on the x axis, as the hard-coded one does, the program's line and the corrected line are the same. |
| CircleLine.HardCodedSegmentLine | InClass05/InClass05/InClass05.cpp:39-42 | The hard-coded segment is (0,0)-(0.85,0.5). Its line has c = 0 and contains both endpoints, as the comment at the intersection routine says. |
| CircleLine.EvalLerp | InClass05/InClass05/InClass05.cpp:222-226 | Along a chord, a·x + b·y + c varies linearly in the interpolation parameter t. |
| CircleLine.EvalDifference | InClass05/InClass05/InClass05.cpp:222 | The divisor in the formula for t is the change of a·x + b·y + c between the chord's endpoints. |
| CircleLine.SolveLinear | InClass05/InClass05/InClass05.cpp:222 | e + t·d = 0 with d ≠ 0 has the single solution t = -e/d. |
| CircleLine.ParamIsRoot | InClass05/InClass05/InClass05.cpp:222 | For a chord not parallel to the line, the computed t is the one and only parameter whose interpolated point lies on the line. |
| CircleLine.ChordHit | InClass05/InClass05/InClass05.cpp:216-231 | A reported hit lies on the line, inside the segment's bounding box, and on the chord (t in [0,1]). A chord parallel to the line reports none. |
| CircleLine.ChordHitComplete | InClass05/InClass05/InClass05.cpp:222-227 | Conversely, any point of a non-parallel chord that is on the line and in the box is the reported hit. |
| CircleLine.HitCountIsHitChords | InClass05/InClass05/InClass05.cpp:216-232 | The running count equals the number of distinct chords that hit. |
| CircleLine.LastHitIsHit | InClass05/InClass05/InClass05.cpp:216-232 | A last hit exists exactly when the count is positive, and it is on the line and in the box. |
| CircleLine.ComputeIntersection | InClass05/InClass05/InClass05.cpp:209-233 | A vertical segment leaves the marker as it was. Otherwise the count grows by the number of chords 0..358 that hit, and the stored point is the hit of the highest such chord (unchanged if none hits). A changed count means the stored point is a genuine crossing. The count equals the number of hitting chords if and only if it started at 0. |
| CircleLine.CountIntersections | InClass05/InClass05/InClass05.cpp:86 | Starting the count at 0, as the unused global `nInter = 0` does, makes it the number of chords that hit. A point is drawn exactly when one does, and it is a genuine crossing. |
| CircleLine.PointsDrawn | InClass05/InClass05/InClass05.cpp:197-203 | Points are drawn only for a positive count. The draw reads within the one-point marker buffer exactly when at most one hit was counted. |
| ColouredCone.BuildCone | InClass07/InClass07/InClass07.cpp:28-46 | All 396 floats are written, triangle i at 12i..12i+11. Every apex is (0,1,0,1). Rim vertices have y = -1 and w = 1. Triangle i's third vertex is triangle i+1's second, a shared rim point. |
| ColouredCone.Render | InClass07/InClass07/InClass07.cpp:183-187 | There are 33 draws. Draw i covers vertices 3i..3i+2, exactly the floats written for triangle i. The last draw ends at vertex 99 = 396/4. Draw i uses table entry i mod 6. Consecutive draw calls, and the last call and the first, differ in colour. |
| ColouredCone.NeighbourColoursDiffer | InClass07/InClass07/InClass07.cpp:183-184 | Draw calls i and i+1 (mod 33) get different table entries. |
| ColouredCone.WedgeNeighboursDiffer | InClass07/InClass07/InClass07.cpp:183-184 | Around the ring of 32 wedges, neighbouring wedges get different colours, including wedges 31 and 0 where the ring closes. |
| ColouredCone.LastTriangleRedrawsFirst | InClass07/InClass07/InClass07.cpp:28-46 | Triangle 32, from the loop's `i <= NUMOFTRIANGLE`, has rim points one full turn past triangle 0's. Where cos and sin agree after a full turn, its three vertices are triangle 0's, and it is drawn in a different colour (entry 2 over entry 0). |
| ColouredCone.PaletteEntriesDistinct | InClass07/InClass07/InClass07.cpp:77-84 | The six colours of the table are pairwise different. |
| IndexedCylinder.FillVertices | InClass08/InClass08/InClass08.cpp:58-70 | Vertex 4i+m of the 60-float array has angle index i for m = 0, 1 and i+1 for m = 2, 3, with y = -1 for even m and +1 for odd m. |
| IndexedCylinder.FillIndices | InClass08/InClass08/InClass08.cpp:72-77 | Index slots 6i..6i+5 are 4i, 4i+1, 4i+2, 4i+1, 4i+2, 4i+3, for all five quads, 30 slots in all. |
| IndexedCylinder.FillTexcoords | InClass08/InClass08/InClass08.cpp:79-86 | Vertex 4i+m gets u = 0.2·(i + m/2) and v = m mod 2, 40 floats in all. |
| IndexedCylinder.InitBuffers | InClass08/InClass08/InClass08.cpp:55-89 | After the loop, all three arrays are completely filled with the layouts above. |
| IndexedCylinder.IndicesInRange | InClass08/InClass08/InClass08.cpp:72-77 | The draw count 30 is the number of index slots. Every index is below 20, the vertex count of vertices[60]. Index slot j names a vertex of quad j/6. |
| IndexedCylinder.QuadTriangulation | InClass08/InClass08/InClass08.cpp:72-77 | Each triangle of a quad has three distinct vertices. The two triangles share exactly the diagonal 4i+1, 4i+2 and together cover the quad's four vertices. |
| IndexedCylinder.QuadEdges | InClass08/InClass08/InClass08.cpp:59-86 | Vertices 4i and 4i+1 share x and z, and so do 4i+2 and 4i+3. Each pair is bottom (-1) then top (+1). A quad's far edge is the next quad's near edge, in position and in texture u. |
| IndexedCylinder.TexcoordsFollowVertices | InClass08/InClass08/InClass08.cpp:79-86 | Every vertex's texture v is (y+1)/2. Every u lies in [0,1], with u = 0 at the first vertex and u = 1 at the last. |
| ShadedCone.FaceNormal | InClass09/InClass09/cone.h:122-124 | The corrected face normal is orthogonal to both apex-to-rim edges of its triangle, for any radius. |
| ShadedCone.AsWrittenIsUnitRadiusFaceNormal | InClass09/InClass09/cone.h:122-124 | The program's (x, y, z) is exactly the cross product of the two edges when the radius is 1. |
| ShadedCone.AsWrittenFaceNormalTilt | InClass09/InClass09/cone.h:104-124 | For radius r, the dot product of the program's normal with the edge to rim point i is 2(r-1)·(c0 s1 - c1 s0). |
| ShadedCone.AsWrittenFaceNormalNotOrthogonal | InClass09/InClass09/cone.h:122-124 | If r ≠ 1 and neighbouring rim points are at different angles, the program's flat normal is not orthogonal to the face. |
| ShadedCone.NormalSumTelescopes | InClass09/InClass09/cone.h:88-92 | The x and z sums of the program's face normals over triangles 0..n-1 telescope to 2(sin∠n − sin∠0) and 2(cos∠0 − cos∠n). |
| ShadedCone.AverageNormal | InClass09/InClass09/cone.h:87-96 | temp is the sum of the program's face normals of triangles 0..32, divided by 33. Its x and z depend only on the angles 0 and 33. |
| ShadedCone.ApexNormalCountsFaceZeroTwice | InClass09/InClass09/cone.h:88-96 | Where cos and sin agree after a full turn, the program's sum is the cone's 32 face normals plus face 0 again. The average's x and z are then face 0's divided by 33, so the apex normal leans towards face 0 whenever that face's x is non-zero. |
| ShadedCone.CorrectedApexNormal | InClass09/InClass09/cone.h:88-96 | The average over the cone's 32 faces. Its x and z depend only on the angles 0 and 32. |
| ShadedCone.CorrectedApexNormalVertical | InClass09/InClass09/cone.h:88-96 | Where cos and sin agree after a full turn, the 32-face average has x = z = 0: it points along the cone's axis. |
| ShadedCone.FillVertices | InClass09/InClass09/cone.h:98-112 | Triangle i is the apex (0,1,0,1) followed by rim points i and i+1 at y = -1, w = 1, for all 32 triangles. Floats 384..395 keep their prior values. |
| ShadedCone.FillColors | InClass09/InClass09/cone.h:115-120 | Every float 0..387 written by the overlapping stride-12, four-vertex loop is component idx mod 4 of the single colour. Floats 388..395 keep their prior values. |
| ShadedCone.FillNormals | InClass09/InClass09/cone.h:122-158 | Flat mode puts the program's face normal at all three vertices. Smooth mode puts the averaged normal at the apex and (cos, 0, sin) at each rim point. w = 1 in both. Floats 384..395 keep their prior values. |
| ShadedCone.UpdateBuffers | InClass09/InClass09/cone.h:86-159 | A rebuild keeps radius and mode, leaves all three buffers laid out for them, and keeps every unwritten tail. |
| ShadedCone.NewCone | InClass09/InClass09/cone.h:28-33 | A new cone has radius 1, flat shading, and buffers laid out for that. |
| ShadedCone.SetShading | InClass09/InClass09/cone.h:42-46 | The flag is stored and the buffers are rebuilt for it. On a laid-out cone, switching mode leaves vertices and colours unchanged, and setting the current mode changes nothing at all. |
| ShadedCone.FlatNormalsAreFaceNormals | InClass09/InClass09/cone.h:122-141 | In flat mode, a triangle's three normals are the program's face normal with w = 1. At radius 1 it is orthogonal to both edges leaving the apex, as they lie in the vertex buffer. At any other radius it is not orthogonal to the first edge, unless the two rim angles are parallel. |
| ShadedCone.SmoothNormalsShared | InClass09/InClass09/cone.h:142-158 | In smooth mode, every apex carries the same averaged normal. Each rim normal is horizontal, equals its rim vertex's (x, z) divided by the radius, and is shared by the two triangles meeting at that rim point. |
| ShadedCone.DrawCountMatchesWrites | InClass09/InClass09/cone.h:38-53 | The draw count 32·3 is the number of vertices written (384 floats / 4), and all writes lie within the 396-float buffers. |
| SubdividedCylinder.Configure | InClass10/InClass10/cylinder.h:49-63 | N outside [2, 6] is rejected with that N. Otherwise numSubdiv = 2^N and numVertices = 6·numSubdiv, with radius and height kept. |
| SubdividedCylinder.DefaultIsMinimal | InClass10/InClass10/cylinder.h:38-47 | The default cylinder is the checked constructor at N = 2, radius 1, height 1: 4 slices, 24 vertices. |
| SubdividedCylinder.VertexWritesFit | InClass10/InClass10/cylinder.h:65-77 | For every accepted N, 18·numSubdiv floats fit in the 1152-float arrays, exactly filling them at N = 6. The draw count numVertices covers exactly those floats. |
| SubdividedCylinder.TexcoordOverflowAsWritten | InClass10/InClass10/cylinder.h:76 | The declared texcoords[384] holds the 12·numSubdiv floats written if and only if N ≤ 5. At N = 6 the loop writes 384 floats past the end. |
| SubdividedCylinder.SliceColour | InClass10/InClass10/cylinder.h:81-87 | Slice i takes entry i mod 6 of the six-colour table, a read that stays inside it. Wherever the program's read stays inside its 15-float table, this is the colour the program reads. Where the read leaves the table, it is the sixth colour, green. |
| SubdividedCylinder.ColourOverrunAsWritten | InClass10/InClass10/cylinder.h:137-139 | With the counter modulo 6, some slice reads past the 15-float colour table if and only if N ≥ 3. |
| SubdividedCylinder.ColourAsWrittenAgreesInBounds | InClass10/InClass10/cylinder.h:157-159 | The program's colour read is in bounds if and only if the counter is not 5, and there it equals the corrected colour. |
| SubdividedCylinder.NeighbourSlicesDiffer | InClass10/InClass10/cylinder.h:241-242 | Consecutive slices get different colours. |
| SubdividedCylinder.SeamSlicesDiffer | InClass10/InClass10/cylinder.h:140-242 | The slices meeting at the seam, the last one and slice 0, get different colours for every accepted N. |
| SubdividedCylinder.SliceFloatsArePositions | InClass10/InClass10/cylinder.h:149-227 | The 18 floats of slice i hold, in order: near top, near bottom, far top, far top, near bottom, far bottom. |
| SubdividedCylinder.FillPositions | InClass10/InClass10/cylinder.h:137-227 | Slice i's six vertices are at j = 18i. Every written normal float equals the position float at the same index. Floats past 18·numSubdiv keep their prior values. |
| SubdividedCylinder.ColourFloatsAreSliceColour | InClass10/InClass10/cylinder.h:157-231 | The 18 colour floats of a slice are six copies of the slice's colour. |
| SubdividedCylinder.FillColors | InClass10/InClass10/cylinder.h:131-242 | All six vertices of slice i carry the slice's colour, and the rest of the array keeps its prior values. |
| SubdividedCylinder.TexAdvance | InClass10/InClass10/cylinder.h:134-144 | Adding texStep to curTex gives the next slice's curTex. |
| SubdividedCylinder.FillTexcoords | InClass10/InClass10/cylinder.h:133-244 | Slice i's twelve texture floats at q = 12i are the six corners' (u, v), and they fit the array for every accepted N. |
| SubdividedCylinder.UpdateBuffers | InClass10/InClass10/cylinder.h:125-245 | A rebuild leaves all four arrays laid out for the configuration. |
| SubdividedCylinder.NewCylinder | InClass10/InClass10/cylinder.h:49-63 | It fails exactly for N outside [2, 6], with that N. Otherwise it returns a laid-out cylinder with the given N, radius and height. |
| SubdividedCylinder.DefaultCylinder | InClass10/InClass10/cylinder.h:38-47 | The default cylinder is laid out with 4 slices, 24 vertices, radius 1 and height 1. |
| SubdividedCylinder.DrawCountCoversWrites | InClass10/InClass10/cylinder.h:65-70 | The draw count is 6·2^N. Three floats per drawn vertex are exactly the floats written, inside the array. |
| SubdividedCylinder.SliceLayout | InClass10/InClass10/cylinder.h:149-227 | The second triangle repeats the first's third and second vertices. Top vertices are at +height/2 and bottom ones at -height/2. Each normal equals its vertex. |
| SubdividedCylinder.NeighbourSlicesShareEdge | InClass10/InClass10/cylinder.h:140-144 | Slice i's far edge is slice i+1's near edge, in position and in texture u. |
| SubdividedCylinder.SeamCloses | InClass10/InClass10/cylinder.h:140-144 | The last slice's far edge is slice 0's near edge, because it uses angle 0. Texture u starts at exactly 0 and ends at exactly 1. |
| SubdividedCylinder.VertexAttributes | InClass10/InClass10/cylinder.h:188-239 | Texture v is 1 exactly at top vertices and 0 exactly at bottom ones. u is curTex on the near edge and nextTex on the far edge, in [0,1]. Every vertex of a slice has the slice's colour. |

## Left out

- Everything that talks to OpenGL, GLFW or the shaders: buffer objects, attribute pointers, uniforms, viewport, window creation, and the render loops around the draw calls. The draw calls appear only as their counts, offsets and colours.
- Texture loading (stb_image), the arcball and mouse handlers, and the projection and view matrices: library and I/O code.
- Float rounding. Accumulated floats are exact in the model: the 0.2 key steps, InClass10's theta and curTex, and the cone's temp average. The values of cos and sin are not modelled. Properties that need cos(2π) = cos(0) are stated only under that hypothesis.
- Undefined behaviour: the model states where the program's reads and writes would leave an array, and does not model the values such reads return.
- InClass08's `normals` and `colors` arrays: they are declared but never filled.
- MovingTriangle.KeyCallback: models the guard in whole 0.2 steps, not with the float comparisons `0.2f + X <= 0.8f` of the program.
- CircleLine.ComputeIntersection: uses the corrected line. It agrees with the program's coefficients for any segment starting on the x axis, which includes the hard-coded one.
- CircleLine.ComputeIntersection: a zero divisor gives no hit instead of an IEEE infinity or NaN. Every comparison the loop makes fails on those, so the program records no hit either.
- CircleLine.ComputeIntersection: the marker's initial count is a parameter, because the object's constructor never initialises it.
- ColouredCone.BuildCone, ColouredCone.Render: keep the program's 33rd triangle. LastTriangleRedrawsFirst shows it is wedge 0 again where cos and sin agree after a full turn. The model draws what the program draws.
- SubdividedCylinder.FillTexcoords: writes into a 768-float array instead of the declared 384.
- SubdividedCylinder.FillColors: reads a six-colour table, the declared five plus green, instead of the declared 15 floats. Slices whose counter is 5 get green where the program reads past its table.
- The fill methods build a sequence instead of updating arrays in place. Slots a loop does not write are passed in and returned unchanged.
- Cylinder(N, ...) exits the process for an illegal N. The model returns `Err(IllegalN(N))` instead.
- Console logging: the cone's "shading type update" message and the cylinder's illegal-N messages are output only.

## Findings

Where the program writes or reads past an array, the rest of the model uses the corrected definition. The segment's line does too, and it agrees with the program's for the hard-coded segment. For the cylinder's colours, only the slices whose counter is 5 read past the table, and only they get the corrected colour. Every other slice keeps the colour the program reads, including slices from 6 on. Where the program's behaviour is defined and reachable, the buffers keep what it writes, and the corrected member stands beside it: the cone's flat normals and apex average. The marker's starting count is a parameter, and CountIntersections is the call with 0.

| source | as written | input that shows it | evidently intended | confidence | as-written member | corrected member |
|---|---|---|---|---|---|---|
| InClass10/InClass10/cylinder.h:76 | `texcoords[384]`, sized for 32 slices, while the constructor accepts N = 6 (64 slices) | N = 6: slice 63 writes floats up to 767 | room for 64 slices, 768 floats | not executed; high | SubdividedCylinder.TexcoordOverflowAsWritten | SubdividedCylinder.FillTexcoords |
| InClass10/InClass10/cylinder.h:242 | `colorIndex = (colorIndex + 1) % 6` over a table of five colours | N = 3: slice 5 reads mainColors[15..17] of a 15-float table | a sixth colour in the table, which the `% 6` expects: InClass07's six-colour table holds these five plus green. This is the fix modelled. A counter modulo 5 would also stay in bounds, but it would recolour slices 6 onwards and give the seam slices the same colour at N = 4. | not executed; high | SubdividedCylinder.ColourOverrunAsWritten | SubdividedCylinder.SliceColour |
| InClass09/InClass09/cone.h:122-124 | flat normal formula written for a unit radius | radius 2: the dot product with an edge is 2·sin(2π/32) ≠ 0 | cross product of the actual edges | not executed; low (the program always sets radius 1) | ShadedCone.AsWrittenFaceNormalNotOrthogonal | ShadedCone.FaceNormal |
| InClass09/InClass09/cone.h:88-96 | the apex-normal loop runs `i <= NUMOFTRIANGLE` and divides by 33, so face 0 is summed twice | real cos and sin: temp's x is 2·sin(2π/32)/33 ≈ 0.012 against y ≈ 0.195, a tilt of about 3.5° towards face 0 | sum the 32 faces and divide by 32, giving x = z = 0 | not executed; medium | ShadedCone.ApexNormalCountsFaceZeroTwice | ShadedCone.CorrectedApexNormalVertical |
| InClass05/InClass05/InClass05.cpp:63 | `interSection->nInter` is never initialised, yet it is incremented at :229 and read at :197 | any marker whose count starts at k ≠ 0: the count is k plus the hits | start at 0, as the unused global `int nInter = 0` at :86 shows | not executed; medium | CircleLine.ComputeIntersection | CircleLine.CountIntersections |
| InClass05/InClass05/InClass05.cpp:213 | `c = b * y1 - a * x1` with b = -1 | segment (0,1)-(1,2): the line misses its own start point | c = y1 - a·x1 | not executed; low (the hard-coded segment starts at the origin) | CircleLine.AsWrittenLineMissesRaisedSegment | CircleLine.LineThrough |
