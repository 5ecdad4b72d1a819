# WesleyM314/graphics in Dafny

This project models the course-work OpenGL programs of the repository: the
four-component vector library `lib/lib.c` and the code in the demo programs
that fills the vertex, colour and texture-coordinate buffers the programs
hand to OpenGL.

- **Vectors** (module `Vec`, vec.dfy). `vec4` with `multScalVec`, `addVec`,
  `subVec`, `magnitude`, `normalize`, `dotVec` and `crossVec`. It is a
  datatype over `real`, and square roots come from a `sqrt` parameter that
  satisfies `IsSqrt`.
- **Buffers** (module `Mesh`, mesh.dfy). Each program keeps the globals
  `vertices`/`num_vertices`, `colors`/`num_colors` and
  `tex_coords`/`num_tex_coords`; these become the class `Mesh`. The
  `vertices[num_vertices++] = v` idiom becomes its `Push…` methods.
  `randColors` is the same function in lab3, lab4, proj1, proj2 and proj3,
  and it is modelled once as `Mesh.Mesh.RandColors`.
- **Generators.**
  - The cones of lab3 (`Lab3`) and lab4 (`Lab4`).
  - The circle of misc (`Misc`).
  - The spring of proj1 (`Proj1`).
  - The sphere shared by proj2 and proj3 (`Sphere`).
  - The Rubik's cube of proj4 (`Proj4`).

  Each generator is a method that writes through the running counter. It is
  proved against a function that lists the vertices in the order the C code
  writes them. Lemmas about that function state what the program relies on:
  - the counter ends exactly at the allocation;
  - the layout and winding of each triangle;
  - ring indices that wrap round.
- **File loaders.**
  - The PLY loader of proj2 (`Proj2`): the header scan, the gathering of
    face indices with its bounds check, and texture coordinates.
  - The Wavefront OBJ loader of proj3 (`Proj3`): line dispatch and fan
    triangulation.
- **Fitting the model to the view** (`centerScale`, `Proj3`). proj2 holds
  the same code.
- **Input callbacks.** The state that the idle, mouse and keyboard callbacks
  change (proj1, lab4, proj2 and proj4) is a small class per program.

Some inputs become parameters:
- cos, sin and sqrt;
- the matrix products (a rotation or a translation applied with
  `multMatVec`);
- the random colours.

A generator's result is stated for every choice of these parameters, and a
property that needs more (for example, that a rim point lies on its circle)
takes the law it needs (`OnUnitCircle`, `IsSqrt`, `IsPlacement`) as a
precondition.

## Model

| member | source | states |
|---|---|---|
| Vec.MultScalVec | lib/lib.c:19-23 | definition: every component, w included, times s; its properties are ScaleByOne, ScaledDot and AddNegationIsZero |
| Vec.AddVec | lib/lib.c:28-32 | adding u is undone by subtracting u, on all four components |
| Vec.SubVec | lib/lib.c:37-41 | definition: v - u on all four components; SubAfterAdd proves it inverts AddVec |
| Vec.SubAfterAdd | lib/lib.c:28-41 | subVec(addVec(v, u), u) == v and addVec(subVec(v, u), u) == v |
| Vec.AddCommutes | lib/lib.c:28-32 | addVec is commutative |
| Vec.ScaleByOne | lib/lib.c:19-23 | multScalVec by 1 changes nothing, w included |
| Vec.AddNegationIsZero | lib/lib.c:19-32 | v plus v scaled by -1 is the zero vector (w = 0 too) |
| Vec.ScaledDot | lib/lib.c:19-23 | scaling v by s scales its dot product with itself by s² |
| Vec.DotVec | lib/lib.c:63-66 | definition: the sum of the four products, w included; DotSymmetric, DotIncludesW, DotSelfNonNegative and ScaledDot state its properties |
| Vec.DotSymmetric | lib/lib.c:63-66 | dotVec(v, u) == dotVec(u, v) |
| Vec.DotIncludesW | lib/lib.c:63-66 | dotVec is the three-dimensional dot product plus the product of the w components |
| Vec.DotSelfNonNegative | lib/lib.c:63-66 | dotVec(v, v) is never negative |
| Vec.Magnitude | lib/lib.c:47-50 | the magnitude is non-negative and its square is dotVec(v, v), w included |
| Vec.Normalize | lib/lib.c:55-58 | for a non-zero magnitude the result has squared length 1 and, scaled back by the magnitude, gives v |
| Vec.CrossVec | lib/lib.c:68-75 | definition: the cross product of the xyz parts with w = 0; CrossIgnoresW, CrossAntiSymmetric and CrossOrthogonal state its properties |
| Vec.CrossIgnoresW | lib/lib.c:68-75 | crossVec returns w = 0 and does not depend on either input's w |
| Vec.CrossAntiSymmetric | lib/lib.c:68-75 | crossVec(u, v) is crossVec(v, u) negated |
| Vec.CrossOrthogonal | lib/lib.c:68-75 | the cross product is orthogonal (in x, y, z) to both inputs |
| Vec.Lab2Scenario | lab2/main.c:8-73 | for (1,2,3,4) and (5,6,7,8): dot product 70, cross product (-4, 8, -4, 0), magnitude sqrt(30) |
| Mesh.MapVec | proj3/proj3.c:461-464 | the transformed sequence has the same length and element i is f of element i |
| Mesh.Ring | proj1/proj1.c:85-93 | the first n points of a ring, one per index |
| Mesh.AdvanceRingSpec | proj1/proj1.c:138-142 | transforming every point of ring k by the step gives ring k + 1 |
| Mesh.AdvanceRing | proj1/proj1.c:107-110 | the array afterwards holds every old element transformed by the step, in place |
| Mesh.TriangleColor | proj3/proj3.c:175-182 | a random colour has r, g and b in [0, 1] and w = 1 |
| Mesh.TriangleSlotsAgree | proj3/proj3.c:174-183 | triangle t's three colour slots are equal, lie in [0, 1] and have w = 1 |
| Mesh.Mesh.constructor | proj3/proj3.c:29-31 | all counters start at zero |
| Mesh.Mesh.PushVertex | lab3/lab3.c:64 | one vertex appended at the counter, counter + 1, colours and texture coordinates untouched |
| Mesh.Mesh.PushTriangle | misc/misc.c:38-51 | three vertices appended in order, counter + 3, nothing else changes |
| Mesh.Mesh.PushColor | proj2/proj2.c:268 | one colour appended at the colour counter, nothing else changes |
| Mesh.Mesh.PushColorTriangle | misc/misc.c:54-57 | three colours appended in order, colour counter + 3, nothing else changes |
| Mesh.Mesh.PushTexCoord | proj2/proj2.c:319 | one texture coordinate appended at its counter, nothing else changes |
| Mesh.Mesh.PushSampleColor | proj3/proj3.c:172-182 | one loop pass of randColors: the colours so far grow by triangle i's three equal colours |
| Mesh.Mesh.RandColors | proj3/proj3.c:159-184 | a fresh colour buffer of num_vertices entries; the new colours are three equal colours per triangle for num_vertices / 3 triangles, so num_colors grows by 3 * (num_vertices / 3); vertices untouched |
| Mesh.Mesh.TransformVertices | proj1/proj1.c:158-161 | every written vertex is replaced by its transform, in place; the unwritten tail is untouched |
| Lab3.Slice | lab3/lab3.c:51-73 | definition: slice i is the base triangle (centre, rim i, rim i + 1), then the same with the centre raised by the height; SliceTriangles and AllPoints state its layout |
| Lab3.DrawCone | lab3/lab3.c:30-74 | a fresh buffer of 300 vertices, filled exactly, holding the cone's slices in order |
| Lab3.EmitSlice | lab3/lab3.c:50-73 | one loop pass appends slice i's six vertices |
| Lab3.VertexCount | lab3/lab3.c:36-39 | 50 slices of 6 vertices fill the 3 * 50 * 2 allocation exactly |
| Lab3.SliceTriangles | lab3/lab3.c:53-72 | slice i is (centre, b, c) on y = -0.5, then (apex at y = 0.5, b, c) in the same order |
| Lab3.AllPoints | lab3/lab3.c:53-72 | every vertex has w = 1 and lies on y = -0.5 except the apex (slot 3 of each slice) |
| Lab3.RimOnCircle | lab3/lab3.c:55-61 | rim points are at distance 0.5 from the base centre |
| Lab3.RimCloses | lab3/lab3.c:55-61 | each slice starts where the previous one ended, and the last slice ends where the first began |
| Lab4.Slice | lab4/lab4.c:86-112 | definition: slice i is the base triangle (centre, rim i, rim i + 1), then the raised centre with the two rim points swapped; SliceTriangles and AllPoints state its layout |
| Lab4.DrawCone | lab4/lab4.c:66-113 | a fresh buffer of 300 vertices, filled exactly, holding the cone's slices in order |
| Lab4.EmitSlice | lab4/lab4.c:87-112 | one loop pass appends slice i's six vertices |
| Lab4.VertexCount | lab4/lab4.c:72-75 | 50 slices of 6 vertices fill the 3 * 50 * 2 allocation exactly |
| Lab4.SliceTriangles | lab4/lab4.c:89-111 | slice i is (centre, b, c) on y = -0.5, then (apex at y = 0, c, b) with reversed winding |
| Lab4.AllPoints | lab4/lab4.c:89-111 | every vertex has w = 1 and lies on y = -0.5 except the apex |
| Lab4.RimOnCircle | lab4/lab4.c:92-99 | rim points are at distance 0.25 from the base centre |
| Lab4.NextRads | lab4/lab4.c:43-47 | the new angle is at most 2π; it is either 0 or the old angle plus 0.001; it drops exactly when the sum passes 2π |
| Lab4.IdleAccumulates | lab4/lab4.c:43-47 | starting from 0, k calls give 0.001 * k while that stays within 2π |
| Lab4.IdleInRange | lab4/lab4.c:43-47 | starting from 0, the angle stays in [0, 2π] forever |
| Lab4.Spin.constructor | lab4/lab4.c:35 | rads starts at 0 |
| Lab4.Spin.Idle | lab4/lab4.c:40-48 | one idle call advances rads as NextRads says |
| Misc.Wedge | misc/misc.c:35-50 | definition: triangle i is the origin and rim points i and i + 1, counter-clockwise; TriangleAt, FlatPoints and RimOnCircle state its layout |
| Misc.CircleTest | misc/misc.c:21-58 | fresh vertex and colour buffers of 300 entries, both filled exactly, with the circle's wedges and their colours |
| Misc.EmitWedge | misc/misc.c:35-58 | one loop pass appends one wedge's 3 vertices and 3 colours, so the two counters stay equal |
| Misc.Counts | misc/misc.c:25-27 | 100 wedges give 300 vertices and 300 colours, the allocation |
| Misc.TriangleAt | misc/misc.c:38-56 | triangle i is (origin, point at angle iθ, point at angle (i + 1)θ), coloured green, blue, blue |
| Misc.FlatPoints | misc/misc.c:38-48 | every vertex has z = 0 and w = 1, and every colour has w = 1 |
| Misc.RimOnCircle | misc/misc.c:41-47 | rim points lie on the circle of radius 0.5 about the origin |
| Proj1.RefPoint | proj1/proj1.c:87-93 | definition: point i of the unit circle moved 2 along x, at z = 0, w = 1; MakeRefCircle fills refCirc1 with it |
| Proj1.Next | proj1/proj1.c:117 | (i + 1) % numCircPoints stays in range, wraps to 0 exactly after the last point, and is i + 1 otherwise |
| Proj1.MakeRefCircle | proj1/proj1.c:85-93 | refCirc1 holds the unit circle moved 2 along x: ring 0 of the spring |
| Proj1.CopyRing | proj1/proj1.c:97-98 | refCirc2 is a fresh copy of refCirc1 |
| Proj1.SpringAdvances | proj1/proj1.c:103-110 | ring k + 1 of the spring is ring k moved by the coil step |
| Proj1.EmitFirstCap | proj1/proj1.c:113-118 | appends the first cap: (centre, ring 0 point i, ring 0 point i + 1 mod n) for every i |
| Proj1.Quad | proj1/proj1.c:124-135 | definition: the two triangles between ring h (refCirc2) and ring h + 1 (refCirc1) at ring index i and its successor; ShellQuad and SegmentLayout state where they land |
| Proj1.EmitSegment | proj1/proj1.c:124-135 | appends shell segment h: six vertices per ring index, between ring h and ring h + 1 |
| Proj1.ShellStep | proj1/proj1.c:124-142 | one pass of the h loop: segment h appended and both reference rings moved one ring on |
| Proj1.EmitShell | proj1/proj1.c:120-143 | appends all numSegments * numCoils segments; refCirc2 ends on the last ring |
| Proj1.EmitSecondCap | proj1/proj1.c:146-151 | appends the second cap from the last ring, each triangle reversed |
| Proj1.EmitObject | proj1/proj1.c:113-151 | the buffer of numVerts vertices is filled exactly with cap, shell and cap |
| Proj1.MyObject | proj1/proj1.c:61-161 | a fresh buffer of numVerts vertices, filled exactly, holding the spring after the closing transform |
| Proj1.VertexCount | proj1/proj1.c:78 | cap + shell + cap is numSegments * numCircPoints * numCoils * 6 + 2 * 3 * numCircPoints, the allocation |
| Proj1.SegmentLength | proj1/proj1.c:124-135 | a segment holds 6 * 36 vertices |
| Proj1.SegmentLayout | proj1/proj1.c:126-132 | vertices 6i..6i+6 of a segment are quad i |
| Proj1.ShellLayout | proj1/proj1.c:120-143 | segment h occupies vertices 216h..216h+216 of the shell |
| Proj1.ShellQuad | proj1/proj1.c:126-132 | quad i of segment h is the two triangles (ring h i, ring h+1 i, ring h i+1) and (ring h+1 i, ring h+1 i+1, ring h i+1), with indices mod n |
| Proj1.SegmentsJoin | proj1/proj1.c:126-132 | a segment's leading ring is the next segment's trailing ring, so the shell has no gaps |
| Proj1.CapTriangles | proj1/proj1.c:113-151 | first-cap triangle i is (centre (2,0,0,1), point i, point i+1); second-cap triangle i is (centre (2, 10.8, 0, 1), point i+1, point i) |
| Proj1.NextIdleRads | proj1/proj1.c:41-56 | paused: nothing changes; otherwise 0 or the angle plus 0.005, never above 2π; an angle in [0, 2π] stays there |
| Proj1.Controls.constructor | proj1/proj1.c:27-36 | the program starts paused with angle 0 |
| Proj1.Controls.Idle | proj1/proj1.c:41-56 | one idle call advances the angle as NextIdleRads says; pause unchanged |
| Proj1.Controls.Keyboard | proj1/proj1.c:241-249 | 'q' leaves the main loop, ' ' toggles pause, the angle is untouched |
| Proj1.IdleInRange | proj1/proj1.c:41-56 | starting from 0, the angle stays in [0, 2π] |
| Proj1.PausedFreezes | proj1/proj1.c:43 | while paused the angle never changes |
| Sphere.BandsLength | proj3/proj3.c:118-144 | the first k bands of a gore hold 6k - 3 vertices |
| Sphere.GoreLength | proj3/proj3.c:118-144 | a gore holds 6 * numRings vertices |
| Sphere.SphereVertexCount | proj3/proj3.c:93 | the sphere holds numRings * 6 * numSegments vertices, the allocation |
| Sphere.BottomCapRepeats | proj3/proj3.c:128-142 | the bottom cap's triangle repeats the first triangle of the band above it |
| Sphere.Globe | proj3/proj3.c:99-113 | definition: meridian i, point j is the north pole turned j times about z, then i times about y; MeridianIsRing and GlobeAdvances tie the loops to it |
| Sphere.MakeMeridian | proj3/proj3.c:99-105 | ref1 point j is the north pole turned j times by the z rotation |
| Sphere.MeridianIsRing | proj3/proj3.c:99-105 | that sequence is meridian 0 of the globe |
| Sphere.TurnMeridian | proj3/proj3.c:108-113 | ref2 is ref1 turned once about y |
| Sphere.TurnBoth | proj3/proj3.c:147-151 | ref1 is turned about y in place, then ref2 is the new ref1 turned again |
| Sphere.Band | proj3/proj3.c:118-143 | definition: band j of gore i is one triangle at the top cap, one at the bottom cap and two in between, in the order of the source; BandsLength and BottomCapRepeats state its shape |
| Sphere.EmitBand | proj3/proj3.c:121-143 | band j: one triangle at each cap, two in between |
| Sphere.EmitNextBand | proj3/proj3.c:118-144 | one pass of the j loop extends the gore by band j |
| Sphere.EmitGore | proj3/proj3.c:118-144 | all numRings + 1 bands of gore i |
| Sphere.GoreStep | proj3/proj3.c:116-152 | one pass of the i loop: gore i appended and both meridians moved one gore on |
| Sphere.EmitSphere | proj3/proj3.c:116-152 | the buffer is filled exactly with the 40 gores in order |
| Sphere.GlobeAdvances | proj3/proj3.c:147-151 | meridian i + 1 is meridian i turned about y |
| Sphere.UnitSphere | proj3/proj3.c:86-153 | a fresh buffer of 9600 vertices, filled exactly with the sphere's gores |
| Proj2.Occurs | proj2/proj2.c:135 | strstr finds pat exactly when pat occurs somewhere in the line |
| Proj2.Absorb | proj2/proj2.c:133-168 | definition: one header line overwrites a count when it contains the key and sscanf converts its third token, and sets hasColors when it contains " red"; CountsFromLines and HasColorsFromRed state the effect of a whole header |
| Proj2.ScanHeader | proj2/proj2.c:127-170 | the header loop, when it ends, consumes between 1 and all of the lines |
| Proj2.ReadHeader | proj2/proj2.c:127-170 | the loop computes what ScanHeader describes |
| Proj2.HeaderEndsAtFirst | proj2/proj2.c:127 | the loop stops at the first line containing end_header, and runs out of lines exactly when there is none |
| Proj2.HasColorsFromRed | proj2/proj2.c:166-169 | hasColors is set exactly when some header line contains " red" |
| Proj2.LastThirdIsLast | proj2/proj2.c:135-162 | the reference value of a count is its initial value when no line sets it, and otherwise the third token of a line that sets it with no later line setting it again |
| Proj2.CountsFromLines | proj2/proj2.c:135-162 | the vertex, face and texture-vertex counts end as the third token of the last header line containing " vertex ", " face " or " multi_texture_vertex ", or keep their initial values |
| Proj2.FileColor | proj2/proj2.c:220-229 | a colour byte b becomes b / 255 in [0, 1], w = 1 |
| Proj2.PlyPoints | proj2/proj2.c:212-215 | file vertex i is (x, y, z, 1) |
| Proj2.PlyColors | proj2/proj2.c:218-229 | file colour i is the scaled colour bytes of vertex i |
| Proj2.LoadFileVerts | proj2/proj2.c:207-237 | fileVerts holds the file's points and, with colours, fileColors their colours |
| Proj2.GatherCheck | proj2/proj2.c:253-264 | definition: the indices walked in order, as the vertex loop here and the texture loop at lines 308-319 do; an index >= the table size exits (TooLarge), a negative one or one past the faces * 3 buffer is undefined, otherwise all are copied; CopiedIff, TooLargeAtFirst and GatherSticky state its outcome |
| Proj2.CopiedIff | proj2/proj2.c:253-264 | every index is copied exactly when all are in range and they fit the faces * 3 buffer |
| Proj2.TooLargeAtFirst | proj2/proj2.c:257-261 | the program exits at the first index >= the table size, with all earlier indices in range |
| Proj2.GatherSticky | proj2/proj2.c:257-261 | once a gather stops, later indices do not matter |
| Proj2.Pick | proj2/proj2.c:264 | gathered element k is the table entry at index k |
| Proj2.GatherCheckStep | proj2/proj2.c:257-264 | one more index either exits (too large), is unsafe (negative or past the buffer) or is copied |
| Proj2.GatherNext | proj2/proj2.c:253-262 | the next index is copied or stops the whole gather |
| Proj2.NextCopied | proj2/proj2.c:253-268 | an index below the table size is copied and stays within the buffer |
| Proj2.FaceDone | proj2/proj2.c:243-271 | a finished face joins the indices gathered so far |
| Proj2.GatherVertices | proj2/proj2.c:243-271 | succeeds exactly when every index is in range; then the vertices (and, with colours, the colours) are the file entries picked in file order |
| Proj2.GatherFace | proj2/proj2.c:253-270 | the indices of face i are gathered, or the program exits on a too-large one |
| Proj2.GatherIndex | proj2/proj2.c:255-269 | index j of face i is checked and its vertex (and colour) copied |
| Proj2.CopyVertex | proj2/proj2.c:264-269 | the vertex and, with colours, the colour of the index are appended |
| Proj2.GatherTexCoords | proj2/proj2.c:299-321 | succeeds exactly when every texture index is in range; then the texture coordinates are the file's picked in order |
| Proj2.GatherTexFace | proj2/proj2.c:308-320 | the texture indices of face i are gathered, or the program exits |
| Proj2.GatherTexIndex | proj2/proj2.c:310-319 | texture index j of face i is checked and copied |
| Proj2.CopyTexCoord | proj2/proj2.c:319 | the texture coordinate of the index is appended |
| Proj2.ReadBody | proj2/proj2.c:172-322 | the body loads exactly when every index is in range; then vertices, colours or texture coordinates are the file's entries picked by the face lists |
| Proj2.AllocateBody | proj2/proj2.c:174-184 | faces * 3 vertices, and faces * 3 colours or texture coordinates depending on hasColors |
| Proj2.GatherFileTex | proj2/proj2.c:276-321 | the file's texture coordinates are loaded and gathered face by face |
| Proj2.SphereTex | proj2/proj2.c:433-434 | definition: s = (x + 1) / 2 and t = (y - 1) / -2; SphereTexInverse and SphereTexInUnitSquare state its meaning |
| Proj2.SphereTexInverse | proj2/proj2.c:433-434 | the texture coordinate gives back x and y |
| Proj2.SphereTexInUnitSquare | proj2/proj2.c:433-434 | points of the unit square map into [0, 1]²; the north pole maps to (0.5, 0) |
| Proj2.SphereTexes | proj2/proj2.c:430-436 | texture coordinate i is the map of vertex i |
| Proj2.MapSphereTex | proj2/proj2.c:430-436 | one texture coordinate per vertex, the vertices untouched |
| Proj2.TexturedSphere | proj2/proj2.c:358-436 | the sphere of proj3 plus, for every vertex, its texture coordinate |
| Proj2.Gl | proj2/proj2.c:643-644 | definition: a pixel coordinate minus half the window, over half the window; GlEdges states where the edges and the centre land |
| Proj2.GlEdges | proj2/proj2.c:643-644 | the window's edges map to -1 and 1 and its centre to 0 |
| Proj2.CurPoint | proj2/proj2.c:638-664 | x and y are the pixel mapped to [-1, 1] with y flipped; inside the unit disc the point is on the unit sphere, outside it z = 0; w = 1 |
| Proj2.Lift | proj2/proj2.c:646-660 | definition: z is sqrt(1 - x² - y²), or 0 when that is negative; CurPoint's ensures state the resulting point |
| Proj2.View.constructor | proj2/proj2.c:31-65 | no spin, identity rotation and transformation, current point (0, 0, 0, 1) |
| Proj2.View.Idle | proj2/proj2.c:72-79 | while spinning, ctm is rotateMat times ctm; nothing else changes |
| Proj2.View.Mouse | proj2/proj2.c:604-636 | left down: current point set, rotation reset, spin off; left up: spin on; wheel up/down scales ctm by 1.02 or 1/1.02 |
| Proj2.View.SetCurPoint | proj2/proj2.c:638-664 | curPoint becomes CurPoint(x, y); nothing else changes |
| Proj2.View.Keyboard | proj2/proj2.c:783-795 | 'q' leaves the main loop, 'r' resets ctm and rotateMat |
| Proj3.FanUnfold | proj3/proj3.c:594 | a face of n >= 3 entries yields its first n - 2 triangles |
| Proj3.FanPrefixLength | proj3/proj3.c:594-610 | n fan triangles are 3n entries |
| Proj3.FanLength | proj3/proj3.c:594-610 | a face of n >= 3 entries gives 3(n - 2) entries, a shorter one none |
| Proj3.FanPrefixLayout | proj3/proj3.c:596-609 | triangle i of a partial fan is entries 0, i + 1, i + 2 |
| Proj3.FanLayout | proj3/proj3.c:596-609 | triangle i of the fan is (e0, e(i+1), e(i+2)) |
| Proj3.AppendedFanLayout | proj3/proj3.c:594-610 | the same, after whatever was appended before |
| Proj3.GatherVerts | proj3/proj3.c:597-608 | one vertex per face entry |
| Proj3.GatherTex | proj3/proj3.c:599-609 | one texture coordinate per face entry |
| Proj3.Step | proj3/proj3.c:541-610 | definition: one line of the file: a v line adds a vertex, a vt line a texture coordinate with t flipped, a face of 3 to 100 in-range entries its fan, a shorter face exits, anything else is ignored; NonFaceLines, ShortFaceStops, FaceVertices and FaceTexCoords state it |
| Proj3.ReadObj | proj3/proj3.c:535-612 | definition: Step applied to every line in order until the program stops; ReadObjSticky and ReadObjSnoc state it, ReadFile computes it |
| Proj3.ReadObjSticky | proj3/proj3.c:584-589 | once the program exits, later lines do not matter |
| Proj3.NonFaceLines | proj3/proj3.c:542-572 | a v line appends (x, y, z, 1), a vt line appends (s, 1 - t), other lines change nothing |
| Proj3.ShortFaceStops | proj3/proj3.c:584-589 | a face line with fewer than 3 entries ends the program |
| Proj3.FaceVertices | proj3/proj3.c:594-610 | a face appends 3(n - 2) vertices; triangle i is the vertices at (e0, e(i+1), e(i+2)) with the vertex base subtracted |
| Proj3.FaceTexCoords | proj3/proj3.c:594-610 | a face appends 3(n - 2) texture coordinates; triangle i is those at ti - 1 |
| Proj3.OrderedLengths | proj3/proj3.c:597-609 | vertOrdered and texOrdered always have the same length, 3 per fan triangle |
| Proj3.ReadFile | proj3/proj3.c:489-634 | the line loop computes ReadObj, and ends loaded or on a short face |
| Proj3.EmitFace | proj3/proj3.c:594-610 | the face loop appends the fan of the gathered vertices and texture coordinates |
| Proj3.EmitFanTriangle | proj3/proj3.c:596-609 | one pass appends fan triangle i |
| Proj3.PushEntry | proj3/proj3.c:597-599 | one entry's vertex and texture coordinate appended |
| Proj3.InstallObj | proj3/proj3.c:627-629 | vertices and tex_coords become the ordered lists; the counters stay 0 |
| Proj3.ReadObjSnoc | proj3/proj3.c:535-612 | reading one more line is one more step, unless the program has already exited |
| Proj3.TriangleFileRaw | proj3/proj3.c:542-572 | the v and vt lines of a one-triangle file load three points and three flipped texture coordinates |
| Proj3.TriangleFileAsWritten | proj3/proj3.c:598 | as written, that file's face `f 1/1 2/2 3/3` reads past the three loaded vertices |
| Proj3.TriangleFileCorrected | proj3/proj3.c:597-609 | with 1-based vertex indices, the face loads the triangle in order |
| Proj3.ObjIndicesInRange | proj3/proj3.c:598 | every 1-based index is in range once 1 is subtracted; the last one is out of range as written |
| Proj3.Scan | proj3/proj3.c:421-434 | definition: the box starts at the origin and widens with each vertex in order; ScanContainsOrigin, ScanContains and ScanAttained state that it is the smallest box holding the origin and all vertices |
| Proj3.ScanContainsOrigin | proj3/proj3.c:423 | the box always contains the origin |
| Proj3.ScanContains | proj3/proj3.c:424-434 | every scanned vertex lies in the box |
| Proj3.ScanAttained | proj3/proj3.c:424-434 | every bound is 0 or a coordinate of some vertex |
| Proj3.BoundsScan | proj3/proj3.c:423-434 | the loop computes the scan's box |
| Proj3.Largest | proj3/proj3.c:447-451 | the result is one of the three ranges and no smaller than any |
| Proj3.IntAbs | proj3/proj3.c:443-445 | C's integer abs of a float: a non-negative whole number no larger than the real absolute value and within 1 of it |
| Proj3.ScaleFactorAsWritten | proj3/proj3.c:443-453 | definition: 2 over the largest truncated range, infinite when it is 0; CenterScaleAsWritten, CenterScaleDividesByZero and AsWrittenOverscales state its flaws |
| Proj3.CenterScaleAsWritten | proj3/proj3.c:443-453 | as written, a range of 1.5 truncates to 1, the factor is 2 and the point (1.5, 0, 0) stays at x = 1.5, outside the view |
| Proj3.CenterScaleCorrectsWide | proj3/proj3.c:443-453 | with the real range the same model gets the factor 2 / 1.5 |
| Proj3.CenterScaleDividesByZero | proj3/proj3.c:443-453 | as written, a model smaller than 1 in every direction gets 2 / 0; the real range gives 4 |
| Proj3.CenterScaleFits | proj3/proj3.c:437-458 | with the real range, the factor is infinite only for a model at the origin, and otherwise every point with w = 1 lands in [-1, 1]³ |
| Proj3.AsWrittenOverscales | proj3/proj3.c:443-453 | the integer-abs factor is finite only where the real one is, and is then never smaller: as written the model can only be scaled up too far |
| Proj3.CenterScale | proj3/proj3.c:420-465 | every vertex is replaced by the placement for the box's centre and the factor with the chosen absolute value (integer abs as written, or the real one); with the real one and a finite factor, every vertex with w = 1 ends in [-1, 1]³ |
| Proj4.ColorOrdersFollowLayers | proj4/proj4.c:85-124 | slot s of row 9i + 3j + k is non-black exactly on its outer layer: green iff j = 2, red iff k = 2, blue iff j = 0, orange iff k = 0, white iff i = 0, yellow iff i = 2 |
| Proj4.ColorOrdersShaped | proj4/proj4.c:85 | 27 rows of 6 colours |
| Proj4.OrientationIsIdentity | proj4/proj4.c:136-152 | orientation[i][j][k] == 9i + 3j + k |
| Proj4.OrientationIsPermutation | proj4/proj4.c:136-152 | every n in 0..26 appears exactly once, at (n / 9, n / 3 % 3, n % 3) |
| Proj4.VecList.constructor | proj4/proj4.c:692-693 | a new list is empty |
| Proj4.VecList.Reset | proj4/proj4.c:568-569 | re-initialising a list empties it |
| Proj4.VecList.Push | proj4/proj4.c:556 | a push appends one vector |
| Proj4.Repeat | proj4/proj4.c:554-557 | n copies of one vector |
| Proj4.SideColor | proj4/proj4.c:71-77 | every face colour lies in [0, 1] with w = 1, and it is (0, 0, 0, 1) exactly for black |
| Proj4.ColorSide | proj4/proj4.c:525-558 | appends exactly 6 copies of the colour's vector |
| Proj4.SmallCubeVerts | proj4/proj4.c:583-668 | definition: the front face turned through four quarter turns about y, the face turned about x to the top and the bottom, then the edge triangles through four quarter turns; SmallCubeVertCount states its size |
| Proj4.SmallCubeColors | proj4/proj4.c:670-682 | definition: six copies of each face's colour in order, then black for every edge vertex; SmallCubeColorCount, FaceColorWidths and SmallCubeColorLayout state its layout |
| Proj4.SmallCubeVertCount | proj4/proj4.c:21 | a cubie has 4 * 6 + 6 + 6 + 4 * 24 = 132 vertices, VERTS_PER_CUBE |
| Proj4.TurnsLength | proj4/proj4.c:587-598 | n quarter turns of a reference hold n copies of it |
| Proj4.SmallCubeColorCount | proj4/proj4.c:670-682 | a cubie has 6 * 6 + 24 * 4 = 132 colours, VERTS_PER_CUBE |
| Proj4.FaceColorWidths | proj4/proj4.c:671-674 | each face contributes 6 colours |
| Proj4.SmallCubeColorLayout | proj4/proj4.c:670-682 | colour q of a cubie is its face q / 6's colour for q < 36 and black afterwards |
| Proj4.PushAll | proj4/proj4.c:602-605 | appends the transformed reference, in order |
| Proj4.PushTurns | proj4/proj4.c:587-598 | appends the reference turned by 0, 90, 180 and 270 degrees about y |
| Proj4.PushTurn | proj4/proj4.c:590-597 | one pass appends the reference turned by the next quarter turn |
| Proj4.BuildSmallCube | proj4/proj4.c:563-686 | the cubie's vertices are four side faces, top, bottom and the edges; its colours are six per face in order, then black |
| Proj4.PushEdgeColors | proj4/proj4.c:675-682 | four black colours per edge vertex |
| Proj4.PushFaceColors | proj4/proj4.c:670-674 | six colours per face, in face order |
| Proj4.Offset | proj4/proj4.c:700-710 | definition: cubie n = 9i + 3j + k is moved by (0.5k - 0.5, -0.5i + 0.5, 0.5j - 0.5); OffsetsDistinct states that the 27 moves differ |
| Proj4.OffsetsDistinct | proj4/proj4.c:710 | each translation component is -0.5, 0 or 0.5, and no two cubies share a translation |
| Proj4.ColorOrderRow | proj4/proj4.c:714 | every row looked up has 6 colours |
| Proj4.PushCubie | proj4/proj4.c:717-721 | appends the translated cubie vertices and its colours |
| Proj4.AddCubie | proj4/proj4.c:706-721 | cubie n occupies vertices and colours [132n, 132(n+1)) and is the cubie of row n moved by its offset |
| Proj4.BuildLists | proj4/proj4.c:700-724 | all 27 cubies, cubie n = 9i + 3j + k in its own block |
| Proj4.BuildCube | proj4/proj4.c:688-731 | fresh buffers with 27 * 132 vertices and colours, cubie n in block n |
| Proj4.Install | proj4/proj4.c:726-730 | the buffers and counters become the lists and their lengths |
| Proj4.DrawCalls | proj4/proj4.c:348-353 | 27 draw calls, call n drawing the block [132n, 132(n+1)) BuildCube fills with cubie n |
| Proj4.DrawCallsDrawCubies | proj4/proj4.c:348-353 | with the vertices buildCube leaves (lines 700-721), draw call n covers exactly cubie n's translated small cube |
| Proj4.Arrows.constructor | proj4/proj4.c:61-64 | all arrow flags start clear |
| Proj4.Arrows.KeySpecial | proj4/proj4.c:470-492 | pressing an arrow sets only its flag |
| Proj4.Arrows.KeySpecialUp | proj4/proj4.c:494-516 | releasing an arrow clears only its flag |

## Left out

- File input: `fopen`, `getline`, `fgets`, `strtok`, `sscanf` and `fread` are
  not modelled. proj2's loader receives the header lines, each with the
  integer sscanf finds in its third token, and the body already decoded.
  proj3's loader receives one `ObjLine` per line of the file.
- The filename prompt of proj2's readFile and its `printf` debugging output.
- The matrix library (`multMat`, `multMatVec`, `translate`, `scale`,
  `x/y/z_rotate`, `identity`, `look_at`, `perspective`, `transpose`,
  `angleBetween`) is not part of this model. Its uses are function
  parameters.
- The list library `v4List` is not part of this model either. proj3 and
  proj4 use it as a growable list, modelled as a sequence.
- Mesh.Mesh.RandColors: it requires that `num_colors + 3 * (num_vertices / 3)`
  fits in `num_vertices`. The C code never resets `num_colors` and
  would write past the new buffer otherwise. Every program calls it with
  `num_colors` at 0.
- `rand`, `srand` and `time` in randColors: the random colours are a
  parameter `sample`.
- cos, sin and sqrt are parameters. Float rounding, NaN and infinities are
  not modelled; values are reals.
- OpenGL and GLUT: `init`, `display` (apart from the draw ranges of proj4),
  `reshape`, `main` and `glutPostRedisplay`.
- The trackball `motion` callback of proj2, and the idle, mouse, motion and
  keyboard callbacks of proj4 and proj3. Their effect is matrix products
  and `acosf`. proj4's mouse callback is commented out.
- Lab4.Spin.Idle: the matrices idle builds from rads are not modelled; only
  rads is.
- Proj1.Controls.Idle: the rotation matrix built from idleRads is not
  modelled.
- Proj2.View.Mouse, Proj2.View.Idle: the scale and product matrices are
  parameters (`scaled`, `mul`).
- The cubie transforms `cube_transforms` and the face turns of proj4.
- Proj2.ReadHeader: the header buffer is taken not to hold `end_header`
  before the first read. The C buffer is uninitialised there.
- Proj2.GatherVertices, Proj2.GatherTexCoords, Proj2.ReadBody: these
  require that no index reaches an unguarded case: a negative index, or
  more indices than the faces * 3 buffer holds. The program does not check
  either case, and both are undefined behaviour in C. An index that is too
  large, which the program does check, is modelled as a `false` result.
- Proj2.ReadBody: it also requires `h.faces >= 0`, that the file holds
  exactly `h.numFileVerts` vertex records and, without colours, exactly
  `h.numFileTexVerts` texture records (so that count is not negative
  either). A negative count read by sscanf would go straight into the C
  code's malloc size, where a failed malloc exits the program, and a short
  file leaves fread with nothing to read. None of these cases is modelled.
- Proj2.ReadBody: its frame names the old colour buffer, which the method
  does not change beyond what its ensures say.
- Proj3.ReadFile: it requires that no face has more than 100 entries (the
  size of the `faces` pointer buffer) and that no index is out of range.
  The C code checks neither.
- Proj3.CenterScale: the transform is a parameter `place`. It is required
  to equal `scale(s) * translate(-c)` for a finite factor. For an infinite
  factor the source divides by zero, and the model leaves the result open.
  With the real absolute value that happens only when every vertex is at
  the origin.
- Proj3.CenterScale: the absolute value is a parameter `abs`. `IntegerAbs`
  is the program, which truncates each range (see Findings). The fit into
  [-1, 1]³ is promised only for `RealAbs`; as written it does not hold
  (`Proj3.CenterScaleAsWritten`).
- Proj3.InstallObj: the C code hands over the list storage itself, so
  `vertices` and the ordered vertex list share memory. The model copies the
  lists into fresh arrays, so it does not capture that aliasing.
- Proj4.ColorSide: the `Color` datatype holds only the seven named colours,
  so the `default:` branch of colorSide, which paints any other value
  black, is not modelled. Every caller passes an entry of `color_orders`.
- Proj4.BuildCube: the C code hands over the list storage itself. The
  model copies the lists into fresh arrays.
- Proj4.AddCubie, Proj4.BuildLists: the nested i/j/k loops are one loop
  over n = 9i + 3j + k, which visits the same order.
- The uninitialised contents past each counter are not modelled. Only the
  written prefix of each buffer is stated.
- Sphere.BottomCapRepeats records that each gore's bottom cap draws a
  triangle already drawn by the band above it. That triangle is harmless,
  and the model writes it as the source does.

## Findings

| source | as written | input that shows it | evidently intended | confidence | as-written member | corrected member |
|---|---|---|---|---|---|---|
| proj3/proj3.c:597-608 | `vertTemp.items[vi]` uses the OBJ vertex index as a 0-based index, while the texture index is decremented (`ti - 1`) | the file `v 0 0 0`, `v 1 0 0`, `v 0 1 0`, three `vt` lines and `f 1/1 2/2 3/3`: the index 3 reads past the three loaded vertices | `vertTemp.items[vi - 1]`, since OBJ vertex indices start at 1 | not executed | Proj3.TriangleFileAsWritten | Proj3.TriangleFileCorrected |
| proj3/proj3.c:443-445 | `abs(maxx - minx)` is C's integer `abs`, so each float range is truncated before the largest is taken | a single vertex (1.5, 0, 0): the range 1.5 becomes 1, the factor is 2 and the vertex lands at x = 1.5, outside [-1, 1]; any model smaller than 1 in every direction gets 2 / 0 | `fabs`, so the largest side maps exactly onto [-1, 1] | not executed | Proj3.CenterScaleAsWritten | Proj3.CenterScaleFits |

proj2/proj2.c:759-761 repeats the second row's code. `Proj3.CenterScaleDividesByZero`
shows the division by zero for the unit-cube corner (0.5, 0.5, 0.5).
`Proj3.CenterScale` takes the absolute value as a parameter: `IntegerAbs`
is the program and `RealAbs` the corrected factor. The readFile loader is
stated for both conventions through its `vBase` parameter: 0 is the code as
written, 1 the corrected one.
