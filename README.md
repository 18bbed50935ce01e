# processing-rs, CPU side, in Dafny

This project models the part of the `processing-rs` crate that decides what is
sent to the GPU and how the `Screen` state changes as a result. The model has
six parts:

- **Shape tessellators** (`Rect`, `Quad`, `Triangle`, `Ellipse`, `Arc`, `Line`,
  `Point`, `Cube`, over the shared `Shapes` module). Each one turns parallel
  parameter vectors into fill and stroke vertex buffers, an index rule and an
  optional texture. It applies the aspect-ratio and anchor corrections, the
  `eps*i` z-bias and `load_colors` stamping. Every constructor is a method with
  the source's loops, proved equal to a specification function. The layout
  properties are lemmas about that function.
- **Transform stack** (`Transform`). This is the `Matrices` class: a current
  4x4 matrix and a stack of saved ones, with push, pop, reset, apply,
  translate, shear, scale and rotate.
- **Colour and render state** (`Color`, `Rendering`, `Environment`). This covers
  fill and stroke flags and colours, the colour mode, the blend table, the
  cursor table and smoothing.
- **Shaders and draw dispatch** (`Shaders`, `Draw`). This covers the
  `ShaderInfo` bookkeeping, `create_uniforms!`, the built-in program bank,
  `#include` splicing, and the rule that decides which program draws a shape,
  which fill and stroke calls are issued and in what order. It also covers the
  framebuffer variants of these draws.
- **Input latching and the frame counter** (`Input`, `GlfwInput`). The event
  fold keeps the last key, press, release and cursor position, and each
  successful `reveal` counts one frame.
- **The two `Screen` classes.** `GlutinScreen.Screen` models the glutin backend
  (`src/screen.rs` together with the `impl Screen` blocks of the other files).
  `GlfwScreen.Screen` models the glfw backend. Their initial state and their
  shader-bank layout are part of the model.

Values are `real`, and `f32::EPSILON` is the exact real 2^-23.

The following are parameters of the operations that use them:

- `cos`, `sin` and `tan`, and the matrix constructors of the linear-algebra
  library;
- every GPU upload or draw, as an `ok` predicate that says whether it
  succeeds;
- the GLSL compiler, as `compiles`;
- the file system of `load_frag_shader`, as a map from path to contents.

A window `Closed` message makes the source panic. The model makes that a
terminal outcome, `Panicked` or `None`, which leaves the state as it was
before.

## Model

| member | source | states |
|---|---|---|
| Shapes.Stamped | src/shapes/mod.rs:43-60 | the buffer `load_colors` leaves keeps its length |
| Shapes.LoadColors | src/shapes/mod.rs:43-60 | the in-place loop leaves exactly `Stamped(old buffer, colour)` in the array |
| Shapes.StampFillThenStroke | src/shapes/rect.rs:197-206 | the fill snapshot is the buffer stamped with the fill colour; the stroke snapshot is that stamped again with the stroke colour |
| Shapes.StampedSetsColor | src/shapes/mod.rs:44-47 | with a 4-element colour every vertex gets exactly that colour, and the length is unchanged |
| Shapes.StampedOtherLength | src/shapes/mod.rs:48-60 | with a colour vector that is not 4 long the buffer is unchanged |
| Shapes.StampedKeepsGeometry | src/shapes/mod.rs:43-47 | stamping never changes the length, a position or a texcoord |
| Shapes.StampedIdempotent | src/shapes/mod.rs:43-47 | stamping the same colour twice equals stamping it once |
| Shapes.StampedTwice | src/shapes/mod.rs:43-60 | of two stampings the second wins when it is 4 long; otherwise the first one stays |
| Shapes.DivideAll | src/shapes/rect.rs:67-70 | the in-place division loop divides every element by the aspect ratio and keeps the length |
| Shapes.MultiplyAll | src/shapes/rect.rs:72-75 | the in-place multiplication loop multiplies every element by the aspect ratio and keeps the length |
| Shapes.NoPreserveNoCorrection | src/shapes/rect.rs:65-77 | without aspect preservation no x or y value is corrected |
| Shapes.CorrectionDirections | src/shapes/rect.rs:65-77 | a wide screen divides x values and leaves y values; a tall one multiplies y values and leaves x values; a square aspect leaves x alone, and leaves y alone for the shapes that skip a square aspect |
| Shapes.QuadIndices | src/shapes/rect.rs:166-184 | the index list of n rects or quads has 6n entries |
| Shapes.BuildQuadIndices | src/shapes/rect.rs:166-184 | the `elements` loop (first block written out, then each block is the previous one plus 4) yields `QuadIndices(n)`; it needs n >= 1 because block 0 is written unconditionally |
| Shapes.FirstBlock | src/shapes/rect.rs:168-173 | the six writes produce the block `[0,1,2,2,3,0]` |
| Shapes.ShiftBlock | src/shapes/rect.rs:176-184 | one loop step extends a correct prefix by the next block |
| Shapes.NextBlock | src/shapes/rect.rs:177-182 | adding 4 to the previous six entries gives the next block of `QuadIndices` |
| Shapes.QuadIndicesBlock | src/shapes/rect.rs:168-184 | block c of the index list is `[4c,4c+1,4c+2,4c+2,4c+3,4c]` |
| Shapes.QuadIndicesInRange | src/shapes/rect.rs:166-184 | every index is below 4n, so it names one of the batch's vertices |
| Shapes.AttachTexture | src/shapes/rect.rs:221-224 | `attach_texture` sets the texture and changes neither buffer nor index rule |
| Rect.New | src/shapes/rect.rs:51-219 | `Rect::new` returns `Rect.Spec`; it needs at least one rectangle, the caller must rule out a refused index upload or vertex upload (all three are unwrapped), and the z inputs are ignored |
| Rect.Correct | src/shapes/rect.rs:65-92 | after the in-place aspect loops and the CENTER loop, every anchor is the corrected left or top edge and every size is the corrected size |
| Rect.Tessellate | src/shapes/rect.rs:94-163 | the corner vectors and the push loop build the uncoloured vertices of every rectangle in order |
| Rect.Vertices | src/shapes/rect.rs:110-163 | the first n rectangles have 4n vertices |
| Rect.VerticesAt | src/shapes/rect.rs:110-163 | the four vertices of rectangle c sit at offset 4c |
| Rect.RectCorners | src/shapes/rect.rs:79-163 | rectangle c has corners (x,y), (x+w,y), (x+w,y-h), (x,y-h) of the corrected anchor and size, all at z = eps*c, with texcoords (0,1), (1,1), (1,0), (0,0); the anchor moves by (-w/2,-h/2) in CENTER mode only |
| Rect.RectLayout | src/shapes/rect.rs:166-219 | 4n vertices per buffer; 6n TrianglesList indices, all below 4n, block c being `[4c,..,4c]`; LineLoop stroke; no texture |
| Rect.RectColors | src/shapes/rect.rs:197-206 | the fill buffer carries the fill colour; the stroke buffer carries the stroke colour when that is 4 long, and otherwise what the fill stamping left |
| Quad.New | src/shapes/quad.rs:43-187 | `Quad::new` returns `Quad.Spec`; it needs at least one quad and corner vectors at least as long as `x1`, the caller must rule out a refused index upload or vertex upload (all three are unwrapped), and the z inputs are ignored |
| Quad.Correct | src/shapes/quad.rs:70-85 | after the aspect loops every x is divided by the aspect ratio when that exceeds 1, and every y is otherwise multiplied by it |
| Quad.Tessellate | src/shapes/quad.rs:88-143 | the push loop builds the uncoloured corners of every quad in input order |
| Quad.Vertices | src/shapes/quad.rs:88-143 | the first n quads have 4n vertices |
| Quad.VerticesAt | src/shapes/quad.rs:88-143 | the four vertices of quad c sit at offset 4c |
| Quad.QuadCorners | src/shapes/quad.rs:70-143 | quad c is p1..p4 in input order, each corrected whenever aspect preservation is on (there is no check for aspect 1), all at z = eps*c, with texcoords (0,0), (1,0), (1,1), (0,1) |
| Quad.QuadLayout | src/shapes/quad.rs:145-187 | 4n vertices per buffer, the +4-shifted TrianglesList index list of 6n entries below 4n, LineLoop stroke, no texture, fill colour on the fill and stroke colour (or the fill stamping) on the stroke |
| Triangle.New | src/shapes/triangle.rs:41-161 | `Triangle::new` returns `Triangle.Spec`; the corner vectors need at least the length of `x1`, the caller must rule out a refused vertex upload (both are unwrapped), and the z inputs are ignored |
| Triangle.Tessellate | src/shapes/triangle.rs:79-120 | the push loop builds p1, p2, p3 of every triangle in order |
| Triangle.Vertices | src/shapes/triangle.rs:79-120 | the first n triangles have 3n vertices |
| Triangle.VerticesAt | src/shapes/triangle.rs:79-120 | the three vertices of triangle c sit at offset 3c |
| Triangle.TriangleCorners | src/shapes/triangle.rs:62-120 | triangle c is p1, p2, p3, corrected whenever preservation is on, at z = eps*c, with texcoords (0,0), (1,0), (1,1) |
| Triangle.TriangleColors | src/shapes/triangle.rs:138-160 | the fill buffer carries the fill colour, and the stroke buffer carries the stroke colour or, when that is not 4 long, the fill stamping; fill and stroke are NoIndices TrianglesList and LineLoop |
| Fan.Table | src/shapes/ellipse.rs:91-105 | a table has `loops` entries at angles 0, 1, ... of the step, plus one closing entry at angle `numSlices - 1` |
| Fan.Tables | src/shapes/ellipse.rs:98-105 | the loop fills the cosine and sine tables as `Fan.Table` says |
| Fan.RimFromCorrected | src/shapes/ellipse.rs:124-136 | a rim point computed from the corrected centre and half-axes is `RimX`/`RimY` of the raw inputs |
| Fan.Correct | src/shapes/ellipse.rs:60-89 | after the aspect loops (skipped for aspect 1) and the CENTER halving, the centre and half-axis vectors are the corrected ones |
| Fan.Rim | src/shapes/ellipse.rs:110-139 | the first m vertices of one instance number m |
| Fan.Fans | src/shapes/ellipse.rs:109-140 | the first n instances have 202n vertices |
| Fan.Tessellate | src/shapes/ellipse.rs:107-140 | the nested push loop builds `Fans` of the corrected vectors |
| Fan.PushFan | src/shapes/ellipse.rs:110-139 | the inner loop appends the 202 vertices of one instance |
| Fan.Upload | src/shapes/ellipse.rs:142-160 | the fill and stroke stamping, the stroke slice and the two uploads produce `Fan.Finish` |
| Fan.FinishOutcome | src/shapes/ellipse.rs:142-171 | the result is `VBNoCreate` exactly when one of the two uploads is refused; on success the stroke is the stroke-stamped buffer without its first and last vertex, and the fill is a TriangleFan |
| Fan.RimAt | src/shapes/ellipse.rs:110-139 | vertex j of one instance's rim is `FanVertex(j)` |
| Fan.FansAt | src/shapes/ellipse.rs:109-140 | instance i occupies the 202 vertices from offset 202i |
| Fan.FansVertex | src/shapes/ellipse.rs:109-140 | vertex 202i+j of the buffer is `FanVertex(j)` of instance i |
| Fan.FanGeometry | src/shapes/ellipse.rs:111-136 | vertex j of instance i is the corrected centre for j = 0, and otherwise the rim point read from table entry j-1 |
| Fan.VertexParts | src/shapes/ellipse.rs:111-136 | the coordinates of one fan vertex, field by field |
| Fan.RimStopsShort | src/shapes/ellipse.rs:91-136 | the first rim point is at the start angle, while the last is one step short of the stop angle, whose table entry is never read |
| Fan.ClosedTable | src/shapes/ellipse.rs:91-105 | a table laid out as `Fan.Table`, each loop entry taken at the corrected angle |
| Fan.ClosedRimSpansSweep | src/shapes/ellipse.rs:91-105 | with the step 1/(numSlices-2) the 201 rim points run from the start angle to the stop angle in equal steps |
| Ellipse.Geometry | src/shapes/ellipse.rs:107-140 | all ellipses read one shared table, 202 vertices each |
| Ellipse.New | src/shapes/ellipse.rs:47-171 | `Ellipse::new` returns `Ellipse.Spec`; an empty batch is admitted only when the fill upload fails first, because the stroke slice `[1..len-1]` would panic |
| Ellipse.EllipseVertex | src/shapes/ellipse.rs:92-136 | vertex j of ellipse i is its corrected centre for j = 0, and otherwise the centre plus (cos a * W, sin a * H) with a = 2*pi*(j-1)/201, in the fill colour |
| Ellipse.EllipseLayout | src/shapes/ellipse.rs:142-171 | `VBNoCreate` exactly when an upload is refused; otherwise 202n fill vertices, 202n-2 stroke vertices, TriangleFan fill and LineLoop stroke |
| Arc.BatchTables | src/shapes/arc.rs:98-116 | one table per arc, taken with the cosine for the cosine tables and with the sine for the sine tables |
| Arc.ArcTables | src/shapes/arc.rs:98-116 | the table loop builds, for each arc, 202 entries at its own start and step, plus the closing entry |
| Arc.Geometry | src/shapes/arc.rs:118-149 | 202 vertices per arc, each arc reading its own table |
| Arc.New | src/shapes/arc.rs:49-180 | `Arc::new` returns `Arc.Spec`, with the same precondition on empty batches as ellipses |
| Arc.ArcGeometry | src/shapes/arc.rs:118-145 | vertex j of arc i is its corrected centre for j = 0, and otherwise the rim point at angle start + (stop-start)*(j-1)/201 |
| Arc.TablesEntry | src/shapes/arc.rs:103-113 | entry k of arc i's table of f is f of its angle k, for the cosine and the sine alike |
| Arc.ArcVertex | src/shapes/arc.rs:118-159 | the fill buffer is the geometry in the fill colour |
| Arc.ClosedBatchTables | src/shapes/arc.rs:98-116 | one corrected table per arc |
| Arc.CorrectedGeometry | src/shapes/arc.rs:118-145 | the fans the arcs should have, 202 vertices per arc, over the corrected tables |
| Arc.ClosedEnds | src/shapes/arc.rs:103-113 | a corrected table's first rim entry is f of the start angle and its last rim entry f of the stop angle |
| Arc.CorrectedArcSpansSweep | src/shapes/arc.rs:118-145 | with the corrected tables the rim of every arc opens at its start angle and closes at its stop angle |
| Arc.RimPoint | src/shapes/arc.rs:118-145 | rim vertex j of arc i is read from entry j-1 of its tables |
| Arc.BatchTablesStep | src/shapes/arc.rs:100-116 | one more arc appends its own table to the batch's |
| Arc.ArcLayout | src/shapes/arc.rs:151-180 | `VBNoCreate` exactly when an upload is refused; otherwise 202n fill vertices, 202n-2 stroke vertices, TriangleFan fill and LineStrip stroke |
| Line.Segments | src/shapes/line.rs:75-105 | the first n segments have 2n vertices |
| Line.ColorPairs | src/shapes/line.rs:108-122 | the even-index loop that colours each vertex and its successor stamps the whole buffer, like `load_colors` |
| Line.Tessellate | src/shapes/line.rs:75-105 | the push loop builds both corrected endpoints of every segment in order |
| Line.New | src/shapes/line.rs:46-182 | `Line::new` returns `Line.Spec`; the endpoint vectors need at least the length of `x1`, and the z inputs are ignored |
| Line.LineEnds | src/shapes/line.rs:61-122 | segment c of a stroked batch is its two endpoints, corrected whenever preservation is on, at z = eps*c, in the stroke colour when that is 4 long |
| Line.SegmentsAt | src/shapes/line.rs:75-105 | the endpoints of segment c sit at offsets 2c and 2c+1 |
| Line.LineLayout | src/shapes/line.rs:137-181 | fill and stroke are one buffer, with 2n vertices when the stroke is on and none when it is off; both are LinesList; `VBNoCreate` exactly when the upload is refused; the fill colour is never used |
| Point.Dots | src/shapes/point.rs:57-74 | n points give n vertices |
| Point.New | src/shapes/point.rs:41-121 | `Point::new` returns `Point.Spec`; `y` needs at least the length of `x`; the uploads are unwrapped, so the caller must rule out a refused upload |
| Point.DotsAt | src/shapes/point.rs:57-74 | vertex i is point i, corrected, at z = eps*i |
| Point.PointShape | src/shapes/point.rs:57-120 | fill and stroke are one buffer with one vertex per point, empty with the stroke off, and both rules are Points |
| Point.PointLayout | src/shapes/point.rs:45-81 | a stroked point sits at its corrected position at z = eps*i, in the stroke colour when that is 4 long |
| Cube.Block | src/shapes/cube.rs:151-164 | the first m template corners, scaled, number m |
| Cube.Cubes | src/shapes/cube.rs:149-165 | n cubes of `per` corners give per*n vertices |
| Cube.New | src/shapes/cube.rs:37-220 | `Cube::new` returns `Cube.Spec`: 35 scaled template corners per size, fill then stroke stamped, with NoIndices TrianglesList fill and LineLoop stroke |
| Cube.PushCube | src/shapes/cube.rs:151-164 | the inner loop walks the template three values at a time and appends 35 scaled corners |
| Cube.CubesAt | src/shapes/cube.rs:149-165 | corner k of cube c sits at offset per*c + k |
| Cube.BlockAt | src/shapes/cube.rs:151-164 | vertex k of a block is template corner k scaled |
| Cube.TopFaceTriangle | src/shapes/cube.rs:38-147 | template triangle 11, the one the constructor leaves incomplete, lies in the face z = +1, and its last corner (1,-1,1) is never read |
| Cube.AsWrittenLosesTriangle | src/shapes/cube.rs:150-165 | as written a cube gets 35 corners, which is eleven triangles and two corners left over; in a batch the leftovers form a triangle with the next cube's first corner |
| Cube.CorrectedKeepsTriangles | src/shapes/cube.rs:150-165 | with all 36 corners, triangle t of cube c is template triangle t scaled by s[c] |
| Cube.CubeColors | src/shapes/cube.rs:203-207 | the fill carries the fill colour and the stroke the stroke colour (or the fill's), over unchanged geometry |
| Transform.Matrices.constructor | src/screen.rs:234-273 | a new Screen starts with the identity and a stack holding one identity |
| Transform.Matrices.ApplyMatrix | src/transform.rs:8-47 | `applyMatrix` pre-multiplies the current matrix by the row-major matrix of its 16 arguments and keeps the stack |
| Transform.Matrices.PopMatrix | src/transform.rs:51-58 | `popMatrix` is `Pop`: the top of a non-empty stack becomes current, and an empty stack gives the identity |
| Transform.Matrices.PushMatrix | src/transform.rs:64-66 | `pushMatrix` is `Push`: the current matrix is appended to the stack and stays current |
| Transform.Matrices.ResetMatrix | src/transform.rs:70-72 | `resetMatrix` makes the identity current and keeps the stack |
| Transform.Matrices.Rotate | src/transform.rs:76-98 | `rotate` pre-multiplies by the library's axis-angle matrix for (x, y, z) |
| Transform.Matrices.RotateX | src/transform.rs:102-105 | `rotateX` pre-multiplies by the axis-angle matrix about (1,0,0) |
| Transform.Matrices.RotateY | src/transform.rs:109-112 | `rotateY` pre-multiplies by the axis-angle matrix about (0,1,0) |
| Transform.Matrices.RotateZ | src/transform.rs:116-119 | `rotateZ` pre-multiplies by the axis-angle matrix about (0,0,1) |
| Transform.Matrices.Scale | src/transform.rs:123-129 | `scale` replaces the current matrix by the library's in-place scaling of it and keeps the stack |
| Transform.Matrices.ShearX | src/transform.rs:133-154 | `shearX` pre-multiplies by the identity with tan(angle) in row 0, column 1 |
| Transform.Matrices.ShearY | src/transform.rs:158-179 | `shearY` pre-multiplies by the identity with tan(angle) in row 1, column 0 |
| Transform.Matrices.Translate | src/transform.rs:183-187 | `translate` pre-multiplies by the identity with x, y, z in the last column |
| Transform.PushSaves | src/transform.rs:64-66 | a push keeps the current matrix and appends it to the stack; the rest of the stack is unchanged |
| Transform.PopRestores | src/transform.rs:51-58 | a pop from a non-empty stack makes its top current and shortens it by one; from an empty stack it gives the identity and leaves it empty, so it never fails |
| Transform.PushThenPop | src/transform.rs:51-66 | a push followed by a pop restores both the current matrix and the stack |
| Transform.PushApplyPop | src/transform.rs:46-66 | whatever is applied between a push and its pop is undone by the pop |
| Transform.ResetKeepsStack | src/transform.rs:70-72 | reset gives the identity, keeps the stack, and is idempotent |
| Transform.IdentityLeft | src/transform.rs:46 | pre-multiplying by the identity changes nothing |
| Transform.TranslateZero | src/transform.rs:183-187 | `translate(0,0,0)` and a shear with tan = 0 leave the state unchanged |
| Transform.ApplyToIdentity | src/transform.rs:27-46 | after a reset, `applyMatrix` makes the given matrix current |
| Transform.TranslationsCompose | src/transform.rs:183-187 | two translations compose into the translation by the summed offsets |
| Transform.OnlyPushPopTouchStack | src/transform.rs:46-186 | apply and reset keep the stack; push grows it by one and pop shrinks a non-empty one by one |
| Color.Interleaved | src/color.rs:37-44 | interleaving n entries of the channels gives 4n values |
| Color.ColorState.constructor | src/screen.rs:282-303 | a new Screen has fill and stroke on, a white fill, a black stroke and mode "RGB" |
| Color.ColorState.ColorMode | src/color.rs:21-23 | `color_mode` stores the mode verbatim and changes nothing else |
| Color.ColorState.Fill | src/color.rs:32-47 | `fill` enables the fill and, in "RGB" mode only, rebuilds the fill colour with its push loop; the result is `AfterFill`; only in "RGB" mode must g, b and a be as long as r |
| Color.ColorState.FillOff | src/color.rs:53-55 | `fill_off` clears only the fill flag and keeps the colour |
| Color.ColorState.StrokeOff | src/color.rs:63-65 | `stroke_off` clears only the stroke flag |
| Color.ColorState.FillOn | src/color.rs:70-72 | `fill_on` sets only the fill flag |
| Color.ColorState.StrokeOn | src/color.rs:77-79 | `stroke_on` sets only the stroke flag |
| Color.ColorState.Stroke | src/color.rs:88-103 | `stroke` enables the stroke and, in "RGB" mode only, rebuilds the stroke colour; the result is `AfterStroke` |
| Color.InterleavedAt | src/color.rs:38-44 | entry 4i+c of the interleaving is channel c of entry i |
| Color.FillEffect | src/color.rs:32-47 | after `fill` the fill is on; in "RGB" mode the colour is r[i], g[i], b[i], a[i] for each i, 4·\|r\| long; in any other mode it is kept; stroke and mode are untouched |
| Color.StrokeEffect | src/color.rs:88-103 | the same for `stroke`, which leaves the fill and the mode untouched |
| Color.FillUndoesFillOff | src/color.rs:30-35 | `fill` after `fill_off` equals `fill` alone, and the same holds for the stroke |
| Color.SingleFillStamps | src/color.rs:36-44 | a one-entry "RGB" fill gives a 4-long colour that stamps every vertex with exactly that colour |
| Color.BatchFillNotStamped | src/color.rs:36-44 | an "RGB" fill whose channels are not 1 long gives a colour that `load_colors` ignores |
| Rendering.BlendFor | src/rendering.rs:6-130 | the blend table is defined exactly on the nine Processing mode names |
| Rendering.BlendModeOnlyBlend | src/rendering.rs:6-130 | `blend_mode` writes only the blend field; an unknown name changes nothing; a known name installs its table entry |
| Rendering.BlendAlpha | src/rendering.rs:11-129 | every mode keeps the constant colour (1,1,1,1); the alpha function is AlwaysReplace for REPLACE only and Addition(One, One) for every other mode |
| Rendering.BlendTableInjective | src/rendering.rs:7-129 | no two of the nine names select the same blend |
| Rendering.BlendIsInitial | src/rendering.rs:18-28 | "BLEND" restores the blend a new Screen starts with (src/screen.rs:166-176) |
| Rendering.BlendLastWins | src/rendering.rs:6-130 | selecting a known mode is idempotent, and the last of two selections wins |
| Environment.CursorFor | src/environment.rs:36-48 | the cursor table is defined exactly on HAND, ARROW, CROSS, MOVE, TEXT and WAIT |
| Environment.FocusedLoop | src/environment.rs:60-73 | `focused` is true exactly when some polled event is a `Focused` window event, whether focus was gained or lost |
| Environment.Smoothed | src/environment.rs:112-126 | `smooth` and `no_smooth` set only the smooth parameter, to Some(Nicest) and None respectively |
| Environment.CursorTable | src/environment.rs:36-48 | the six names select Hand, Arrow, Crosshair, Move, Text and Wait, never Default; any other string keeps the current cursor |
| Environment.CursorTableInjective | src/environment.rs:36-48 | two different known names never select the same icon |
| Environment.SmoothLastWins | src/environment.rs:112-126 | the last smoothing switch wins |
| GlfwEnvironment.GlfwCursorFor | src/glfwp5/environment.rs:20-41 | the glfw table is defined exactly on HAND, ARROW, CROSS, MOVE and TEXT; WAIT selects nothing |
| GlfwEnvironment.GlfwFocusedLoop | src/glfwp5/environment.rs:45-58 | glfw `focused` is true exactly when a `Focus(true)` message was flushed |
| GlfwEnvironment.GlfwCursorTable | src/glfwp5/environment.rs:24-36 | CROSS and MOVE both give Crosshair, TEXT gives IBeam, HAND and ARROW their own cursors, and WAIT or any other string keeps the current cursor |
| GlfwEnvironment.CursorTablesDiffer | src/glfwp5/environment.rs:24-36 | glfw maps MOVE like CROSS and has no WAIT cursor, while glutin tells them apart (src/environment.rs:40-47) |
| Input.PollLoop | src/input.rs:97-144 | the loop over four locals ends with exactly the latches `Poll` gives, or panics on the first `Closed` |
| Input.PanicSticks | src/input.rs:106 | once a `Closed` event has panicked the poll, no later event undoes it |
| Input.Matches | src/input.rs:8-22 | `key_press` (and `mouse_press`, `mouse_release` at src/input.rs:48-80) is true exactly when the latch holds the given key or button |
| Input.FoldIsLastWins | src/input.rs:97-144 | a poll panics exactly when some event is `Closed`; otherwise the key latch is the last pressed key with a key code, the press and release latches the last pressed and last released buttons, and the position the last cursor position or (-100, -100) |
| Input.LastOfIsLast | src/input.rs:102-138 | "the last event that speaks" yields `v` exactly when some event yields `v` and no later one yields anything, and nothing exactly when no event yields anything |
| Input.PollQueries | src/input.rs:8-22 | after a poll, `key_press(b)`, `mouse_press(m)` and `mouse_release(m)` hold exactly when the last relevant event carried `b` or `m` |
| Input.PollCursor | src/input.rs:84-92 | `mouse_x`/`mouse_y` read (-100, -100) when the cursor did not move during the poll, and the last `CursorMoved` position otherwise |
| GlfwInput.GlfwPollLoop | src/glfwp5/screen.rs:380-464 | the glfw message loop ends with exactly the latches `GlfwPoll` gives, or panics on the first `Close` |
| GlfwInput.GlfwPanicSticks | src/glfwp5/screen.rs:393 | once a `Close` message has panicked the loop, no later message undoes it |
| GlfwInput.SpaceWait | src/glfwp5/input.rs:28-41 | the scan of a flushed batch stops at the first space-bar press, or at the end when there is none |
| GlfwInput.GlfwFoldIsLastWins | src/glfwp5/screen.rs:380-464 | a glfw poll panics exactly when some message is `Close`; otherwise the key latch is the last key message of any action, the press and release latches the last press and last release, and the position the last cursor message or (-100, -100) |
| GlfwInput.BackendsDifferOnRelease | src/glfwp5/screen.rs:445-447 | a released key is latched by glfw but not by glutin (src/input.rs:107-115), and a repeated mouse button sets neither glfw button latch |
| GlfwInput.GlfwPollKey | src/glfwp5/input.rs:10-24 | after a glfw poll, `key_press(k)` holds exactly when the last key message was for `k` |
| Shaders.CopyIsSame | src/shaders.rs:22-26 | the entry-by-entry copy of the current matrix inside `create_uniforms!` is the matrix itself |
| Shaders.CreateUniforms | src/shaders.rs:18-40 | `create_uniforms!` binds the caller's uniforms in order, then `MVP` bound to the current matrix, last |
| Shaders.InfoAccessors | src/shaders.rs:42-61 | `ShaderInfo::new(i, u).get_idx()` is `i`; `set(v)` makes `get_uniforms()` return `v` and keeps the index |
| Shaders.InitBank | src/screen.rs:783-1042 | `init_shaders` succeeds exactly when all four built-in programs compile |
| Shaders.InitShaders | src/screen.rs:783-1042 | the four pushes, each compilation returned with `?`, end exactly as `InitBank` says |
| Shaders.InitBankLayout | src/screen.rs:838-1040 | a successful bank holds exactly basic, textured, font and framebuffer programs, in that order, so slot 3 is the blit program |
| Shaders.IndexOf | src/shaders.rs:269-270 | the first position of a character in a line, or none when it does not occur |
| Shaders.Lines | src/shaders.rs:266 | a non-empty file has at least one line and an empty file none |
| Shaders.LinesHaveNoNewline | src/shaders.rs:266 | no line read from a file contains a newline |
| Shaders.JoinLines | src/shaders.rs:266-283 | joining the lines of a file with "\n" gives the file back when it has no carriage return and no trailing newline |
| Shaders.IncludePathOf | src/shaders.rs:268-272 | for `#include <p>` with no `<` before the bracket or in `p`, the file read is exactly `p` (the second `<`-piece without its last character) |
| Shaders.Pieces | src/shaders.rs:265-281 | there is one piece per line of the file |
| Shaders.PiecesInOrder | src/shaders.rs:268-280 | an `#include` line is replaced by the whole named file, and any other line is kept as it is, in place |
| Shaders.ParseIncludesLoop | src/shaders.rs:262-284 | the line loop pushing onto `totalContents` and the final `join("\n")` give `ParseIncludes` |
| Shaders.NoIncludesVerbatim | src/shaders.rs:262-284 | a file without `#include` lines, carriage returns or a trailing newline comes back unchanged |
| Draw.WithStrokeWeight | src/shapes/draw.rs:222-225 | `stroke_weight(w)` sets both point size and line width to `w` and changes no other parameter |
| Draw.StrokeWeightLastWins | src/shapes/draw.rs:222-225 | a second stroke weight replaces the first |
| Draw.PlanShape | src/shapes/draw.rs:15-74 | one fill call exactly when the fill is on, first, whatever its index type; one stroke call exactly when the stroke is on and the stroke has no index buffer, last; all with the same program, uniforms and parameters |
| Draw.DrawProgram | src/shapes/draw.rs:15-74 | a textured shape is drawn with slot 1 and the uniforms (`tex`, `MVP`), any other with slot 0 and `MVP` alone, `MVP` being the current matrix, whatever the current shader is |
| Draw.DrawBuiltIn | src/shapes/draw.rs:16-45 | with the built-in bank, textured shapes use the textured program and others the basic program |
| Draw.MouldProgram | src/shapes/draw.rs:87-124 | `draw_mould` uses the program at the mould's index and exactly the mould's uniforms: no MVP is added when the mould has none |
| Draw.IssueSpec | src/shapes/draw.rs:20-70 | the draws issued with `?` are a prefix of the plan; all are drawn and the result is Ok exactly when the GPU accepts every call; otherwise drawing stops with `FBDrawFailed` at the first refused call |
| Draw.FailedFillStops | src/shapes/draw.rs:20-31 | a refused fill draw returns `FBDrawFailed` before the stroke is tried, and nothing is drawn |
| Draw.FramebufferParamsShape | src/framebuffers.rs:52-61 | framebuffer draws do not write depth, use the Overwrite test, no multisampling and no smoothing, and differ from the library default only in multisampling |
| Draw.FramebufferLikeDraw | src/framebuffers.rs:44-115 | `draw_onto_framebuffer` issues the same calls as `draw`, with the framebuffer parameters in place of the Screen's |
| Draw.MouldFramebufferDefault | src/framebuffers.rs:126-188 | `draw_mould_onto_framebuffer` builds the framebuffer parameters but draws with the library defaults (depth writes off, multisampling on) |
| GlutinScreen.FirstFailure | src/screen.rs:69-230 | successive `?` stages succeed exactly when every stage does, and otherwise report a stage that fails while every stage before it succeeds |
| GlutinScreen.SetupErrorOrder | src/screen.rs:33-328 | the constructor fails exactly when some stage fails or some shader does not compile; it fails only with a stage's error or `ShaderCompileFail`, and a failing first stage is the one reported |
| GlutinScreen.DisplayFirst | src/screen.rs:69 | a window whose display cannot be created reports `DisplayNoCreate`, whatever else would fail |
| GlutinScreen.BlitQuadShape | src/screen.rs:206-230 | the blit quad is four clip-space corners drawn as two triangles sharing a diagonal, and each corner's texcoord is its position mapped from [-1, 1] to [0, 1] |
| GlutinScreen.RevealErrorsFirst | src/screen.rs:615-683 | a failed blit returns `DrawFailed` and a failed swap `SwapFailed`, whatever the events; `reveal` panics exactly when both went through and some event is `Closed` |
| GlutinScreen.IssueTwo | src/shapes/draw.rs:20-70 | a fill draw then a stroke draw, each with `?`: a refused fill draws nothing, a refused stroke leaves the fill drawn, and otherwise both are drawn |
| GlutinScreen.IssueOne | src/shapes/draw.rs:20-25 | a single draw is drawn when the GPU accepts it and returns `FBDrawFailed` otherwise |
| GlutinScreen.Screen.Make | src/screen.rs:232-327 | the struct literal: an identity transform over a stack holding one identity, white fill and black stroke both on, the built-in bank, shader 0 with alternate 1 << 20, CENTER/CORNER modes, 60 fps, frame 0, the default cursor, cleared latches |
| GlutinScreen.Screen.New | src/screen.rs:33-328 | `Screen::new` returns the first failed stage's error (display, textures, shaders, vertex buffer, index buffer) and otherwise a fresh Screen in its initial state; the caller must rule out a refused framebuffer, which `expect` turns into a panic |
| GlutinScreen.Screen.NewHeadless | src/screen.rs:345-606 | `Screen::new_headless` does the same with renderer, context and headless display as its first stages, and marks the Screen headless |
| GlutinScreen.Screen.Reveal | src/screen.rs:615-684 | blit with program 3 and swap, returning `DrawFailed` or `SwapFailed` first; a `Closed` event panics; otherwise the latches are the poll's and the frame count goes up by one; a failed frame changes neither |
| GlutinScreen.Screen.RevealWithEvents | src/screen.rs:690-764 | as `reveal`, and a frame that got through also returns every polled event, in order |
| GlutinScreen.Screen.PollEvents | src/input.rs:97-144 | the latches become the poll's unless it panics; the frame count is not touched |
| GlutinScreen.Screen.KeyPress | src/input.rs:8-22 | true exactly when the key latch holds the given key |
| GlutinScreen.Screen.MousePress | src/input.rs:48-62 | true exactly when the press latch holds the given button |
| GlutinScreen.Screen.MouseRelease | src/input.rs:66-80 | true exactly when the release latch holds the given button |
| GlutinScreen.Screen.Cursor | src/environment.rs:31-56 | the cursor becomes the table's icon for a known name and stays as it was otherwise; the call returns Ok |
| GlutinScreen.Screen.ResetCursor | src/environment.rs:11-25 | the cursor becomes Default and the call returns Ok |
| GlutinScreen.Screen.SetFrameRate | src/environment.rs:89-91 | `get_frame_rate` then returns the rate set |
| GlutinScreen.Screen.Smooth | src/environment.rs:121-126 | the parameters' smoothing becomes Nicest, nothing else changes |
| GlutinScreen.Screen.NoSmooth | src/environment.rs:112-117 | the parameters' smoothing is switched off, nothing else changes |
| GlutinScreen.Screen.BlendMode | src/rendering.rs:6-130 | a known mode name replaces the blend, an unknown one leaves the parameters alone |
| GlutinScreen.Screen.LoadFragShader | src/shaders.rs:107-177 | the spliced fragment shader is pushed onto the bank, the returned info holds its index and the uniforms, and the built-in slots are kept |
| GlutinScreen.Screen.Shader | src/shaders.rs:248-253 | the info's index becomes both the current and the alternate shader, and the alternate shader is in use |
| GlutinScreen.Screen.ResetShader | src/shaders.rs:256-259 | the current shader goes back to 0 and the alternate shader is no longer in use |
| GlutinScreen.Screen.Dispatch | src/shapes/draw.rs:20-70 | the fill and stroke draws, each with `?`, add to the framebuffer exactly the calls `Issue` accepts and return its result |
| GlutinScreen.Screen.Draw | src/shapes/draw.rs:15-74 | `draw` adds to the Screen's framebuffer the accepted prefix of the shape's plan and returns Ok or `FBDrawFailed` |
| GlutinScreen.Screen.DrawMould | src/shapes/draw.rs:87-124 | `draw_mould` does the same with the mould's program and uniforms |
| GlutinScreen.Screen.DrawOntoFramebuffer | src/framebuffers.rs:44-115 | the given framebuffer gets the shape's plan drawn with the framebuffer parameters; the Screen is left alone |
| GlutinScreen.Screen.DrawMouldOntoFramebuffer | src/framebuffers.rs:126-188 | the given framebuffer gets the mould's plan drawn with the library default parameters |
| GlutinScreen.Screen.StrokeWeight | src/shapes/draw.rs:222-225 | the draw parameters become `WithStrokeWeight` of the old ones |
| GlutinScreen.Screen.EllipseMode | src/shapes/draw.rs:227-229 | the ellipse mode becomes the given string |
| GlutinScreen.Screen.RectMode | src/shapes/draw.rs:231-233 | the rect mode becomes the given string |
| GlutinScreen.Screen.ShapeMode | src/shapes/draw.rs:235-237 | the shape mode becomes the given string |
| GlfwScreen.GlfwInitShaders | src/glfwp5/screen.rs:519-776 | the glfw `init_shaders` unwraps every compilation, so when all four compile it returns the same four programs, in the same order, as the glutin one |
| GlfwScreen.Screen.constructor | src/glfwp5/screen.rs:33-360 | a new glfw Screen holds the glutin initial state (the same draw parameters at 186-208 and bank), with the Arrow cursor (211, 348) |
| GlfwScreen.Screen.Reveal | src/glfwp5/screen.rs:363-501 | the blit and the swap are unwrapped; a `Close` message panics; otherwise the latches become the message loop's and the frame count goes up by one; a panicked frame changes neither |
| GlfwScreen.Screen.KeyPress | src/glfwp5/input.rs:10-24 | true exactly when the key latch holds the given key |
| GlfwScreen.Screen.MousePress | src/glfwp5/input.rs:45-59 | true exactly when the press latch holds the given button |
| GlfwScreen.Screen.MouseRelease | src/glfwp5/input.rs:63-77 | true exactly when the release latch holds the given button |
| GlfwScreen.Screen.Cursor | src/glfwp5/environment.rs:20-42 | the cursor becomes the glfw table's cursor for a known name; WAIT and any other string keep the current one |
| GlfwScreen.Screen.ResetCursor | src/glfwp5/environment.rs:10-17 | the cursor becomes Arrow |
| GlfwScreen.Screen.SetFrameRate | src/glfwp5/environment.rs:71-73 | `get_frameRate` then returns the rate set |
| GlfwScreen.Screen.Smooth | src/glfwp5/environment.rs:96-101 | the parameters' smoothing becomes Nicest, nothing else changes |
| GlfwScreen.Screen.NoSmooth | src/glfwp5/environment.rs:88-93 | the parameters' smoothing is switched off, nothing else changes |
| GlfwScreen.GlfwBlitQuadFlipped | src/glfwp5/screen.rs:233-256 | the glfw quad has glutin's four corners, each with its texcoord mirrored top to bottom, so v = (1 - y) / 2 |

## Left out

- Window, context, texture, framebuffer, vertex-buffer and index-buffer creation are foreign library calls. Each one is an abstract `ok` predicate (or a `vbOk`/`ibOk` predicate on the uploaded data) that decides whether the stage succeeds, and a created buffer is the vertex sequence it was given.
- `cos`, `sin`, `tan`, `Matrix4::from_axis_angle` and `append_nonuniform_scaling` are floating-point library numerics. They are function parameters, so the model states structure (counts, order, stack effects) and not their values.
- The f64 to f32 casts, f32 rounding and `isize` overflow of the frame counter are not modelled. Values are reals and the counters are unbounded integers.
- src/image.rs is not part of this model: it is pixel read-back, float to byte casts and image-file I/O.
- The file reads of `parse_includes` are a map from path to contents. The `full.frag` write of `load_frag_shader` is left out, and a missing file (an `unwrap` that panics) is excluded by the `requires`.
- The glutin `space_wait` blocks in `run_forever` and has no finite behaviour; only the glfw one, which scans one flushed batch, is modelled.
- A `panic!` ends the program. Only the panic on a polled window `Closed` message (in `reveal`, `reveal_with_events` and the polls of both back ends) is returned: as the terminal outcome `Panicked`, as `None` from the poll functions and as `panicked` from the glfw `reveal`, leaving the latches and the frame count as they were. Every other panic is excluded by a `requires`, so the model promises nothing for those inputs; the lines below name them.
- Rect.New, Quad.New, Triangle.New, Point.New, Cube.New: the vertex uploads (and for rects and quads the index upload) are unwrapped, so a refused upload is excluded by `requires vbOk(..)` / `requires ibOk(..)` rather than returned.
- Rect.New, Quad.New: the first index block is written unconditionally, so an empty batch, which panics at `elements[0]`, is excluded by `requires |xtopleft| >= 1` / `requires |x1i| >= 1`.
- Rect.New, Ellipse.New, Arc.New: all vector arguments must have one length. Their loops run over different vectors (rects: the aspect loop over `width`, the others over `xtopleft`; ellipses and arcs: the aspect and size loops over `w`, the vertex loop over `xc`), so unequal lengths panic or ignore trailing entries depending on which vector is longer and on the aspect flag; the model does not describe those cases. Quad.New, Triangle.New, Line.New and Point.New accept secondary vectors longer than the first, as their source does; the model corrects the trailing entries too, which no later step reads.
- Ellipse.New, Arc.New: an empty batch panics at the stroke slice `[1..len-1]` once the fill upload went through, so it is excluded by `requires |xci| >= 1 || !vbOk([])`.
- Color.ColorState.Fill, Color.ColorState.Stroke: in "RGB" mode a g, b or a channel shorter than r panics at the index; `requires cMode == "RGB" ==> Channels(..)` excludes it.
- GlutinScreen.Screen.LoadFragShader: the compilation of the spliced shader is unwrapped, so a shader that does not compile is excluded by `requires compiles(..)`.
- GlutinScreen.Screen.New, GlutinScreen.Screen.NewHeadless: the framebuffer over the two textures is built with `expect` (src/screen.rs:140 and :422), so its failure is excluded by `requires framebufferOk`.
- The framebuffer draws `unwrap` every GPU draw, so a refused draw panics. `DrawOntoFramebuffer` and `DrawMouldOntoFramebuffer` model only draws the GPU accepts.
- The glfw constructor unwraps every setup stage and panics when the window closes before the first frame. `GlfwScreen.Screen.constructor` models only the run where setup succeeds, and `GlfwScreen.Screen.Reveal` requires the blit and the swap to succeed.
- The effect of `cursor`, `reset_cursor` and `no_cursor` on the window (`set_cursor`, `set_cursor_mode`) is a foreign call. Only the stored cursor is modelled, and `no_cursor`, `width` and `height` are not modelled.
- `focused` polls the window and is modelled as a loop over the polled events (`Environment.FocusedLoop`, `GlfwEnvironment.GlfwFocusedLoop`), not as a Screen method.
- The glfw Screen shares its colour, transform, shader and draw methods with the glutin one. They are modelled once, on `GlutinScreen.Screen`, and not repeated on `GlfwScreen.Screen`.
- `frame_count`, `get_frame_rate`, `mouse_x` and `mouse_y` are field reads. They are functions on both Screen classes without contracts of their own; `Input.PollCursor` states what `mouse_x` and `mouse_y` return.
- Associativity of `apply_matrix` over several calls is not stated. The matrix product is a library parameter, so it would not follow without extra assumptions about that parameter.
- src/glfwp5/backend.rs is a thin adapter over glfw and glium and is not part of this model.
- src/shapes/mould.rs holds only accessors whose signatures do not match src/shaders.rs. A Mould is the pair `Draw.Mould` of a shape and a `ShaderInfo`.
- `mac_priority` in src/lib.rs, pri.c and build.rs are OS and FFI code; examples/ and benches/ are not part of this model.
- The inconsistent field names of the crate (`fillStuff`/`fill_stuff` and the like) are one field each in the model.

## Findings

| source | as written | input that shows it | evidently intended | confidence | as-written member | corrected member |
|---|---|---|---|---|---|---|
| src/shapes/cube.rs:150-165 | the inner loop runs `for _ in 0..35` over a template of 36 corners, so each cube gets 35 corners: eleven triangles plus two stray corners | any size list with two or more entries: the stray corners of the first cube form a triangle with the first corner of the second, and the last triangle of every cube is lost | 36 corners per cube, twelve whole triangles | not executed | Cube.AsWrittenLosesTriangle (about `Cube.Spec`, which `Cube.New` returns) | Cube.CorrectedKeepsTriangles (about `Cube.CorrectedSpec`) |
| src/shapes/ellipse.rs:91-136, src/shapes/arc.rs:96-145 | the angle step is 1/201 over a table of 202 entries, but the rim reads only entries 0 to 200, so the last rim point is at 200/201 of the sweep | any ellipse or arc: the last rim point stops one step short of the stop angle, so the ellipse fan leaves a gap and the arc misses its end angle | a step of 1/200, so that the 201 rim points run from the start angle to the stop angle | not executed | Fan.RimStopsShort (about `Fan.Angle`, which `Arc.Geometry` and `Ellipse.Geometry` read through `Fan.Table`) | Arc.CorrectedArcSpansSweep (about `Arc.CorrectedGeometry`, built on `Fan.ClosedTable` and `Fan.ClosedRimSpansSweep`) |
