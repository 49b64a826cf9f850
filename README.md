# Verified model of the canvas/WebGL teaching demos

The repository is a set of small browser demos. This project models the two parts
that behave in a way that can be stated and proved.

**The demo navigator (`list.js`).** A drop-down `<select>` lists the demos named in
the `projects.json` manifest.
- An arrow key steps the selection one place forward or back, wrapping around.
- Every change of selection sends the browser to `"../" + item`.
- When the manifest loads, the option whose name matches the page path (`/item/`,
  ignoring case) is pre-selected.

Module `DemoList` models this:
- `Navigator` is a class holding the options, `selectedIndex`, the page path and the
  list of navigation targets assigned to `window.location.href`.
- The keyup rule is specified by pure functions.
- The option-building loop is a `while` loop proved against `Options` and
  `SelectionAfterLoad`.

**Vertex layout and attribute binding in the triangle demos 06, 08, 09, 10 and 12.**
Module `WebGL` is an abstract WebGL 1.0 context. It is a class with:
- the buffers;
- the ARRAY_BUFFER binding;
- the vertex-attribute table, where each pointer records the buffer bound at the time
  of the `vertexAttribPointer` call;
- the program in use and its uniforms;
- the error flag;
- a trace of every state-changing call the demos make on it, `createBuffer` included.

`drawArrays` fetches data by the addressing rule of section 2.8 ("Vertex Arrays") of
the OpenGL ES 2.0 specification: component j of vertex i is read at byte
offset + i·stride + 4j, and a stride of 0 means tightly packed. It applies the WebGL
1.0 checks:
- offset and stride are multiples of 4 (section 6.4 of the WebGL 1.0 specification);
- stride is at most 255;
- every read of an enabled attribute that the program uses lies inside its buffer.

Module `Layouts` holds two things:
- the expected per-vertex streams of the separate-buffer layout and of the interleaved
  layout;
- the interleaving of two arrays into records, proved to deliver the same values.

Each demo has one module. Its `Triangle` class issues the demo's state-changing calls
in the demo's order, and lemmas prove that:
- the demo's stride and offset arithmetic gives well-formed, disjoint, in-range
  attributes;
- each attribute captures the intended buffer;
- the draw delivers the intended per-vertex values.

Module `Frame` holds the per-tick prologue of `onUpdate`: bind framebuffer, viewport,
clear colour, clear.

Foreign values enter as parameters:
- the program id and the attribute locations that `createProgram` and
  `getAttribLocation` return;
- the drawing-buffer size;
- the manifest;
- the page path;
- the frame time.

The first, direct `onUpdate()` call passes no time. That is modelled as
`TimeArg.Undefined`, which the uniform receives as NaN.

## Model

| member | source | states |
|---|---|---|
| `WebGL.Fetch` | 09_webgl_one_buffer/main.js:114-126 | the components read for vertex i under the offset + i·stride rule (stride 0 = tightly packed) are exactly `size` consecutive values of the buffer, starting at value (offset + i·stride)/4 |
| `WebGL.Draw` | 09_webgl_one_buffer/main.js:126 | drawArrays is rejected with INVALID_VALUE exactly when first or count is negative, and draws exactly when in addition a program is in use and every enabled active attribute has a buffer and reads only inside it; a draw delivers `count` vertices with one value per active attribute |
| `WebGL.PointerError` | 09_webgl_one_buffer/main.js:114 | vertexAttribPointer takes effect exactly when the location exists, a buffer is bound, and size is 1..4, stride ≤ 255, offset and stride are multiples of 4; a size out of 1..4 or a negative stride or offset is INVALID_VALUE |
| `WebGL.FitsLast` | 09_webgl_one_buffer/main.js:126 | every vertex of a draw lies inside the buffer if and only if the last one does |
| `WebGL.Context.constructor` | 06_webgl_triangle/main.js:5 | a fresh context: no buffers, nothing bound, no program, every attribute disabled, no uniforms, no error, an empty trace, and the given limits and drawing-buffer size |
| `WebGL.Context.CreateBuffer` | 09_webgl_one_buffer/main.js:69 | a new empty buffer is added and its id returned; the call is traced |
| `WebGL.Context.BindBuffer` | 09_webgl_one_buffer/main.js:71 | ARRAY_BUFFER becomes the given buffer; the call is traced |
| `WebGL.Context.BufferData` | 09_webgl_one_buffer/main.js:72 | the bound buffer's contents become the data; with none bound, INVALID_OPERATION is recorded and nothing else changes |
| `WebGL.Context.UseProgram` | 09_webgl_one_buffer/main.js:98 | the program becomes current |
| `WebGL.Context.EnableVertexAttribArray` | 09_webgl_one_buffer/main.js:113 | the attribute is enabled and keeps its pointer; an out-of-range location records INVALID_VALUE |
| `WebGL.Context.VertexAttribPointer` | 09_webgl_one_buffer/main.js:114 | on success the attribute captures the buffer bound now, with size, stride and offset, and keeps its enabled flag; otherwise the table is unchanged and `PointerError` is recorded |
| `WebGL.Context.Uniform` | 10_webgl_uniform/main.js:119-120 | a uniform of the current program is set to the value; a location of another program records INVALID_OPERATION |
| `WebGL.Context.DrawArrays` | 09_webgl_one_buffer/main.js:126 | the trace records the outcome of `Draw` on the current state, and a rejection records its error |
| `WebGL.Context.BindFramebuffer` | 09_webgl_one_buffer/main.js:142 | the call is traced |
| `WebGL.Context.Viewport` | 09_webgl_one_buffer/main.js:145 | the call is traced |
| `WebGL.Context.ClearColor` | 09_webgl_one_buffer/main.js:146 | the call is traced |
| `WebGL.Context.Clear` | 09_webgl_one_buffer/main.js:147 | the call is traced |
| `Frame.PrologueClearsFirst` | 09_webgl_one_buffer/main.js:138-151 | in a tick, the default framebuffer is bound and the viewport set first, and every draw after the prologue is preceded by a clear |
| `Frame.BeginFrame` | 09_webgl_one_buffer/main.js:141-147 | bindFramebuffer(null), viewport(0, 0, drawing-buffer size), clearColor(0, 0, 0, 1), clear, in that order |
| `Layouts.InterleaveAt` | 09_webgl_one_buffer/main.js:62-67 | record i of the interleaved array holds position i and then colour i |
| `Layouts.InterleavedMatchesSeparate` | 09_webgl_one_buffer/main.js:62-67 | reading an interleaved array record by record gives back exactly the positions and colours it was built from |
| `Layouts.SetAttribute` | 09_webgl_one_buffer/main.js:113-114 | enable followed by a well-formed pointer sets the attribute to enabled with that pointer on the bound buffer, without error |
| `Layouts.InterleavedDraw` | 09_webgl_one_buffer/main.js:106-126 | with position (size 2, stride 20, offset 0) and colour (size 3, stride 20, offset 8) on one buffer of 5n values, the draw of n vertices delivers values 5i..5i+2 and 5i+2..5i+5 for vertex i |
| `Layouts.SeparateDraw` | 08_webgl_interpolation/main.js:110-120 | with tightly packed position and colour buffers, vertex i receives positions 2i..2i+2 and colours 3i..3i+3 |
| `Layouts.PositionDraw` | 06_webgl_triangle/main.js:101-112 | with one tightly packed position buffer, vertex i receives positions 2i..2i+2 |
| `WebglTriangle.PositionPointer` | 06_webgl_triangle/main.js:109 | 2 components at byte 0 of the triangle's buffer; stride 0 reads as an 8-byte stride, so vertex i starts at byte 8i |
| `WebglTriangle.LayoutSound` | 06_webgl_triangle/main.js:20-29 | the data holds vertexSize × vertexCount = 6 values; the pointer (2, stride 0, offset 0) is well formed, reads as an 8-byte stride, and the 3-vertex draw ends exactly at the end of the buffer |
| `WebglTriangle.Triangle.constructor` | 06_webgl_triangle/main.js:31-37 | a new buffer holding the positions is created, bound and filled; nothing else changes |
| `WebglTriangle.Triangle.Draw` | 06_webgl_triangle/main.js:95-113 | useProgram, enable, bindBuffer, pointer, drawArrays in that order; v_position captures the triangle's buffer though it was enabled before the bind; the draw delivers the three positions |
| `WebglTriangle.OnUpdate` | 06_webgl_triangle/main.js:124-137 | one tick is the frame prologue followed by the triangle's draw, and leaves the context as the draw does: the attributes bound to the triangle's buffer, ARRAY_BUFFER and the program set, buffers, uniforms and error flag unchanged |
| `WebglInterpolation.PositionPointer` | 08_webgl_interpolation/main.js:113 | 2 components at byte 0 of the position buffer; stride 0 reads as 8 bytes, so vertex i starts at byte 8i |
| `WebglInterpolation.ColorPointer` | 08_webgl_interpolation/main.js:118 | 3 components at byte 0 of the colour buffer; stride 0 reads as 12 bytes, so vertex i starts at byte 12i |
| `WebglInterpolation.LayoutSound` | 08_webgl_interpolation/main.js:57-74 | 3 × 2 positions and 3 × 3 colours; effective strides 8 and 12 bytes; both pointers well formed and the draw ends exactly at the end of each buffer |
| `WebglInterpolation.SamePositionsAsTriangle` | 08_webgl_interpolation/main.js:62-67 | the positions, and so every vertex's position, are those of demo 06 |
| `WebglInterpolation.Triangle.constructor` | 08_webgl_interpolation/main.js:76-82 | two new buffers, filled with the positions and the colours in turn; the colour buffer stays bound |
| `WebglInterpolation.Triangle.Draw` | 08_webgl_interpolation/main.js:107-121 | each bindBuffer precedes its own pointer, so v_position captures the position buffer and v_color the colour buffer; the draw delivers position i and colour i to vertex i |
| `WebglInterpolation.OnUpdate` | 08_webgl_interpolation/main.js:132-145 | one tick is the frame prologue followed by the triangle's draw, and leaves the context as the draw does: the attributes bound to the triangle's two buffers (the colour buffer left bound), ARRAY_BUFFER and the program set, buffers, uniforms and error flag unchanged |
| `WebglOneBuffer.VertexByteSize` | 09_webgl_one_buffer/main.js:106 | 5 × 4 is the byte size of one position plus one colour, 20 |
| `WebglOneBuffer.VertexColorOffset` | 09_webgl_one_buffer/main.js:120 | 0 + 2 × 4 is the byte offset right after the position, 8, a multiple of 4 |
| `WebglOneBuffer.PositionPointer` | 09_webgl_one_buffer/main.js:110-114 | the position attribute is 2 components at byte 0 of a 20-byte record |
| `WebglOneBuffer.ColorPointer` | 09_webgl_one_buffer/main.js:120-124 | the colour attribute is 3 components at byte 8 of a 20-byte record |
| `WebglOneBuffer.LayoutSound` | 09_webgl_one_buffer/main.js:106-126 | both attributes well formed, each inside one record, not overlapping, and the draw of 3 vertices reads exactly the 60 bytes of the buffer (8 + 2 × 20 + 12) |
| `WebglOneBuffer.VerticesInterleaveSeparateArrays` | 09_webgl_one_buffer/main.js:62-67 | the interleaved array is demo 08's positions and colours, record by record |
| `WebglOneBuffer.SameVerticesAsSeparateBuffers` | 09_webgl_one_buffer/main.js:62-67 | the interleaved layout delivers, vertex by vertex, the same position and colour as demo 08's two buffers |
| `WebglOneBuffer.Triangle.constructor` | 09_webgl_one_buffer/main.js:69-72 | a new buffer holding the 15 values is created, bound and filled |
| `WebglOneBuffer.Triangle.Draw` | 09_webgl_one_buffer/main.js:97-127 | the bindings computed in onDraw capture the one buffer for both attributes, and the draw delivers values 5i..5i+2 and 5i+2..5i+5 to vertex i |
| `WebglOneBuffer.OnUpdate` | 09_webgl_one_buffer/main.js:138-151 | one tick is the frame prologue followed by the triangle's draw, and leaves the context as the draw does: the attributes bound to the triangle's one buffer, ARRAY_BUFFER and the program set, buffers, uniforms and error flag unchanged |
| `WebglUniform.VertexColorOffset` | 10_webgl_uniform/main.js:57-60 | 0 + 2 × 4 = 8, a multiple of 4 |
| `WebglUniform.VertexByteSize` | 10_webgl_uniform/main.js:61-71 | 15 values divide evenly into 3 vertices, and (15 / 3) × 4 is the 20-byte record |
| `WebglUniform.PositionPointer` | 10_webgl_uniform/main.js:110-112 | 2 components at byte 0 of a 20-byte record |
| `WebglUniform.ColorPointer` | 10_webgl_uniform/main.js:114-116 | 3 components at byte 8 of a 20-byte record |
| `WebglUniform.SameLayoutAsOneBuffer` | 10_webgl_uniform/main.js:110-116 | data and both bindings equal demo 09's, so the delivered vertices are identical |
| `WebglUniform.LayoutSound` | 10_webgl_uniform/main.js:57-71 | both attributes well formed, inside one record, disjoint, and every fetch of the draw inside the buffer |
| `WebglUniform.Triangle.constructor` | 10_webgl_uniform/main.js:55-76 | the offsets are computed once (8 and 20) and a buffer holding the 15 values is created, bound and filled |
| `WebglUniform.Triangle.Draw` | 10_webgl_uniform/main.js:105-123 | demo 09's binding sequence, then u_time set to this tick's time (NaN when the tick was called without one), then the 3-vertex draw from index 0 delivering the interleaved vertices |
| `WebglUniform.TickOrder` | 10_webgl_uniform/main.js:134-146 | in a tick, every draw is preceded by the clear and by the upload of u_time holding the tick's time |
| `WebglUniform.OnUpdate` | 10_webgl_uniform/main.js:134-147 | one tick is the prologue then the draw; afterwards u_time holds the time passed in (NaN on the first, direct call, which passes none) and no other uniform changed; both attributes point into the triangle's buffer, which stays bound, and the error flag is unchanged |
| `WebglViewTransformation.VertexColorOffset` | 12_webgl_view_transformation/main.js:59-62 | 0 + 2 × 4 = 8, a multiple of 4 |
| `WebglViewTransformation.VertexByteSize` | 12_webgl_view_transformation/main.js:83-90 | 15 values divide evenly into 3 vertices, and (15 / 3) × 4 = 20 |
| `WebglViewTransformation.PositionPointer` | 12_webgl_view_transformation/main.js:128-130 | 2 components at byte 0, stride 20 |
| `WebglViewTransformation.ColorPointer` | 12_webgl_view_transformation/main.js:132-134 | 3 components at byte 8, stride 20 |
| `WebglViewTransformation.LayoutSound` | 12_webgl_view_transformation/main.js:83-95 | same data and bindings as demo 10, well formed, disjoint, and the 3-vertex draw stays inside the 15-value buffer |
| `WebglViewTransformation.Metrics.constructor` | 12_webgl_view_transformation/main.js:7-11 | the metrics hold the given width, height and pixel ratio |
| `WebglViewTransformation.Triangle.constructor` | 12_webgl_view_transformation/main.js:57-95 | camera.aspect is taken from the metrics at construction; a buffer holding the 15 values is created, bound and filled |
| `WebglViewTransformation.Triangle.BindAttributes` | 12_webgl_view_transformation/main.js:126-134 | bindBuffer, then enable and pointer for position and for colour; both capture the triangle's buffer |
| `WebglViewTransformation.Triangle.UploadMatrices` | 12_webgl_view_transformation/main.js:136-158 | the model matrix is rebuilt from the identity (not accumulated over frames) and uploaded, then the perspective view matrix for the current aspect |
| `WebglViewTransformation.Triangle.Draw` | 12_webgl_view_transformation/main.js:123-161 | attributes, then u_model_matrix, then u_view_matrix, then the 3-vertex draw; both uniforms end up holding this frame's matrices |
| `WebglViewTransformation.Triangle.Resize` | 12_webgl_view_transformation/main.js:163-165 | camera.aspect becomes metrics.width / metrics.height as they are now |
| `WebglViewTransformation.TickOrder` | 12_webgl_view_transformation/main.js:177-190 | in a tick, every draw is preceded by the clear and by both matrix uploads |
| `WebglViewTransformation.OnUpdate` | 12_webgl_view_transformation/main.js:177-190 | one tick is the prologue followed by the triangle's draw; afterwards the model matrix is this tick's, rebuilt from the identity, the view matrix is the perspective for the current aspect, both are what the two uniforms hold, the attributes point into the triangle's buffer, and the error flag is unchanged |
| `WebglViewTransformation.OnResize` | 12_webgl_view_transformation/main.js:195-206 | the metrics are updated before triangle.resize(), so the aspect comes from the new width and height |
| `DemoList.ArrowKeys` | list.js:11-19 | a key equal, in any ASCII case, to ArrowRight or ArrowDown moves forward, and one equal to ArrowLeft or ArrowUp moves back |
| `DemoList.StandardKeys` | list.js:11-19 | the key names ArrowRight, ArrowDown, ArrowLeft and ArrowUp (and the lower-case arrowup) map to their directions |
| `DemoList.NonArrowKey` | list.js:11 | a key whose name has no "Arrow" in it is ignored |
| `DemoList.StepForward` | list.js:15-16 | (i + 1) mod n stays in 0..n-1 and is i + 1, or 0 after the last option |
| `DemoList.StepBackward` | list.js:17-18 | (i − 1 + n) mod n stays in 0..n-1 and is i − 1, or n − 1 before the first option |
| `DemoList.StepsInverse` | list.js:16-18 | a step forward followed by a step back (and the other way round) returns to the starting index |
| `DemoList.KeyUp` | list.js:10-25 | the selection stays valid; a change (and navigation) fires exactly when the index changes; non-arrow keys and an empty list change nothing; arrows move by one with wrap-around |
| `DemoList.SingleOptionNeverNavigates` | list.js:21-24 | with a single option no key changes the selection or navigates |
| `DemoList.JsRemainder` | list.js:16-18 | JavaScript's `%` by a length is NaN exactly when the length is 0; otherwise it is smaller in magnitude than the length, differs from the dividend by a multiple of the length, has the dividend's sign, and agrees with the mathematical remainder on non-negative operands |
| `DemoList.SelectedIndexAfterSet` | list.js:22 | assigning selectedIndex yields a valid selection or none: an index of an option selects it, any other number selects nothing (the 2^32 wrap is left out), and NaN converts to 0, selecting the first option when there is one |
| `DemoList.KeyUpAsWritten` | list.js:10-25 | as written: a non-arrow key changes nothing |
| `DemoList.EmptyListNavigates` | list.js:16-24 | with no options, every arrow key as written dispatches change (and so navigates) although the selection stays -1; the guarded handler does nothing |
| `DemoList.AsWrittenAgreesWhenNonEmpty` | list.js:13-24 | once there is at least one option, the handler as written and the guarded one agree on every key |
| `DemoList.Options` | list.js:33-36 | one option per manifest item, in order, with text the item and value "../" + item |
| `DemoList.TargetDeterminesItem` | list.js:36 | distinct items give distinct navigation targets |
| `DemoList.PathMatchesShape` | list.js:38-40 | the path matches an item exactly when it is "/", the item in any ASCII case, and "/" |
| `DemoList.LastMatch` | list.js:38-44 | the last item whose path matches, or -1 when none does |
| `DemoList.SelectionAfterLoad` | list.js:33-45 | after loading, the selection is valid; when some item matches the path it is the last matching one; otherwise the first option once there is one, or the earlier selection |
| `DemoList.SelectionStep` | list.js:40-44 | appending one option extends the load's selection rule by one step |
| `DemoList.SelectedValue` | list.js:7 | a select's value is the value of its selected option, and the empty string when none is selected |
| `DemoList.LoadedTarget` | list.js:33-45 | loading into the empty list selects the last matching item, or else the first, and its target is "../" + that item |
| `DemoList.Navigator.constructor` | list.js:3-4 | an empty select: no options, selectedIndex -1, no navigation |
| `DemoList.Navigator.Value` | list.js:7 | `$select.value`: the selected option's value, or the empty string with no selection |
| `DemoList.Navigator.OnChange` | list.js:6-8 | the select's value is appended to the navigation targets |
| `DemoList.Navigator.OnKeyUp` | list.js:10-25 | the index becomes `KeyUp`'s and exactly one navigation, to the newly selected option's value, is recorded when it changed |
| `DemoList.Navigator.Append` | list.js:41-44 | the option is appended; a pre-selected option takes the selection, otherwise the first option is selected when it is the only one |
| `DemoList.Navigator.LoadItem` | list.js:36-44 | one pass of the loop: the item's option is appended and the selection follows the load rule with that item added |
| `DemoList.Navigator.OnLoad` | list.js:32-46 | the options become the old ones followed by `Options(manifest)`, and the selection is `SelectionAfterLoad` |

## Left out

- GLSL shader sources, shader compilation and program linking, with their error
  messages. They are foreign compiler calls. The program id and the attribute
  locations are parameters of each `Triangle` constructor.
- The queries `getAttribLocation` and `getUniformLocation`, and the calls
  `createShader`, `createProgram` and `linkProgram`, are not in the trace and are not
  `Context` methods. Their results enter as parameters: the attribute locations and
  the program id; a uniform location is the pair of the program and the name.
- The numbers in the matrices of demo 12 (`mat4.translate`, `scale`, `rotate`,
  `perspective` from glMatrix) and the `Math.cos`/`Math.sin` of the frame time. These
  are floating-point values computed by a foreign library. Matrices are kept as the
  list of operations that built them, and `camera.aspect` as the pair it is divided
  from.
- The `triangleModel` record of demo 12 (position, scale, angleZ). Its fields only
  feed the glMatrix calls.
- Float32 rounding of the uploaded vertex data and of `u_time`. The vertex values are
  only copied, so they are modelled as exact `real`s.
- `onResize` of demos 06, 08, 09 and 10, and the canvas sizing inside demo 12's
  `onResize`. This is pixel-ratio floating-point arithmetic on the canvas, and the
  files differ in which dimension gets the ratio. For the same reason the context's
  `drawingBufferWidth`/`drawingBufferHeight` are fixed when it is built, although the
  per-tick `viewport` call reads them live and a resize of the canvas changes them.
  Demo 12's ordering between the metrics and `triangle.resize()` is modelled.
- `requestAnimationFrame` scheduling, the XHR request, DOM event dispatch and actual
  navigation. The model runs one tick or one handler call at a time, takes the
  manifest as input, and records navigation targets instead of loading pages.
- `WebGL.Draw` checks for an enabled attribute without a buffer (INVALID_OPERATION)
  only at the locations the program uses. Section 6.6 of the WebGL 1.0 specification
  applies that check to every enabled attribute and only the range check to the active
  ones. No demo enables an attribute its program does not use.
- The generic (current) value of a disabled attribute. It is delivered as an opaque
  `CurrentValue`.
- `DemoList.SelectedIndexAfterSet`: does not model the wrap modulo 2^32 of the WebIDL
  `long` conversion, so a number of magnitude 2^31 or more is treated as itself (2^32
  selects nothing instead of option 0). The handler only assigns `(i ± 1) % n`, whose
  magnitude is below the number of options.
- `DemoList.PathMatches`: it treats the item as literal text. In the source the item
  is spliced into a regular expression unescaped, so a name containing
  metacharacters would mean something else. Case folding is ASCII only, which is
  exact for the arrow-key patterns but not for non-ASCII manifest names.
- `DemoList.Navigator.OnKeyUp` uses the guarded `KeyUp`. `KeyUpAsWritten` models the
  source exactly, and the two agree whenever the list has options.

## Findings

| source | as written | input that shows it | evidently intended | confidence | as-written member | corrected member |
|---|---|---|---|---|---|---|
| list.js:16-24 | with no options, `(selectedIndex + 1) % 0` is NaN, and NaN != -1, so a change event is dispatched and `location.href` is set to the empty value: the page reloads | an arrow key before `projects.json` has loaded (or with an empty manifest): ArrowDown (an arrow key by `StandardKeys`) with selectedIndex -1 and no options: `KeyUpAsWritten("ArrowDown", -1, 0) == KeyResult(-1, true)` | an empty list ignores arrow keys | medium; not executed | `DemoList.EmptyListNavigates` | `DemoList.KeyUp` |
