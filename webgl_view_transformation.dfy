/**
 * Demo 12_webgl_view_transformation: demo 10's interleaved layout, with a
 * model matrix rebuilt every frame (identity, translate, scale, rotate
 * about Z) and a perspective view matrix whose aspect the resize handler
 * refreshes. Matrices are kept as the operations that built them.
 */
module WebglViewTransformation {
  import opened Wrappers
  import opened WebGL
  import opened Layouts
  import Frame
  import WebglUniform

  const VertexPositionSize: nat := 2
  const VertexPositionOffset: nat := 0
  const VertexColorSize: nat := 3
  const VertexCount: nat := 3
  const Vertices: seq<Float> := [-1.0, -1.0, 1.0, 0.0, 0.0,
                                  0.0, 1.0, 0.0, 1.0, 0.0,
                                  1.0, -1.0, 0.0, 0.0, 1.0]

  const Fov: real := 45.0
  const Near: real := 0.1
  const Far: real := 100.0

  /** vertexColorOffset = vertexPositionOffset + vertexPositionSize * 4. */
  function VertexColorOffset(): (r: nat)
    ensures r == VertexPositionOffset + VertexPositionSize * FloatSize
    ensures r == ColorByteOffset && r % FloatSize == 0
  {
    VertexPositionOffset + VertexPositionSize * 4
  }

  /** vertexByteSize = (vertices.length / vertexCount) * 4, an exact
      division giving one 20-byte record. */
  function VertexByteSize(): (r: nat)
    ensures |Vertices| % VertexCount == 0
    ensures r == (|Vertices| / VertexCount) * FloatSize
    ensures r == (VertexPositionSize + VertexColorSize) * FloatSize && r == InterleavedStride
  {
    (|Vertices| / VertexCount) * 4
  }

  function PositionPointer(b: BufferId): (p: Pointer)
    ensures p == Pointer(b, PositionSize, InterleavedStride, 0)
  {
    Pointer(b, VertexPositionSize, VertexByteSize(), VertexPositionOffset)
  }

  function ColorPointer(b: BufferId): (p: Pointer)
    ensures p == Pointer(b, ColorSize, InterleavedStride, ColorByteOffset)
  {
    Pointer(b, VertexColorSize, VertexByteSize(), VertexColorOffset())
  }

  /** Same data and bindings as demo 10 (and so as demo 09), and every
      fetch of the 3-vertex draw stays inside the 15-value buffer. */
  lemma LayoutSound(b: BufferId)
    ensures Vertices == WebglUniform.Vertices
    ensures PositionPointer(b) == WebglUniform.PositionPointer(b)
    ensures ColorPointer(b) == WebglUniform.ColorPointer(b)
    ensures WellFormed(PositionPointer(b)) && WellFormed(ColorPointer(b))
    ensures Disjoint(PositionPointer(b), ColorPointer(b))
    ensures Fits(PositionPointer(b), FloatSize * |Vertices|, 0, VertexCount)
    ensures Fits(ColorPointer(b), FloatSize * |Vertices|, 0, VertexCount)
  {
    WebglUniform.LayoutSound(b);
  }

  /** The model transform of the frame at time t, in the order applied to
      the identity. */
  function ModelOps(t: Number): seq<MatrixOp>
  {
    [Translate(t), Scale(t), RotateZ(t)]
  }

  /** The global metrics object: the size of #app and the pixel ratio. */
  class Metrics {
    var width: int
    var height: int
    var pixelRatio: real

    constructor (width: int, height: int, pixelRatio: real)
      ensures this.width == width && this.height == height && this.pixelRatio == pixelRatio
    {
      this.width, this.height, this.pixelRatio := width, height, pixelRatio;
    }
  }

  class Triangle {
    const program: ProgramId
    const buffer: BufferId
    const positionLocation: Location
    const colorLocation: Location
    const metrics: Metrics
    /** camera.aspect */
    var aspect: Aspect
    /** triangleModelMatrix, as the operations applied to the identity */
    var modelMatrix: seq<MatrixOp>
    /** cameraMatrix */
    var cameraMatrix: seq<MatrixOp>

    predicate Valid(gl: Context)
      reads gl
    {
      gl.Valid() && buffer < |gl.buffers| && gl.buffers[buffer] == Vertices &&
      positionLocation != colorLocation &&
      positionLocation < gl.maxVertexAttribs && colorLocation < gl.maxVertexAttribs
    }

    constructor (gl: Context, metrics: Metrics, program: ProgramId, positionLocation: Location, colorLocation: Location)
      requires gl.Valid() && positionLocation != colorLocation
      requires positionLocation < gl.maxVertexAttribs && colorLocation < gl.maxVertexAttribs
      modifies gl
      ensures Valid(gl)
      ensures this.metrics == metrics && this.program == program
      ensures this.positionLocation == positionLocation && this.colorLocation == colorLocation
      ensures aspect == Ratio(metrics.width, metrics.height)
      ensures modelMatrix == [] && cameraMatrix == []
      ensures buffer == |old(gl.buffers)| && gl.buffers == old(gl.buffers) + [Vertices]
      ensures gl.arrayBuffer == Some(buffer)
      ensures gl.trace == old(gl.trace) + [BufferCreated(buffer), ArrayBufferBound(Some(buffer)), DataUploaded(Vertices)]
      ensures gl.attribs == old(gl.attribs) && gl.program == old(gl.program)
      ensures gl.uniforms == old(gl.uniforms) && gl.error == old(gl.error)
    {
      this.program := program;
      this.positionLocation := positionLocation;
      this.colorLocation := colorLocation;
      this.metrics := metrics;
      modelMatrix := [];
      aspect := Ratio(metrics.width, metrics.height);
      cameraMatrix := [];
      var b := gl.CreateBuffer();
      gl.BindBuffer(Some(b));
      gl.BufferData(Vertices);
      buffer := b;
    }

    /** The calls onDraw makes for the attributes. */
    function AttributeCalls(): seq<Call>
    {
      [ArrayBufferBound(Some(buffer)),
       AttribEnabled(positionLocation), PointerSet(positionLocation, VertexPositionSize, VertexByteSize(), VertexPositionOffset),
       AttribEnabled(colorLocation), PointerSet(colorLocation, VertexColorSize, VertexByteSize(), VertexColorOffset())]
    }

    /** The calls onDraw makes for the two matrices. */
    function MatrixCalls(time: Frame.TimeArg, aspect: Aspect): seq<Call>
    {
      [UniformSet("u_model_matrix", Matrix4(ModelOps(Frame.TimeValue(time)))),
       UniformSet("u_view_matrix", Matrix4([Perspective(Fov, aspect, Near, Far)]))]
    }

    function DrawTrace(time: Frame.TimeArg, aspect: Aspect): seq<Call>
    {
      [ProgramUsed(program)] + AttributeCalls() + MatrixCalls(time, aspect) +
      [Drew(0, VertexCount, Drawn(InterleavedStream(Vertices, VertexCount)))]
    }

    /** The attribute half of onDraw: bind the vertex buffer, then enable
        and point v_position and v_color into its 20-byte records. */
    method BindAttributes(gl: Context)
      requires Valid(gl)
      modifies gl`arrayBuffer, gl`attribs, gl`trace, gl`error
      ensures Valid(gl)
      ensures gl.trace == old(gl.trace) + AttributeCalls()
      ensures gl.attribs == old(gl.attribs)[positionLocation := Attrib(true, Some(PositionPointer(buffer)))]
                                           [colorLocation := Attrib(true, Some(ColorPointer(buffer)))]
      ensures gl.arrayBuffer == Some(buffer) && gl.error == old(gl.error)
    {
      gl.BindBuffer(Some(buffer));
      LayoutSound(buffer);
      SetAttribute(gl, positionLocation, VertexPositionSize, VertexByteSize(), VertexPositionOffset);
      SetAttribute(gl, colorLocation, VertexColorSize, VertexByteSize(), VertexColorOffset());
    }

    /** The matrix half of onDraw: rebuild the model matrix from the
        identity and upload it, then rebuild and upload the view matrix. */
    method UploadMatrices(gl: Context, time: Frame.TimeArg)
      requires gl.Valid() && gl.program == Some(program)
      modifies gl`uniforms, gl`trace, gl`error, this`modelMatrix, this`cameraMatrix
      ensures gl.Valid() && gl.error == old(gl.error)
      ensures modelMatrix == ModelOps(Frame.TimeValue(time))
      ensures cameraMatrix == [Perspective(Fov, aspect, Near, Far)]
      ensures gl.trace == old(gl.trace) + MatrixCalls(time, aspect)
      ensures gl.uniforms == old(gl.uniforms)[(program, "u_model_matrix") := Matrix4(modelMatrix)]
                                             [(program, "u_view_matrix") := Matrix4(cameraMatrix)]
    {
      var t := Frame.TimeValue(time);
      modelMatrix := [];
      modelMatrix := modelMatrix + [Translate(t)];
      modelMatrix := modelMatrix + [Scale(t)];
      modelMatrix := modelMatrix + [RotateZ(t)];
      assert modelMatrix == ModelOps(t);
      gl.Uniform(program, "u_model_matrix", Matrix4(modelMatrix));
      cameraMatrix := [Perspective(Fov, aspect, Near, Far)];
      gl.Uniform(program, "u_view_matrix", Matrix4(cameraMatrix));
    }

    /** onDraw(time): bind the attributes, rebuild the model matrix from
        the identity, upload it, rebuild and upload the view matrix, draw. */
    method Draw(gl: Context, time: Frame.TimeArg)
      requires Valid(gl)
      modifies gl, this`modelMatrix, this`cameraMatrix
      ensures Valid(gl)
      ensures modelMatrix == ModelOps(Frame.TimeValue(time))
      ensures cameraMatrix == [Perspective(Fov, aspect, Near, Far)]
      ensures gl.trace == old(gl.trace) + DrawTrace(time, aspect)
      ensures gl.uniforms == old(gl.uniforms)[(program, "u_model_matrix") := Matrix4(modelMatrix)]
                                             [(program, "u_view_matrix") := Matrix4(cameraMatrix)]
      ensures gl.attribs == old(gl.attribs)[positionLocation := Attrib(true, Some(PositionPointer(buffer)))]
                                           [colorLocation := Attrib(true, Some(ColorPointer(buffer)))]
      ensures gl.buffers == old(gl.buffers) && gl.arrayBuffer == Some(buffer) && gl.program == Some(program)
      ensures gl.error == old(gl.error)
    {
      gl.UseProgram(program);
      BindAttributes(gl);
      UploadMatrices(gl, time);
      InterleavedDraw(gl.buffers, gl.attribs, program, buffer, positionLocation, colorLocation, VertexCount);
      gl.DrawArrays(0, VertexCount, [positionLocation, colorLocation]);
    }

    /** resize: camera.aspect = metrics.width / metrics.height. */
    method Resize()
      modifies this`aspect
      ensures aspect == Ratio(metrics.width, metrics.height)
    {
      aspect := Ratio(metrics.width, metrics.height);
    }
  }

  /** In every tick, the clear and both matrix uploads precede the draw. */
  lemma TickOrder(triangle: Triangle, time: Frame.TimeArg, width: int, height: int)
    ensures Frame.ClearedBeforeDraws(Frame.Prologue(width, height) + triangle.DrawTrace(time, triangle.aspect))
    ensures Frame.UniformSetBeforeDraws(Frame.Prologue(width, height) + triangle.DrawTrace(time, triangle.aspect),
                                        "u_model_matrix", Matrix4(ModelOps(Frame.TimeValue(time))))
    ensures Frame.UniformSetBeforeDraws(Frame.Prologue(width, height) + triangle.DrawTrace(time, triangle.aspect),
                                        "u_view_matrix", Matrix4([Perspective(Fov, triangle.aspect, Near, Far)]))
  {
    Frame.PrologueClearsFirst(width, height, triangle.DrawTrace(time, triangle.aspect));
    var tick := Frame.Prologue(width, height) + triangle.DrawTrace(time, triangle.aspect);
    forall i | 0 <= i < |tick| && tick[i].Drew?
      ensures exists j :: 0 <= j < i && tick[j] == UniformSet("u_model_matrix", Matrix4(ModelOps(Frame.TimeValue(time))))
      ensures exists j :: 0 <= j < i && tick[j] == UniformSet("u_view_matrix", Matrix4([Perspective(Fov, triangle.aspect, Near, Far)]))
    {
      assert tick[10] == UniformSet("u_model_matrix", Matrix4(ModelOps(Frame.TimeValue(time))));
      assert tick[11] == UniformSet("u_view_matrix", Matrix4([Perspective(Fov, triangle.aspect, Near, Far)]));
    }
  }

  /** One tick of onUpdate(time). */
  method OnUpdate(gl: Context, triangle: Triangle, time: Frame.TimeArg)
    requires triangle.Valid(gl)
    modifies gl, triangle`modelMatrix, triangle`cameraMatrix
    ensures triangle.Valid(gl)
    ensures gl.trace == old(gl.trace) + Frame.Prologue(gl.drawingBufferWidth, gl.drawingBufferHeight) + triangle.DrawTrace(time, triangle.aspect)
    ensures triangle.modelMatrix == ModelOps(Frame.TimeValue(time))
    ensures triangle.cameraMatrix == [Perspective(Fov, triangle.aspect, Near, Far)]
    ensures gl.uniforms == old(gl.uniforms)[(triangle.program, "u_model_matrix") := Matrix4(triangle.modelMatrix)]
                                           [(triangle.program, "u_view_matrix") := Matrix4(triangle.cameraMatrix)]
    ensures gl.attribs == old(gl.attribs)[triangle.positionLocation := Attrib(true, Some(PositionPointer(triangle.buffer)))]
                                         [triangle.colorLocation := Attrib(true, Some(ColorPointer(triangle.buffer)))]
    ensures gl.buffers == old(gl.buffers) && gl.arrayBuffer == Some(triangle.buffer) && gl.program == Some(triangle.program)
    ensures gl.error == old(gl.error)
  {
    Frame.BeginFrame(gl);
    triangle.Draw(gl, time);
  }

  /** onResize: metrics first, then triangle.resize(), so the aspect comes
      from the new size. The canvas sizing in between is not modelled. */
  method OnResize(metrics: Metrics, triangle: Triangle, width: int, height: int, pixelRatio: real)
    requires triangle.metrics == metrics
    modifies metrics, triangle`aspect
    ensures metrics.width == width && metrics.height == height && metrics.pixelRatio == pixelRatio
    ensures triangle.aspect == Ratio(width, height)
  {
    metrics.width := width;
    metrics.height := height;
    metrics.pixelRatio := pixelRatio;
    triangle.Resize();
  }
}
