/**
 * Demo 10_webgl_uniform: demo 09's interleaved buffer, with the stride
 * derived at construction from the array length and the vertex count,
 * plus a u_time uniform uploaded before every draw.
 */
module WebglUniform {
  import opened Wrappers
  import opened WebGL
  import opened Layouts
  import Frame
  import WebglOneBuffer

  const VertexPositionSize: nat := 2
  const VertexPositionOffset: nat := 0
  const VertexColorSize: nat := 3
  const VertexCount: nat := 3
  const Vertices: seq<Float> := [-1.0, -1.0, 1.0, 0.0, 0.0,
                                  0.0, 1.0, 0.0, 1.0, 0.0,
                                  1.0, -1.0, 0.0, 0.0, 1.0]

  /** vertexColorOffset = vertexPositionOffset + vertexPositionSize * 4. */
  function VertexColorOffset(): (r: nat)
    ensures r == VertexPositionOffset + VertexPositionSize * FloatSize
    ensures r == ColorByteOffset && r % FloatSize == 0
  {
    VertexPositionOffset + VertexPositionSize * 4
  }

  /** vertexByteSize = (vertices.length / vertexCount) * 4: the array
      divides evenly into vertices, so the division is exact and the stride
      is one 20-byte record. */
  function VertexByteSize(): (r: nat)
    ensures |Vertices| % VertexCount == 0
    ensures r == (|Vertices| / VertexCount) * FloatSize
    ensures r == (VertexPositionSize + VertexColorSize) * FloatSize && r == InterleavedStride
  {
    (|Vertices| / VertexCount) * 4
  }

  function PositionPointer(b: BufferId): (p: Pointer)
    ensures p == Pointer(b, PositionSize, InterleavedStride, 0)
  {
    Pointer(b, VertexPositionSize, VertexByteSize(), VertexPositionOffset)
  }

  function ColorPointer(b: BufferId): (p: Pointer)
    ensures p == Pointer(b, ColorSize, InterleavedStride, ColorByteOffset)
  {
    Pointer(b, VertexColorSize, VertexByteSize(), VertexColorOffset())
  }

  /** The attribute bindings and the data are those of demo 09, so both
      demos deliver the same vertices. */
  lemma SameLayoutAsOneBuffer(b: BufferId)
    ensures Vertices == WebglOneBuffer.Vertices
    ensures PositionPointer(b) == WebglOneBuffer.PositionPointer(b)
    ensures ColorPointer(b) == WebglOneBuffer.ColorPointer(b)
    ensures InterleavedStream(Vertices, VertexCount)
         == InterleavedStream(WebglOneBuffer.Vertices, WebglOneBuffer.VertexCount)
  {
  }

  /** Well formed, aligned, and every fetch of the 3-vertex draw stays
      inside the 60-byte buffer. */
  lemma LayoutSound(b: BufferId)
    ensures WellFormed(PositionPointer(b)) && WellFormed(ColorPointer(b))
    ensures WithinRecord(PositionPointer(b)) && WithinRecord(ColorPointer(b))
    ensures Disjoint(PositionPointer(b), ColorPointer(b))
    ensures Fits(PositionPointer(b), FloatSize * |Vertices|, 0, VertexCount)
    ensures Fits(ColorPointer(b), FloatSize * |Vertices|, 0, VertexCount)
  {
    SameLayoutAsOneBuffer(b);
    WebglOneBuffer.LayoutSound(b);
  }

  class Triangle {
    const program: ProgramId
    const buffer: BufferId
    const positionLocation: Location
    const colorLocation: Location
    /** Computed once, when the triangle is built. */
    const vertexColorOffset: nat
    const vertexByteSize: nat

    predicate Valid(gl: Context)
      reads gl
    {
      gl.Valid() && buffer < |gl.buffers| && gl.buffers[buffer] == Vertices &&
      positionLocation != colorLocation &&
      positionLocation < gl.maxVertexAttribs && colorLocation < gl.maxVertexAttribs &&
      vertexColorOffset == VertexColorOffset() && vertexByteSize == VertexByteSize()
    }

    constructor (gl: Context, program: ProgramId, positionLocation: Location, colorLocation: Location)
      requires gl.Valid() && positionLocation != colorLocation
      requires positionLocation < gl.maxVertexAttribs && colorLocation < gl.maxVertexAttribs
      modifies gl
      ensures Valid(gl)
      ensures this.program == program
      ensures this.positionLocation == positionLocation && this.colorLocation == colorLocation
      ensures vertexColorOffset == 8 && vertexByteSize == 20
      ensures buffer == |old(gl.buffers)| && gl.buffers == old(gl.buffers) + [Vertices]
      ensures gl.arrayBuffer == Some(buffer)
      ensures gl.trace == old(gl.trace) + [BufferCreated(buffer), ArrayBufferBound(Some(buffer)), DataUploaded(Vertices)]
      ensures gl.attribs == old(gl.attribs) && gl.program == old(gl.program)
      ensures gl.uniforms == old(gl.uniforms) && gl.error == old(gl.error)
    {
      this.program := program;
      this.positionLocation := positionLocation;
      this.colorLocation := colorLocation;
      vertexColorOffset := VertexPositionOffset + VertexPositionSize * 4;
      vertexByteSize := (|Vertices| / VertexCount) * 4;
      var b := gl.CreateBuffer();
      gl.BindBuffer(Some(b));
      gl.BufferData(Vertices);
      buffer := b;
    }

    function DrawTrace(time: Frame.TimeArg): seq<Call>
    {
      [ProgramUsed(program), ArrayBufferBound(Some(buffer)),
       AttribEnabled(positionLocation), PointerSet(positionLocation, VertexPositionSize, vertexByteSize, VertexPositionOffset),
       AttribEnabled(colorLocation), PointerSet(colorLocation, VertexColorSize, vertexByteSize, vertexColorOffset),
       UniformSet("u_time", Float1(Frame.TimeValue(time))),
       Drew(0, VertexCount, Drawn(InterleavedStream(Vertices, VertexCount)))]
    }

    /** onDraw(time): demo 09's binding sequence, then u_time, then
        drawArrays(TRIANGLES, 0, 3). */
    method Draw(gl: Context, time: Frame.TimeArg)
      requires Valid(gl)
      modifies gl
      ensures Valid(gl)
      ensures gl.trace == old(gl.trace) + DrawTrace(time)
      ensures gl.uniforms == old(gl.uniforms)[(program, "u_time") := Float1(Frame.TimeValue(time))]
      ensures gl.attribs == old(gl.attribs)[positionLocation := Attrib(true, Some(PositionPointer(buffer)))]
                                           [colorLocation := Attrib(true, Some(ColorPointer(buffer)))]
      ensures gl.buffers == old(gl.buffers) && gl.arrayBuffer == Some(buffer) && gl.program == Some(program)
      ensures gl.error == old(gl.error)
    {
      gl.UseProgram(program);
      gl.BindBuffer(Some(buffer));
      LayoutSound(buffer);
      SetAttribute(gl, positionLocation, VertexPositionSize, vertexByteSize, VertexPositionOffset);
      SetAttribute(gl, colorLocation, VertexColorSize, vertexByteSize, vertexColorOffset);
      gl.Uniform(program, "u_time", Float1(Frame.TimeValue(time)));
      assert AttribAt(gl.attribs, positionLocation) == Attrib(true, Some(PositionPointer(buffer)));
      assert AttribAt(gl.attribs, colorLocation) == Attrib(true, Some(ColorPointer(buffer)));
      InterleavedDraw(gl.buffers, gl.attribs, program, buffer, positionLocation, colorLocation, VertexCount);
      gl.DrawArrays(0, VertexCount, [positionLocation, colorLocation]);
    }
  }

  /** In every tick, the clear and the upload of that tick's time both
      precede the draw. */
  lemma TickOrder(triangle: Triangle, time: Frame.TimeArg, width: int, height: int)
    ensures Frame.ClearedBeforeDraws(Frame.Prologue(width, height) + triangle.DrawTrace(time))
    ensures Frame.UniformSetBeforeDraws(Frame.Prologue(width, height) + triangle.DrawTrace(time),
                                        "u_time", Float1(Frame.TimeValue(time)))
  {
    Frame.PrologueClearsFirst(width, height, triangle.DrawTrace(time));
    var tick := Frame.Prologue(width, height) + triangle.DrawTrace(time);
    forall i | 0 <= i < |tick| && tick[i].Drew?
      ensures exists j :: 0 <= j < i && tick[j] == UniformSet("u_time", Float1(Frame.TimeValue(time)))
    {
      assert tick[10] == UniformSet("u_time", Float1(Frame.TimeValue(time)));
    }
  }

  /** One tick of onUpdate(time). */
  method OnUpdate(gl: Context, triangle: Triangle, time: Frame.TimeArg)
    requires triangle.Valid(gl)
    modifies gl
    ensures triangle.Valid(gl)
    ensures gl.trace == old(gl.trace) + Frame.Prologue(gl.drawingBufferWidth, gl.drawingBufferHeight) + triangle.DrawTrace(time)
    ensures gl.uniforms == old(gl.uniforms)[(triangle.program, "u_time") := Float1(Frame.TimeValue(time))]
    ensures gl.attribs == old(gl.attribs)[triangle.positionLocation := Attrib(true, Some(PositionPointer(triangle.buffer)))]
                                         [triangle.colorLocation := Attrib(true, Some(ColorPointer(triangle.buffer)))]
    ensures gl.buffers == old(gl.buffers) && gl.arrayBuffer == Some(triangle.buffer) && gl.program == Some(triangle.program)
    ensures gl.error == old(gl.error)
  {
    Frame.BeginFrame(gl);
    triangle.Draw(gl, time);
  }
}
