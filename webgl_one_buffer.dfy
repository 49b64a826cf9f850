/**
 * Demo 09_webgl_one_buffer: position and colour interleaved in one
 * buffer of 5-float records. onDraw computes the stride and the colour
 * offset in bytes and points both attributes into the same buffer.
 */
module WebglOneBuffer {
  import opened Wrappers
  import opened WebGL
  import opened Layouts
  import Frame
  import WebglInterpolation

  const VertexPositionSize: nat := 2
  const VertexColorSize: nat := 3
  const VertexCount: nat := 3
  const Vertices: seq<Float> := [-1.0, -1.0, 1.0, 0.0, 0.0,
                                  0.0, 1.0, 0.0, 1.0, 0.0,
                                  1.0, -1.0, 0.0, 0.0, 1.0]
  const VertexPositionOffset: nat := 0

  /** vertexByteSize = 5 * 4: one record is one position and one colour of
      4-byte floats. */
  function VertexByteSize(): (r: nat)
    ensures r == (VertexPositionSize + VertexColorSize) * FloatSize
    ensures r == InterleavedStride
  {
    5 * 4
  }

  /** vertexColorOffset = vertexPositionOffset + vertexPositionSize * 4:
      the colour starts right after the position, counted in bytes. */
  function VertexColorOffset(): (r: nat)
    ensures r == VertexPositionOffset + VertexPositionSize * FloatSize
    ensures r == ColorByteOffset && r % FloatSize == 0
  {
    VertexPositionOffset + VertexPositionSize * 4
  }

  function PositionPointer(b: BufferId): (p: Pointer)
    ensures p == Pointer(b, PositionSize, InterleavedStride, 0)
  {
    Pointer(b, VertexPositionSize, VertexByteSize(), VertexPositionOffset)
  }

  function ColorPointer(b: BufferId): (p: Pointer)
    ensures p == Pointer(b, ColorSize, InterleavedStride, ColorByteOffset)
  {
    Pointer(b, VertexColorSize, VertexByteSize(), VertexColorOffset())
  }

  /** Both attributes are well formed (stride and offsets multiples of 4),
      fit one 20-byte record without overlapping (0 + 8 <= 8 and
      8 + 12 <= 20), and the draw of three vertices reads exactly the 60
      bytes of the 15-float buffer: 8 + 2 * 20 + 12 = 60. */
  lemma LayoutSound(b: BufferId)
    ensures |Vertices| == (VertexPositionSize + VertexColorSize) * VertexCount
    ensures WellFormed(PositionPointer(b)) && WellFormed(ColorPointer(b))
    ensures WithinRecord(PositionPointer(b)) && WithinRecord(ColorPointer(b))
    ensures Disjoint(PositionPointer(b), ColorPointer(b))
    ensures Fits(PositionPointer(b), FloatSize * |Vertices|, 0, VertexCount)
    ensures Fits(ColorPointer(b), FloatSize * |Vertices|, 0, VertexCount)
    ensures StartByte(ColorPointer(b), VertexCount - 1) + VertexColorSize * FloatSize == FloatSize * |Vertices|
  {
    FitsLast(PositionPointer(b), FloatSize * |Vertices|, 0, VertexCount);
    FitsLast(ColorPointer(b), FloatSize * |Vertices|, 0, VertexCount);
  }

  /** The interleaved array is demo 08's positions and colours, record by
      record. */
  lemma VerticesInterleaveSeparateArrays()
    ensures Vertices == Interleave(WebglInterpolation.Positions, WebglInterpolation.Colors, VertexCount)
  {
    var ps, cs := WebglInterpolation.Positions, WebglInterpolation.Colors;
    assert Interleave(ps[6..], cs[9..], 0) == [];
    assert Interleave(ps[4..], cs[6..], 1) == ps[4..6] + cs[6..9];
    assert Interleave(ps[2..], cs[3..], 2) == ps[2..4] + cs[3..6] + ps[4..6] + cs[6..9];
  }

  /** The interleaved layout and demo 08's separate buffers deliver the
      same position and colour for every vertex. */
  lemma SameVerticesAsSeparateBuffers()
    ensures InterleavedStream(Vertices, VertexCount)
         == SeparateStream(WebglInterpolation.Positions, WebglInterpolation.Colors, VertexCount)
  {
    VerticesInterleaveSeparateArrays();
    InterleavedMatchesSeparate(WebglInterpolation.Positions, WebglInterpolation.Colors, VertexCount);
  }

  class Triangle {
    const program: ProgramId
    const buffer: BufferId
    const positionLocation: Location
    const colorLocation: Location

    predicate Valid(gl: Context)
      reads gl
    {
      gl.Valid() && buffer < |gl.buffers| && gl.buffers[buffer] == Vertices &&
      positionLocation != colorLocation &&
      positionLocation < gl.maxVertexAttribs && colorLocation < gl.maxVertexAttribs
    }

    /** createBuffer, bindBuffer, bufferData of the interleaved array;
        `program` and the locations come from the foreign compiler and
        linker. */
    constructor (gl: Context, program: ProgramId, positionLocation: Location, colorLocation: Location)
      requires gl.Valid() && positionLocation != colorLocation
      requires positionLocation < gl.maxVertexAttribs && colorLocation < gl.maxVertexAttribs
      modifies gl
      ensures Valid(gl)
      ensures this.program == program
      ensures this.positionLocation == positionLocation && this.colorLocation == colorLocation
      ensures buffer == |old(gl.buffers)| && gl.buffers == old(gl.buffers) + [Vertices]
      ensures gl.arrayBuffer == Some(buffer)
      ensures gl.trace == old(gl.trace) + [BufferCreated(buffer), ArrayBufferBound(Some(buffer)), DataUploaded(Vertices)]
      ensures gl.attribs == old(gl.attribs) && gl.program == old(gl.program)
      ensures gl.uniforms == old(gl.uniforms) && gl.error == old(gl.error)
    {
      this.program := program;
      this.positionLocation := positionLocation;
      this.colorLocation := colorLocation;
      var b := gl.CreateBuffer();
      gl.BindBuffer(Some(b));
      gl.BufferData(Vertices);
      buffer := b;
    }

    function DrawTrace(): seq<Call>
    {
      [ProgramUsed(program), ArrayBufferBound(Some(buffer)),
       AttribEnabled(positionLocation), PointerSet(positionLocation, VertexPositionSize, VertexByteSize(), VertexPositionOffset),
       AttribEnabled(colorLocation), PointerSet(colorLocation, VertexColorSize, VertexByteSize(), VertexColorOffset()),
       Drew(0, VertexCount, Drawn(InterleavedStream(Vertices, VertexCount)))]
    }

    /** onDraw: one bindBuffer, then both attributes point into it with
        stride 20 at offsets 0 and 8, then drawArrays(TRIANGLES, 0, 3). */
    method Draw(gl: Context)
      requires Valid(gl)
      modifies gl
      ensures Valid(gl)
      ensures gl.trace == old(gl.trace) + DrawTrace()
      ensures gl.attribs == old(gl.attribs)[positionLocation := Attrib(true, Some(PositionPointer(buffer)))]
                                           [colorLocation := Attrib(true, Some(ColorPointer(buffer)))]
      ensures gl.buffers == old(gl.buffers) && gl.arrayBuffer == Some(buffer) && gl.program == Some(program)
      ensures gl.uniforms == old(gl.uniforms) && gl.error == old(gl.error)
    {
      gl.UseProgram(program);
      gl.BindBuffer(Some(buffer));
      var vertexByteSize := 5 * 4;
      var vertexPositionOffset := 0;
      LayoutSound(buffer);
      SetAttribute(gl, positionLocation, VertexPositionSize, vertexByteSize, vertexPositionOffset);
      var vertexColorOffset := vertexPositionOffset + VertexPositionSize * 4;
      SetAttribute(gl, colorLocation, VertexColorSize, vertexByteSize, vertexColorOffset);
      assert AttribAt(gl.attribs, positionLocation) == Attrib(true, Some(PositionPointer(buffer)));
      assert AttribAt(gl.attribs, colorLocation) == Attrib(true, Some(ColorPointer(buffer)));
      InterleavedDraw(gl.buffers, gl.attribs, program, buffer, positionLocation, colorLocation, VertexCount);
      gl.DrawArrays(0, VertexCount, [positionLocation, colorLocation]);
    }
  }

  /** One tick of onUpdate. */
  method OnUpdate(gl: Context, triangle: Triangle)
    requires triangle.Valid(gl)
    modifies gl
    ensures triangle.Valid(gl)
    ensures gl.trace == old(gl.trace) + Frame.Prologue(gl.drawingBufferWidth, gl.drawingBufferHeight) + triangle.DrawTrace()
    ensures gl.attribs == old(gl.attribs)[triangle.positionLocation := Attrib(true, Some(PositionPointer(triangle.buffer)))]
                                         [triangle.colorLocation := Attrib(true, Some(ColorPointer(triangle.buffer)))]
    ensures gl.buffers == old(gl.buffers) && gl.arrayBuffer == Some(triangle.buffer) && gl.program == Some(triangle.program)
    ensures gl.uniforms == old(gl.uniforms) && gl.error == old(gl.error)
  {
    Frame.BeginFrame(gl);
    triangle.Draw(gl);
  }
}
