/**
 * Demo 08_webgl_interpolation: positions and colours in two tightly
 * packed buffers. Each draw rebinds ARRAY_BUFFER before each
 * vertexAttribPointer, so v_position captures the position buffer and
 * v_color the colour buffer.
 */
module WebglInterpolation {
  import opened Wrappers
  import opened WebGL
  import opened Layouts
  import Frame
  import WebglTriangle

  const VertexPositionSize: nat := 2
  const VertexColorSize: nat := 3
  const VertexCount: nat := 3
  const Positions: seq<Float> := [-1.0, -1.0, 0.0, 1.0, 1.0, -1.0]
  const Colors: seq<Float> := [1.0, 0.0, 0.0, 0.0, 1.0, 0.0, 0.0, 0.0, 1.0]

  /** vertexAttribPointer(v_position, 2, FLOAT, false, 0, 0): positions
      tightly packed from the start of their own buffer. */
  function PositionPointer(b: BufferId): (p: Pointer)
    ensures p.buffer == b && p.size == PositionSize && p.offset == 0
    ensures EffectiveStride(p) == PositionSize * FloatSize
    ensures forall i: nat :: StartByte(p, i) == i * (PositionSize * FloatSize)
  {
    Pointer(b, VertexPositionSize, 0, 0)
  }

  /** vertexAttribPointer(v_color, 3, FLOAT, false, 0, 0): colours
      tightly packed from the start of their own buffer. */
  function ColorPointer(b: BufferId): (p: Pointer)
    ensures p.buffer == b && p.size == ColorSize && p.offset == 0
    ensures EffectiveStride(p) == ColorSize * FloatSize
    ensures forall i: nat :: StartByte(p, i) == i * (ColorSize * FloatSize)
  {
    Pointer(b, VertexColorSize, 0, 0)
  }

  /** 3 x 2 positions and 3 x 3 colours; stride 0 reads as 8 and 12
      bytes; the draw of three vertices ends exactly at the end of each
      buffer. */
  lemma LayoutSound(pb: BufferId, cb: BufferId)
    ensures |Positions| == VertexPositionSize * VertexCount && |Colors| == VertexColorSize * VertexCount
    ensures WellFormed(PositionPointer(pb)) && WellFormed(ColorPointer(cb))
    ensures EffectiveStride(PositionPointer(pb)) == 8 && EffectiveStride(ColorPointer(cb)) == 12
    ensures WithinRecord(PositionPointer(pb)) && WithinRecord(ColorPointer(cb))
    ensures Fits(PositionPointer(pb), FloatSize * |Positions|, 0, VertexCount)
    ensures Fits(ColorPointer(cb), FloatSize * |Colors|, 0, VertexCount)
    ensures StartByte(PositionPointer(pb), VertexCount - 1) + 8 == FloatSize * |Positions|
    ensures StartByte(ColorPointer(cb), VertexCount - 1) + 12 == FloatSize * |Colors|
  {
    FitsLast(PositionPointer(pb), FloatSize * |Positions|, 0, VertexCount);
    FitsLast(ColorPointer(cb), FloatSize * |Colors|, 0, VertexCount);
  }

  /** The positions are those of demo 06, so both draw the same vertices. */
  lemma SamePositionsAsTriangle()
    ensures Positions == WebglTriangle.Positions
    ensures forall i :: 0 <= i < VertexCount ==>
      SeparateStream(Positions, Colors, VertexCount)[i][0] == PositionStream(WebglTriangle.Positions, VertexCount)[i][0]
  {
  }

  class Triangle {
    const program: ProgramId
    const positionBuffer: BufferId
    const colorBuffer: BufferId
    const positionLocation: Location
    const colorLocation: Location

    predicate Valid(gl: Context)
      reads gl
    {
      gl.Valid() &&
      positionBuffer < |gl.buffers| && gl.buffers[positionBuffer] == Positions &&
      colorBuffer < |gl.buffers| && gl.buffers[colorBuffer] == Colors &&
      positionLocation != colorLocation &&
      positionLocation < gl.maxVertexAttribs && colorLocation < gl.maxVertexAttribs
    }

    /** Two createBuffer / bindBuffer / bufferData sequences, positions
        first. `program` and the two locations come from the foreign shader
        compiler and linker. */
    constructor (gl: Context, program: ProgramId, positionLocation: Location, colorLocation: Location)
      requires gl.Valid() && positionLocation != colorLocation
      requires positionLocation < gl.maxVertexAttribs && colorLocation < gl.maxVertexAttribs
      modifies gl
      ensures Valid(gl)
      ensures this.program == program
      ensures this.positionLocation == positionLocation && this.colorLocation == colorLocation
      ensures positionBuffer == |old(gl.buffers)| && colorBuffer == positionBuffer + 1
      ensures gl.buffers == old(gl.buffers) + [Positions, Colors]
      ensures gl.arrayBuffer == Some(colorBuffer)
      ensures gl.trace == old(gl.trace) + [BufferCreated(positionBuffer), ArrayBufferBound(Some(positionBuffer)), DataUploaded(Positions),
                                           BufferCreated(colorBuffer), ArrayBufferBound(Some(colorBuffer)), DataUploaded(Colors)]
      ensures gl.attribs == old(gl.attribs) && gl.program == old(gl.program)
      ensures gl.uniforms == old(gl.uniforms) && gl.error == old(gl.error)
    {
      this.program := program;
      this.positionLocation := positionLocation;
      this.colorLocation := colorLocation;
      var pb := gl.CreateBuffer();
      gl.BindBuffer(Some(pb));
      gl.BufferData(Positions);
      var cb := gl.CreateBuffer();
      gl.BindBuffer(Some(cb));
      gl.BufferData(Colors);
      positionBuffer, colorBuffer := pb, cb;
    }

    function DrawTrace(): seq<Call>
    {
      [ProgramUsed(program),
       ArrayBufferBound(Some(positionBuffer)), AttribEnabled(positionLocation),
       PointerSet(positionLocation, VertexPositionSize, 0, 0),
       ArrayBufferBound(Some(colorBuffer)), AttribEnabled(colorLocation),
       PointerSet(colorLocation, VertexColorSize, 0, 0),
       Drew(0, VertexCount, Drawn(SeparateStream(Positions, Colors, VertexCount)))]
    }

    /** onDraw: bind, enable and point each attribute in turn, then
        drawArrays(TRIANGLES, 0, 3). */
    method Draw(gl: Context)
      requires Valid(gl)
      modifies gl
      ensures Valid(gl)
      ensures gl.trace == old(gl.trace) + DrawTrace()
      ensures gl.attribs == old(gl.attribs)[positionLocation := Attrib(true, Some(PositionPointer(positionBuffer)))]
                                           [colorLocation := Attrib(true, Some(ColorPointer(colorBuffer)))]
      ensures gl.buffers == old(gl.buffers) && gl.arrayBuffer == Some(colorBuffer) && gl.program == Some(program)
      ensures gl.uniforms == old(gl.uniforms) && gl.error == old(gl.error)
    {
      gl.UseProgram(program);
      LayoutSound(positionBuffer, colorBuffer);
      gl.BindBuffer(Some(positionBuffer));
      SetAttribute(gl, positionLocation, VertexPositionSize, 0, 0);
      gl.BindBuffer(Some(colorBuffer));
      SetAttribute(gl, colorLocation, VertexColorSize, 0, 0);
      assert AttribAt(gl.attribs, positionLocation) == Attrib(true, Some(PositionPointer(positionBuffer)));
      assert AttribAt(gl.attribs, colorLocation) == Attrib(true, Some(ColorPointer(colorBuffer)));
      SeparateDraw(gl.buffers, gl.attribs, program, positionBuffer, colorBuffer, positionLocation, colorLocation, VertexCount);
      gl.DrawArrays(0, VertexCount, [positionLocation, colorLocation]);
    }
  }

  /** One tick of onUpdate. */
  method OnUpdate(gl: Context, triangle: Triangle)
    requires triangle.Valid(gl)
    modifies gl
    ensures triangle.Valid(gl)
    ensures gl.trace == old(gl.trace) + Frame.Prologue(gl.drawingBufferWidth, gl.drawingBufferHeight) + triangle.DrawTrace()
    ensures gl.attribs == old(gl.attribs)[triangle.positionLocation := Attrib(true, Some(PositionPointer(triangle.positionBuffer)))]
                                         [triangle.colorLocation := Attrib(true, Some(ColorPointer(triangle.colorBuffer)))]
    ensures gl.buffers == old(gl.buffers) && gl.arrayBuffer == Some(triangle.colorBuffer) && gl.program == Some(triangle.program)
    ensures gl.uniforms == old(gl.uniforms) && gl.error == old(gl.error)
  {
    Frame.BeginFrame(gl);
    triangle.Draw(gl);
  }
}
