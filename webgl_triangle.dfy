/**
 * Demo 06_webgl_triangle: one tightly packed buffer of three 2-component
 * positions. Each draw enables the position attribute before binding the
 * buffer, and sets the pointer after the bind, so the attribute captures
 * the triangle's buffer.
 */
module WebglTriangle {
  import opened Wrappers
  import opened WebGL
  import opened Layouts
  import Frame

  const VertexSize: nat := 2
  const VertexCount: nat := 3
  const Positions: seq<Float> := [-1.0, -1.0, 0.0, 1.0, 1.0, -1.0]

  /** vertexAttribPointer(v_position, vertexSize, FLOAT, false, 0, 0). */
  function PositionPointer(b: BufferId): (p: Pointer)
    ensures p.buffer == b && p.size == PositionSize && p.offset == 0
    ensures EffectiveStride(p) == PositionSize * FloatSize
    ensures forall i: nat :: StartByte(p, i) == i * (PositionSize * FloatSize)
  {
    Pointer(b, VertexSize, 0, 0)
  }

  /** Six values, two per vertex; stride 0 reads as 8 bytes, so the three
      vertices end exactly at the end of the buffer. */
  lemma LayoutSound(b: BufferId)
    ensures |Positions| == VertexSize * VertexCount
    ensures WellFormed(PositionPointer(b)) && WithinRecord(PositionPointer(b))
    ensures EffectiveStride(PositionPointer(b)) == VertexSize * FloatSize
    ensures Fits(PositionPointer(b), FloatSize * |Positions|, 0, VertexCount)
    ensures StartByte(PositionPointer(b), VertexCount - 1) + VertexSize * FloatSize == FloatSize * |Positions|
  {
    FitsLast(PositionPointer(b), FloatSize * |Positions|, 0, VertexCount);
  }

  class Triangle {
    const program: ProgramId
    const buffer: BufferId
    const positionLocation: Location

    predicate Valid(gl: Context)
      reads gl
    {
      gl.Valid() && buffer < |gl.buffers| && gl.buffers[buffer] == Positions &&
      positionLocation < gl.maxVertexAttribs
    }

    /** createBuffer, bindBuffer, bufferData. Shader compilation and
        linking are foreign: `program` is the linked program and
        `positionLocation` what getAttribLocation returns for v_position. */
    constructor (gl: Context, program: ProgramId, positionLocation: Location)
      requires gl.Valid() && positionLocation < gl.maxVertexAttribs
      modifies gl
      ensures Valid(gl)
      ensures this.program == program && this.positionLocation == positionLocation
      ensures buffer == |old(gl.buffers)| && gl.buffers == old(gl.buffers) + [Positions]
      ensures gl.arrayBuffer == Some(buffer)
      ensures gl.trace == old(gl.trace) + [BufferCreated(buffer), ArrayBufferBound(Some(buffer)), DataUploaded(Positions)]
      ensures gl.attribs == old(gl.attribs) && gl.program == old(gl.program)
      ensures gl.uniforms == old(gl.uniforms) && gl.error == old(gl.error)
    {
      this.program := program;
      this.positionLocation := positionLocation;
      var b := gl.CreateBuffer();
      gl.BindBuffer(Some(b));
      gl.BufferData(Positions);
      buffer := b;
    }

    function DrawTrace(): seq<Call>
    {
      [ProgramUsed(program), AttribEnabled(positionLocation), ArrayBufferBound(Some(buffer)),
       PointerSet(positionLocation, VertexSize, 0, 0),
       Drew(0, VertexCount, Drawn(PositionStream(Positions, VertexCount)))]
    }

    /** onDraw: useProgram, enableVertexAttribArray, bindBuffer,
        vertexAttribPointer, drawArrays(TRIANGLES, 0, 3). */
    method Draw(gl: Context)
      requires Valid(gl)
      modifies gl
      ensures Valid(gl)
      ensures gl.trace == old(gl.trace) + DrawTrace()
      ensures gl.attribs == old(gl.attribs)[positionLocation := Attrib(true, Some(PositionPointer(buffer)))]
      ensures gl.buffers == old(gl.buffers) && gl.arrayBuffer == Some(buffer) && gl.program == Some(program)
      ensures gl.uniforms == old(gl.uniforms) && gl.error == old(gl.error)
    {
      gl.UseProgram(program);
      gl.EnableVertexAttribArray(positionLocation);
      gl.BindBuffer(Some(buffer));
      gl.VertexAttribPointer(positionLocation, VertexSize, 0, 0);
      assert AttribAt(gl.attribs, positionLocation) == Attrib(true, Some(PositionPointer(buffer)));
      PositionDraw(gl.buffers, gl.attribs, program, buffer, positionLocation, VertexCount);
      gl.DrawArrays(0, VertexCount, [positionLocation]);
    }
  }

  /** One tick of onUpdate. */
  method OnUpdate(gl: Context, triangle: Triangle)
    requires triangle.Valid(gl)
    modifies gl
    ensures triangle.Valid(gl)
    ensures gl.trace == old(gl.trace) + Frame.Prologue(gl.drawingBufferWidth, gl.drawingBufferHeight) + triangle.DrawTrace()
    ensures gl.attribs == old(gl.attribs)[triangle.positionLocation := Attrib(true, Some(PositionPointer(triangle.buffer)))]
    ensures gl.buffers == old(gl.buffers) && gl.arrayBuffer == Some(triangle.buffer) && gl.program == Some(triangle.program)
    ensures gl.uniforms == old(gl.uniforms) && gl.error == old(gl.error)
  {
    Frame.BeginFrame(gl);
    triangle.Draw(gl);
  }
}
