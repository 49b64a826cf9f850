/**
 * An abstract model of the WebGL 1.0 state that the triangle demos drive:
 * the buffers, the ARRAY_BUFFER binding, the vertex attribute table, the
 * program in use and its uniforms, the error flag, and a trace of every
 * state-changing call in the order it was issued.
 *
 * drawArrays fetches vertex data by the addressing rule of section 2.8
 * ("Vertex Arrays") of the OpenGL ES 2.0 specification, on which WebGL 1.0
 * is based: component j of vertex i of an attribute is read at byte
 * offset + i * stride + j * 4 of the buffer that was bound when
 * vertexAttribPointer was called, and a stride of 0 means that the
 * components are tightly packed.
 */
module WebGL {
  import opened Wrappers

  /** Vertex data. The demos only copy these values into buffers, and the
      shaders read them back; nothing in the model computes with them. */
  type Float = real

  type BufferId = nat
  type ProgramId = nat
  type Location = nat

  /** Byte size of gl.FLOAT, the only component type the demos use. */
  const FloatSize: nat := 4
  /** WebGL 1.0 rejects a vertexAttribPointer stride above 255 bytes. */
  const MaxStride: nat := 255
  /** Every WebGL 1.0 implementation offers at least 8 vertex attributes. */
  const MinVertexAttribs: nat := 8

  datatype GLError = NoError | InvalidValue | InvalidOperation

  /** The error flag keeps the first error recorded until it is read. */
  function Raise(flag: GLError, e: GLError): GLError
  {
    if flag == NoError then e else flag
  }

  /** A JavaScript number as the demos can produce it: finite, or NaN.
      The values here are times and GLfloats, hence `real`; the list
      navigator's indices use their own integer-valued `DemoList.JsNumber`. */
  datatype Number = Finite(value: real) | NaN

  /** camera.aspect, kept as the two operands of metrics.width / metrics.height. */
  datatype Aspect = Ratio(width: int, height: int)

  /** Symbolic glMatrix operations. The amount of a translation, scaling or
      rotation is what Math.cos and Math.sin give for the frame time it
      carries; those numbers are outside the model. */
  datatype MatrixOp =
    | Translate(time: Number)
    | Scale(time: Number)
    | RotateZ(time: Number)
    | Perspective(fovy: real, aspect: Aspect, near: real, far: real)

  datatype UniformValue = Float1(x: Number) | Matrix4(ops: seq<MatrixOp>)

  /** What vertexAttribPointer stores: the buffer bound to ARRAY_BUFFER at
      the time of the call, the component count, and the stride and offset
      in bytes (the type is always FLOAT and never normalized). */
  datatype Pointer = Pointer(buffer: BufferId, size: nat, stride: nat, offset: nat)

  datatype Attrib = Attrib(enabled: bool, pointer: Option<Pointer>)

  const DefaultAttrib := Attrib(false, None)

  /** A value an attribute delivers to the vertex shader: components read
      from its buffer, or, for a disabled array, the current generic
      attribute value, which the model does not track. */
  datatype Fetched = FromArray(components: seq<Float>) | CurrentValue

  /** One vertex as the shader sees it, one entry per active attribute. */
  type Vertex = seq<Fetched>

  datatype DrawOutcome = Drawn(vertices: seq<Vertex>) | Rejected(error: GLError)

  /** One entry per WebGL call, with its arguments; a draw also records
      what it delivered or why it was rejected. */
  datatype Call =
    | FramebufferBound(framebuffer: Option<nat>)
    | ViewportSet(x: int, y: int, width: int, height: int)
    | ClearColorSet(red: real, green: real, blue: real, alpha: real)
    | ColorBufferCleared
    | ProgramUsed(program: ProgramId)
    | BufferCreated(id: BufferId)
    | ArrayBufferBound(buffer: Option<BufferId>)
    | DataUploaded(data: seq<Float>)
    | AttribEnabled(location: Location)
    | PointerSet(location: Location, size: int, stride: int, offset: int)
    | UniformSet(name: string, value: UniformValue)
    | Drew(first: int, count: int, outcome: DrawOutcome)

  /** Byte distance between consecutive vertices; 0 means tightly packed. */
  function EffectiveStride(p: Pointer): nat
  {
    if p.stride == 0 then p.size * FloatSize else p.stride
  }

  /** Byte address of the first component of vertex i. */
  function StartByte(p: Pointer, i: nat): nat
  {
    p.offset + i * EffectiveStride(p)
  }

  /** Section 6.4 of the WebGL 1.0 specification: offset and stride are
      multiples of the size of the component type. */
  predicate Aligned(p: Pointer)
  {
    p.offset % FloatSize == 0 && p.stride % FloatSize == 0
  }

  predicate WellFormed(p: Pointer)
  {
    1 <= p.size <= 4 && p.stride <= MaxStride && Aligned(p)
  }

  /** The components of vertex 0 lie inside the first stride-long record,
      so those of vertex i lie inside record i. */
  predicate WithinRecord(p: Pointer)
  {
    p.offset + p.size * FloatSize <= EffectiveStride(p)
  }

  /** Two attributes read disjoint byte ranges of a vertex record. */
  predicate Disjoint(p: Pointer, q: Pointer)
  {
    p.offset + p.size * FloatSize <= q.offset || q.offset + q.size * FloatSize <= p.offset
  }

  /** Every vertex first .. first + count - 1 can be read from a buffer of
      byteLength bytes. */
  predicate Fits(p: Pointer, byteLength: nat, first: nat, count: nat)
  {
    forall i :: first <= i < first + count ==> StartByte(p, i) + p.size * FloatSize <= byteLength
  }

  lemma StartByteAligned(p: Pointer, i: nat)
    requires Aligned(p)
    ensures StartByte(p, i) % FloatSize == 0
  {
    var s := EffectiveStride(p);
    assert s == FloatSize * (s / FloatSize);
    assert i * s == FloatSize * (i * (s / FloatSize));
  }

  /** The range check reduces to the last vertex: the reads of a draw stay
      inside the buffer exactly when those of its last vertex do. */
  lemma {:induction false} FitsLast(p: Pointer, byteLength: nat, first: nat, count: nat)
    requires count > 0
    ensures Fits(p, byteLength, first, count)
        <==> StartByte(p, first + count - 1) + p.size * FloatSize <= byteLength
  {
    var s := EffectiveStride(p);
    if StartByte(p, first + count - 1) + p.size * FloatSize <= byteLength {
      forall i | first <= i < first + count
        ensures StartByte(p, i) + p.size * FloatSize <= byteLength
      {
        MulMonotone(i, first + count - 1, s);
      }
    }
  }

  lemma MulMonotone(a: nat, b: nat, s: nat)
    requires a <= b
    ensures a * s <= b * s
  {
  }

  /** The components vertex i reads. The body follows the addressing rule
      byte by byte; the contract states that they form one contiguous run
      of the buffer. */
  function Fetch(p: Pointer, data: seq<Float>, i: nat): (r: seq<Float>)
    requires Aligned(p)
    requires StartByte(p, i) + p.size * FloatSize <= FloatSize * |data|
    ensures |r| == p.size
    ensures r == data[StartByte(p, i) / FloatSize .. StartByte(p, i) / FloatSize + p.size]
  {
    StartByteAligned(p, i);
    seq(p.size, j requires 0 <= j < p.size => data[(StartByte(p, i) + j * FloatSize) / FloatSize])
  }

  function AttribAt(attribs: map<Location, Attrib>, location: Location): Attrib
  {
    if location in attribs then attribs[location] else DefaultAttrib
  }

  /** An enabled attribute can supply vertices first .. first + count - 1:
      it has a buffer, and every byte it reads lies inside that buffer
      (WebGL 1.0 range checking of enabled vertex attributes). */
  predicate Sourced(buffers: seq<seq<Float>>, a: Attrib, first: nat, count: nat)
  {
    !a.enabled ||
    (a.pointer.Some? && a.pointer.value.buffer < |buffers| && Aligned(a.pointer.value) &&
     Fits(a.pointer.value, FloatSize * |buffers[a.pointer.value.buffer]|, first, count))
  }

  function AttribValue(buffers: seq<seq<Float>>, a: Attrib, i: nat): Fetched
    requires Sourced(buffers, a, i, 1)
  {
    if !a.enabled then CurrentValue
    else FromArray(Fetch(a.pointer.value, buffers[a.pointer.value.buffer], i))
  }

  /** drawArrays(TRIANGLES, first, count) with the program whose active
      attributes sit at the given locations. */
  function Draw(buffers: seq<seq<Float>>, attribs: map<Location, Attrib>, program: Option<ProgramId>,
                first: int, count: int, active: seq<Location>): (r: DrawOutcome)
    ensures r.Drawn? ==> |r.vertices| == count
    ensures r.Drawn? ==> forall i :: 0 <= i < |r.vertices| ==> |r.vertices[i]| == |active|
    ensures r == Rejected(InvalidValue) <==> first < 0 || count < 0
    ensures r.Drawn? <==>
      first >= 0 && count >= 0 && program.Some? &&
      forall k :: 0 <= k < |active| ==> Sourced(buffers, AttribAt(attribs, active[k]), first, count)
  {
    if first < 0 || count < 0 then Rejected(InvalidValue)
    else if program.None? then Rejected(InvalidOperation)
    else if exists k :: 0 <= k < |active| && !Sourced(buffers, AttribAt(attribs, active[k]), first, count) then
      Rejected(InvalidOperation)
    else
      Drawn(seq(count, i requires 0 <= i < count =>
        seq(|active|, k requires 0 <= k < |active| =>
          AttribValue(buffers, AttribAt(attribs, active[k]), first + i))))
  }

  /** The error vertexAttribPointer(location, size, FLOAT, false, stride,
      offset) raises, in the order WebGL 1.0 checks for them; NoError when
      the call takes effect. */
  function PointerError(location: Location, size: int, stride: int, offset: int,
                        bound: Option<BufferId>, maxAttribs: nat): (e: GLError)
    ensures e == NoError <==>
      location < maxAttribs && bound.Some? && size >= 0 && stride >= 0 && offset >= 0 &&
      WellFormed(Pointer(bound.value, size as nat, stride as nat, offset as nat))
    ensures e != NoError && (size < 1 || size > 4 || stride < 0 || offset < 0) ==> e == InvalidValue
  {
    if location >= maxAttribs || size < 1 || size > 4 || stride < 0 || offset < 0 || stride > MaxStride then InvalidValue
    else if stride % FloatSize != 0 || offset % FloatSize != 0 then InvalidOperation
    else if bound.None? then InvalidOperation
    else NoError
  }

  /** The WebGL rendering context of one demo. */
  class Context {
    var buffers: seq<seq<Float>>
    var arrayBuffer: Option<BufferId>
    var program: Option<ProgramId>
    var attribs: map<Location, Attrib>
    var uniforms: map<(ProgramId, string), UniformValue>
    var error: GLError
    var trace: seq<Call>
    const maxVertexAttribs: nat
    const drawingBufferWidth: int
    const drawingBufferHeight: int

    predicate Valid()
      reads this
    {
      maxVertexAttribs >= MinVertexAttribs &&
      (arrayBuffer.Some? ==> arrayBuffer.value < |buffers|)
    }

    constructor (maxVertexAttribs: nat, drawingBufferWidth: int, drawingBufferHeight: int)
      requires maxVertexAttribs >= MinVertexAttribs
      ensures Valid()
      ensures this.maxVertexAttribs == maxVertexAttribs
      ensures this.drawingBufferWidth == drawingBufferWidth && this.drawingBufferHeight == drawingBufferHeight
      ensures buffers == [] && arrayBuffer == None && program == None
      ensures attribs == map[] && uniforms == map[] && error == NoError && trace == []
    {
      this.maxVertexAttribs := maxVertexAttribs;
      this.drawingBufferWidth := drawingBufferWidth;
      this.drawingBufferHeight := drawingBufferHeight;
      buffers, arrayBuffer, program := [], None, None;
      attribs, uniforms, error, trace := map[], map[], NoError, [];
    }

    method CreateBuffer() returns (b: BufferId)
      requires Valid()
      modifies this`buffers, this`trace
      ensures Valid()
      ensures b == |old(buffers)| && buffers == old(buffers) + [[]]
      ensures trace == old(trace) + [BufferCreated(b)]
    {
      b := |buffers|;
      buffers := buffers + [[]];
      trace := trace + [BufferCreated(b)];
    }

    method BindBuffer(b: Option<BufferId>)
      requires Valid()
      requires b.Some? ==> b.value < |buffers|
      modifies this`arrayBuffer, this`trace
      ensures Valid()
      ensures arrayBuffer == b
      ensures trace == old(trace) + [ArrayBufferBound(b)]
    {
      arrayBuffer := b;
      trace := trace + [ArrayBufferBound(b)];
    }

    /** bufferData(ARRAY_BUFFER, new Float32Array(data), STATIC_DRAW). */
    method BufferData(data: seq<Float>)
      requires Valid()
      modifies this`buffers, this`error, this`trace
      ensures Valid()
      ensures trace == old(trace) + [DataUploaded(data)]
      ensures arrayBuffer.Some? ==> buffers == old(buffers)[arrayBuffer.value := data] && error == old(error)
      ensures arrayBuffer.None? ==> buffers == old(buffers) && error == Raise(old(error), InvalidOperation)
    {
      if arrayBuffer.Some? {
        buffers := buffers[arrayBuffer.value := data];
      } else {
        error := Raise(error, InvalidOperation);
      }
      trace := trace + [DataUploaded(data)];
    }

    method UseProgram(p: ProgramId)
      requires Valid()
      modifies this`program, this`trace
      ensures Valid()
      ensures program == Some(p)
      ensures trace == old(trace) + [ProgramUsed(p)]
    {
      program := Some(p);
      trace := trace + [ProgramUsed(p)];
    }

    method EnableVertexAttribArray(location: Location)
      requires Valid()
      modifies this`attribs, this`error, this`trace
      ensures Valid()
      ensures trace == old(trace) + [AttribEnabled(location)]
      ensures location < maxVertexAttribs ==>
        attribs == old(attribs)[location := Attrib(true, AttribAt(old(attribs), location).pointer)] &&
        error == old(error)
      ensures location >= maxVertexAttribs ==>
        attribs == old(attribs) && error == Raise(old(error), InvalidValue)
    {
      if location < maxVertexAttribs {
        attribs := attribs[location := Attrib(true, AttribAt(attribs, location).pointer)];
      } else {
        error := Raise(error, InvalidValue);
      }
      trace := trace + [AttribEnabled(location)];
    }

    /** vertexAttribPointer(location, size, FLOAT, false, stride, offset):
        the attribute captures the buffer bound to ARRAY_BUFFER now. */
    method VertexAttribPointer(location: Location, size: int, stride: int, offset: int)
      requires Valid()
      modifies this`attribs, this`error, this`trace
      ensures Valid()
      ensures trace == old(trace) + [PointerSet(location, size, stride, offset)]
      ensures PointerError(location, size, stride, offset, arrayBuffer, maxVertexAttribs) == NoError ==>
        attribs == old(attribs)[location := Attrib(AttribAt(old(attribs), location).enabled,
                                                   Some(Pointer(arrayBuffer.value, size as nat, stride as nat, offset as nat)))] &&
        error == old(error)
      ensures PointerError(location, size, stride, offset, arrayBuffer, maxVertexAttribs) != NoError ==>
        attribs == old(attribs) &&
        error == Raise(old(error), PointerError(location, size, stride, offset, arrayBuffer, maxVertexAttribs))
    {
      var e := PointerError(location, size, stride, offset, arrayBuffer, maxVertexAttribs);
      if e == NoError {
        attribs := attribs[location := Attrib(AttribAt(attribs, location).enabled,
                                              Some(Pointer(arrayBuffer.value, size as nat, stride as nat, offset as nat)))];
      } else {
        error := Raise(error, e);
      }
      trace := trace + [PointerSet(location, size, stride, offset)];
    }

    /** uniform1f / uniformMatrix4fv through a location that getUniformLocation
        returned for program `owner`. */
    method Uniform(owner: ProgramId, name: string, value: UniformValue)
      requires Valid()
      modifies this`uniforms, this`error, this`trace
      ensures Valid()
      ensures trace == old(trace) + [UniformSet(name, value)]
      ensures program == Some(owner) ==> uniforms == old(uniforms)[(owner, name) := value] && error == old(error)
      ensures program != Some(owner) ==> uniforms == old(uniforms) && error == Raise(old(error), InvalidOperation)
    {
      if program == Some(owner) {
        uniforms := uniforms[(owner, name) := value];
      } else {
        error := Raise(error, InvalidOperation);
      }
      trace := trace + [UniformSet(name, value)];
    }

    /** drawArrays(TRIANGLES, first, count) for a program whose active
        attributes sit at `active`. */
    method DrawArrays(first: int, count: int, active: seq<Location>)
      requires Valid()
      modifies this`error, this`trace
      ensures Valid()
      ensures trace == old(trace) + [Drew(first, count, Draw(buffers, attribs, program, first, count, active))]
      ensures Draw(buffers, attribs, program, first, count, active).Drawn? ==> error == old(error)
      ensures Draw(buffers, attribs, program, first, count, active).Rejected? ==>
        error == Raise(old(error), Draw(buffers, attribs, program, first, count, active).error)
    {
      var outcome := Draw(buffers, attribs, program, first, count, active);
      if outcome.Rejected? {
        error := Raise(error, outcome.error);
      }
      trace := trace + [Drew(first, count, outcome)];
    }

    method BindFramebuffer(framebuffer: Option<nat>)
      requires Valid()
      modifies this`trace
      ensures Valid()
      ensures trace == old(trace) + [FramebufferBound(framebuffer)]
    {
      trace := trace + [FramebufferBound(framebuffer)];
    }

    method Viewport(x: int, y: int, width: int, height: int)
      requires Valid()
      modifies this`trace
      ensures Valid()
      ensures trace == old(trace) + [ViewportSet(x, y, width, height)]
    {
      trace := trace + [ViewportSet(x, y, width, height)];
    }

    method ClearColor(red: real, green: real, blue: real, alpha: real)
      requires Valid()
      modifies this`trace
      ensures Valid()
      ensures trace == old(trace) + [ClearColorSet(red, green, blue, alpha)]
    {
      trace := trace + [ClearColorSet(red, green, blue, alpha)];
    }

    /** clear(COLOR_BUFFER_BIT). */
    method Clear()
      requires Valid()
      modifies this`trace
      ensures Valid()
      ensures trace == old(trace) + [ColorBufferCleared]
    {
      trace := trace + [ColorBufferCleared];
    }
  }
}
