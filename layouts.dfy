/**
 * The two vertex layouts of the triangle demos and what the vertex shader
 * should receive from each. A vertex is a 2-component position and a
 * 3-component colour. In the separate layout each attribute has its own
 * tightly packed buffer; in the interleaved layout one buffer holds
 * records of five floats, position first.
 */
module Layouts {
  import opened Wrappers
  import opened WebGL

  const PositionSize: nat := 2
  const ColorSize: nat := 3
  /** Floats per interleaved record. */
  const RecordSize: nat := PositionSize + ColorSize
  /** Byte stride of an interleaved record. */
  const InterleavedStride: nat := RecordSize * FloatSize
  /** Byte offset of the colour inside an interleaved record. */
  const ColorByteOffset: nat := PositionSize * FloatSize

  /** Per vertex: the position, as the shader should see it. */
  function PositionStream(ps: seq<Float>, n: nat): seq<Vertex>
    requires |ps| == PositionSize * n
  {
    seq(n, i requires 0 <= i < n => [FromArray(ps[2 * i .. 2 * i + 2])])
  }

  /** Per vertex: position and colour taken from two separate arrays. */
  function SeparateStream(ps: seq<Float>, cs: seq<Float>, n: nat): seq<Vertex>
    requires |ps| == PositionSize * n && |cs| == ColorSize * n
  {
    seq(n, i requires 0 <= i < n => [FromArray(ps[2 * i .. 2 * i + 2]), FromArray(cs[3 * i .. 3 * i + 3])])
  }

  /** Per vertex: position and colour taken from one array of records. */
  function InterleavedStream(data: seq<Float>, n: nat): seq<Vertex>
    requires |data| == RecordSize * n
  {
    seq(n, i requires 0 <= i < n => [FromArray(data[5 * i .. 5 * i + 2]), FromArray(data[5 * i + 2 .. 5 * i + 5])])
  }

  /** The interleaved array that holds the same vertices as ps and cs. */
  function Interleave(ps: seq<Float>, cs: seq<Float>, n: nat): (r: seq<Float>)
    requires |ps| == PositionSize * n && |cs| == ColorSize * n
    ensures |r| == RecordSize * n
  {
    if n == 0 then [] else ps[..2] + cs[..3] + Interleave(ps[2..], cs[3..], n - 1)
  }

  lemma {:induction false} InterleaveAt(ps: seq<Float>, cs: seq<Float>, n: nat, i: nat)
    requires |ps| == PositionSize * n && |cs| == ColorSize * n
    requires i < n
    ensures Interleave(ps, cs, n)[5 * i .. 5 * i + 2] == ps[2 * i .. 2 * i + 2]
    ensures Interleave(ps, cs, n)[5 * i + 2 .. 5 * i + 5] == cs[3 * i .. 3 * i + 3]
  {
    var r := Interleave(ps, cs, n);
    var head := ps[..2] + cs[..3];
    assert r == head + Interleave(ps[2..], cs[3..], n - 1);
    if i > 0 {
      InterleaveAt(ps[2..], cs[3..], n - 1, i - 1);
      var rest := Interleave(ps[2..], cs[3..], n - 1);
      assert r[5 * i .. 5 * i + 2] == rest[5 * (i - 1) .. 5 * (i - 1) + 2];
      assert r[5 * i + 2 .. 5 * i + 5] == rest[5 * (i - 1) + 2 .. 5 * (i - 1) + 5];
      assert ps[2..][2 * (i - 1) .. 2 * (i - 1) + 2] == ps[2 * i .. 2 * i + 2];
      assert cs[3..][3 * (i - 1) .. 3 * (i - 1) + 3] == cs[3 * i .. 3 * i + 3];
    }
  }

  /** Round trip of the two layouts: reading the interleaved array record
      by record gives back exactly the positions and colours it was built
      from. */
  lemma InterleavedMatchesSeparate(ps: seq<Float>, cs: seq<Float>, n: nat)
    requires |ps| == PositionSize * n && |cs| == ColorSize * n
    ensures InterleavedStream(Interleave(ps, cs, n), n) == SeparateStream(ps, cs, n)
  {
    var l := InterleavedStream(Interleave(ps, cs, n), n);
    var r := SeparateStream(ps, cs, n);
    forall i | 0 <= i < n
      ensures l[i] == r[i]
    {
      InterleaveAt(ps, cs, n, i);
    }
  }

  /** enableVertexAttribArray(location) followed by
      vertexAttribPointer(location, size, FLOAT, false, stride, offset) on
      the buffer bound now, for a location and pointer WebGL accepts. */
  method SetAttribute(gl: Context, location: Location, size: nat, stride: nat, offset: nat)
    requires gl.Valid() && gl.arrayBuffer.Some? && location < gl.maxVertexAttribs
    requires WellFormed(Pointer(gl.arrayBuffer.value, size, stride, offset))
    modifies gl`attribs, gl`trace, gl`error
    ensures gl.Valid()
    ensures gl.trace == old(gl.trace) + [AttribEnabled(location), PointerSet(location, size, stride, offset)]
    ensures gl.attribs == old(gl.attribs)[location := Attrib(true, Some(Pointer(gl.arrayBuffer.value, size, stride, offset)))]
    ensures gl.error == old(gl.error)
  {
    gl.EnableVertexAttribArray(location);
    gl.VertexAttribPointer(location, size, stride, offset);
  }

  /** drawArrays(TRIANGLES, 0, n) over one interleaved buffer, position at
      byte 0 and colour at byte 8 of each 20-byte record, delivers the
      records' positions and colours. */
  lemma InterleavedDraw(buffers: seq<seq<Float>>, attribs: map<Location, Attrib>, program: ProgramId,
                        b: BufferId, positionLocation: Location, colorLocation: Location, n: nat)
    requires b < |buffers| && |buffers[b]| == RecordSize * n
    requires AttribAt(attribs, positionLocation) == Attrib(true, Some(Pointer(b, PositionSize, InterleavedStride, 0)))
    requires AttribAt(attribs, colorLocation) == Attrib(true, Some(Pointer(b, ColorSize, InterleavedStride, ColorByteOffset)))
    ensures Draw(buffers, attribs, Some(program), 0, n, [positionLocation, colorLocation])
         == Drawn(InterleavedStream(buffers[b], n))
  {
    var data := buffers[b];
    var p := Pointer(b, PositionSize, InterleavedStride, 0);
    var c := Pointer(b, ColorSize, InterleavedStride, ColorByteOffset);
    var active := [positionLocation, colorLocation];
    assert Sourced(buffers, AttribAt(attribs, active[0]), 0, n);
    assert Sourced(buffers, AttribAt(attribs, active[1]), 0, n);
    var r := Draw(buffers, attribs, Some(program), 0, n, active);
    assert r.Drawn?;
    forall i | 0 <= i < n
      ensures r.vertices[i] == InterleavedStream(data, n)[i]
    {
      assert StartByte(p, i) / FloatSize == 5 * i;
      assert StartByte(c, i) / FloatSize == 5 * i + 2;
      assert r.vertices[i][0] == FromArray(Fetch(p, data, i));
      assert r.vertices[i][1] == FromArray(Fetch(c, data, i));
    }
  }

  /** drawArrays(TRIANGLES, 0, n) over two tightly packed buffers delivers
      the i-th position and the i-th colour for vertex i. */
  lemma SeparateDraw(buffers: seq<seq<Float>>, attribs: map<Location, Attrib>, program: ProgramId,
                     pb: BufferId, cb: BufferId, positionLocation: Location, colorLocation: Location, n: nat)
    requires pb < |buffers| && |buffers[pb]| == PositionSize * n
    requires cb < |buffers| && |buffers[cb]| == ColorSize * n
    requires AttribAt(attribs, positionLocation) == Attrib(true, Some(Pointer(pb, PositionSize, 0, 0)))
    requires AttribAt(attribs, colorLocation) == Attrib(true, Some(Pointer(cb, ColorSize, 0, 0)))
    ensures Draw(buffers, attribs, Some(program), 0, n, [positionLocation, colorLocation])
         == Drawn(SeparateStream(buffers[pb], buffers[cb], n))
  {
    var p := Pointer(pb, PositionSize, 0, 0);
    var c := Pointer(cb, ColorSize, 0, 0);
    var active := [positionLocation, colorLocation];
    assert Sourced(buffers, AttribAt(attribs, active[0]), 0, n);
    assert Sourced(buffers, AttribAt(attribs, active[1]), 0, n);
    var r := Draw(buffers, attribs, Some(program), 0, n, active);
    assert r.Drawn?;
    forall i | 0 <= i < n
      ensures r.vertices[i] == SeparateStream(buffers[pb], buffers[cb], n)[i]
    {
      assert StartByte(p, i) / FloatSize == 2 * i;
      assert StartByte(c, i) / FloatSize == 3 * i;
      assert r.vertices[i][0] == FromArray(Fetch(p, buffers[pb], i));
      assert r.vertices[i][1] == FromArray(Fetch(c, buffers[cb], i));
    }
  }

  /** drawArrays(TRIANGLES, 0, n) over one tightly packed position buffer
      delivers the i-th position for vertex i. */
  lemma PositionDraw(buffers: seq<seq<Float>>, attribs: map<Location, Attrib>, program: ProgramId,
                     b: BufferId, positionLocation: Location, n: nat)
    requires b < |buffers| && |buffers[b]| == PositionSize * n
    requires AttribAt(attribs, positionLocation) == Attrib(true, Some(Pointer(b, PositionSize, 0, 0)))
    ensures Draw(buffers, attribs, Some(program), 0, n, [positionLocation]) == Drawn(PositionStream(buffers[b], n))
  {
    var p := Pointer(b, PositionSize, 0, 0);
    var active := [positionLocation];
    assert Sourced(buffers, AttribAt(attribs, active[0]), 0, n);
    var r := Draw(buffers, attribs, Some(program), 0, n, active);
    assert r.Drawn?;
    forall i | 0 <= i < n
      ensures r.vertices[i] == PositionStream(buffers[b], n)[i]
    {
      assert StartByte(p, i) / FloatSize == 2 * i;
      assert r.vertices[i][0] == FromArray(Fetch(p, buffers[b], i));
    }
  }
}
