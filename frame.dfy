/**
 * The frame driver every triangle demo repeats in onUpdate: reset the
 * framebuffer binding, set the viewport to the whole drawing buffer, clear
 * to opaque black, then draw. One call of a demo's OnUpdate is one tick;
 * requestAnimationFrame's re-scheduling is outside the model.
 */
module Frame {
  import opened Wrappers
  import opened WebGL

  /** The argument of a frame callback: requestAnimationFrame passes a
      timestamp in milliseconds, while the first, direct onUpdate() call
      passes nothing. */
  datatype TimeArg = Undefined | Timestamp(ms: real)

  /** The number the time argument becomes when arithmetic or a GLfloat
      conversion reads it: undefined becomes NaN. */
  function TimeValue(t: TimeArg): Number
  {
    match t
    case Undefined => NaN
    case Timestamp(ms) => Finite(ms)
  }

  /** The calls of a tick that come before the drawables draw. */
  function Prologue(width: int, height: int): seq<Call>
  {
    [FramebufferBound(None), ViewportSet(0, 0, width, height), ClearColorSet(0.0, 0.0, 0.0, 1.0), ColorBufferCleared]
  }

  /** Every draw of a tick comes after a clear of that tick. */
  predicate ClearedBeforeDraws(tick: seq<Call>)
  {
    forall i :: 0 <= i < |tick| && tick[i].Drew? ==>
      exists j :: 0 <= j < i && tick[j] == ColorBufferCleared
  }

  /** Every draw of a tick comes after the upload of `value` to `name`. */
  predicate UniformSetBeforeDraws(tick: seq<Call>, name: string, value: UniformValue)
  {
    forall i :: 0 <= i < |tick| && tick[i].Drew? ==>
      exists j :: 0 <= j < i && tick[j] == UniformSet(name, value)
  }

  /** Whatever the drawables issue after the prologue, each draw follows
      the default framebuffer binding, the full viewport and the clear. */
  lemma PrologueClearsFirst(width: int, height: int, draws: seq<Call>)
    ensures ClearedBeforeDraws(Prologue(width, height) + draws)
    ensures (Prologue(width, height) + draws)[0] == FramebufferBound(None)
    ensures (Prologue(width, height) + draws)[1] == ViewportSet(0, 0, width, height)
  {
    var tick := Prologue(width, height) + draws;
    forall i | 0 <= i < |tick| && tick[i].Drew?
      ensures exists j :: 0 <= j < i && tick[j] == ColorBufferCleared
    {
      assert tick[3] == ColorBufferCleared;
    }
  }

  method BeginFrame(gl: Context)
    requires gl.Valid()
    modifies gl`trace
    ensures gl.Valid()
    ensures gl.trace == old(gl.trace) + Prologue(gl.drawingBufferWidth, gl.drawingBufferHeight)
  {
    gl.BindFramebuffer(None);
    gl.Viewport(0, 0, gl.drawingBufferWidth, gl.drawingBufferHeight);
    gl.ClearColor(0.0, 0.0, 0.0, 1.0);
    gl.Clear();
  }
}
