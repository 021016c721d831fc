/** Properties of repeated per-frame ticks: idle ticks change nothing, a
    held horizontal edge turns at a constant rate with no bound, and the
    vertical turn stops at the poles. */
module TickProperties {
  import opened Vectors
  import opened FreeLook

  /** The camera after `n` consecutive ticks with no other event. */
  function Ticks(lib: MathLib, c: Camera, n: nat): Camera
    decreases n
  {
    if n == 0 then c else Ticks(lib, OnRender(lib, c).camera, n - 1)
  }

  /** A tick with no edge flag set is a no-op and does not recompute. */
  lemma IdleTick(lib: MathLib, c: Camera)
    requires NoEdge(c)
    ensures OnRender(lib, c) == TickOutcome(c, false)
  {
  }

  /** Any number of idle ticks leaves the camera exactly as it was. */
  lemma {:induction false} IdleTicks(lib: MathLib, c: Camera, n: nat)
    requires NoEdge(c)
    ensures Ticks(lib, c, n) == c
    decreases n
  {
    if n > 0 {
      IdleTick(lib, c);
      IdleTicks(lib, c, n - 1);
    }
  }

  /** Ticks never touch the flags, the cursor, the position or the window. */
  lemma {:induction false} TicksKeepInputs(lib: MathLib, c: Camera, n: nat)
    ensures var r := Ticks(lib, c, n);
      && r.onLeftEdge == c.onLeftEdge && r.onRightEdge == c.onRightEdge
      && r.onUpperEdge == c.onUpperEdge && r.onLowerEdge == c.onLowerEdge
      && r.mouseX == c.mouseX && r.mouseY == c.mouseY
      && r.pos == c.pos && r.width == c.width && r.height == c.height
    decreases n
  {
    if n > 0 {
      TicksKeepInputs(lib, OnRender(lib, c).camera, n - 1);
    }
  }

  /** While the left edge is held the horizontal angle drops by 0.1 per tick,
      whatever the right flag says; while only the right edge is held it grows
      by 0.1 per tick. There is no bound either way. */
  lemma {:induction false} HeldHorizontalEdge(lib: MathLib, c: Camera, n: nat)
    ensures c.onLeftEdge ==> Ticks(lib, c, n).angleH == c.angleH - n as real * EdgeStep
    ensures !c.onLeftEdge && c.onRightEdge ==> Ticks(lib, c, n).angleH == c.angleH + n as real * EdgeStep
    ensures !c.onLeftEdge && !c.onRightEdge ==> Ticks(lib, c, n).angleH == c.angleH
    decreases n
  {
    if n > 0 {
      HeldHorizontalEdge(lib, OnRender(lib, c).camera, n - 1);
    }
  }

  /** The band the tick keeps the vertical angle in: it may overshoot the
      pole by less than one step, never more. */
  predicate InPoleBand(a: real) {
    -PoleLimit - EdgeStep < a < PoleLimit + EdgeStep
  }

  /** Starting inside the band, no number of ticks leaves it. */
  lemma {:induction false} TicksStayInPoleBand(lib: MathLib, c: Camera, n: nat)
    requires InPoleBand(c.angleV)
    ensures InPoleBand(Ticks(lib, c, n).angleV)
    decreases n
  {
    if n > 0 {
      TicksStayInPoleBand(lib, OnRender(lib, c).camera, n - 1);
    }
  }

  /** Once at or past the pole in the held direction, ticks leave the
      vertical angle where it is. */
  lemma {:induction false} PinnedAtPole(lib: MathLib, c: Camera, n: nat)
    requires (c.onUpperEdge && c.angleV <= -PoleLimit)
          || (!c.onUpperEdge && c.onLowerEdge && c.angleV >= PoleLimit)
    ensures Ticks(lib, c, n).angleV == c.angleV
    decreases n
  {
    if n > 0 {
      PinnedAtPole(lib, OnRender(lib, c).camera, n - 1);
    }
  }

  /** Only the tick is bounded: a mouse motion turns the vertical angle past
      the pole. */
  lemma MouseCrossesPole(lib: MathLib, c: Camera)
    requires c.angleV == PoleLimit
    ensures OnMouse(lib, c, c.mouseX, c.mouseY + 20).angleV == PoleLimit + 1.0
  {
  }
}
