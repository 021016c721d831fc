/** Concrete walk-throughs of the edge-scroll behaviour on an 800x600 window. */
module Scenarios {
  import opened Vectors
  import opened FreeLook

  function Centred(lib: MathLib): Camera {
    NewDefaultCamera(lib, 800, 600, 0.0, 0.0)
  }

  /** Moving the cursor 20 pixels right turns the camera exactly one degree
      and clears both horizontal flags. */
  lemma MouseDeltaTurnsOneDegree(lib: MathLib, c: Camera)
    ensures var r := OnMouse(lib, c, c.mouseX + 20, c.mouseY);
      r.angleH == c.angleH + 1.0 && r.angleV == c.angleV && !r.onLeftEdge && !r.onRightEdge
  {
  }

  /** Resting at x = 5 (two events at the same spot) raises the left flag;
      the next tick turns 0.1 degree left and recomputes. */
  lemma LeftEdgePin(lib: MathLib)
    ensures var a := OnMouse(lib, Centred(lib), 5, 300);
      var b := OnMouse(lib, a, 5, 300);
      var t := OnRender(lib, b);
      && !a.onLeftEdge && b.onLeftEdge && !b.onRightEdge
      && t.recomputed && t.camera.angleH == b.angleH - 0.1
  {
  }

  /** Resting at the bottom-right corner raises the right and lower flags. */
  lemma CornerPin(lib: MathLib)
    ensures var a := OnMouse(lib, Centred(lib), 795, 595);
      var b := OnMouse(lib, a, 795, 595);
      b.onRightEdge && b.onLowerEdge && !b.onLeftEdge && !b.onUpperEdge
  {
  }

  /** With the lower flag held at exactly 90 degrees, a tick changes nothing. */
  lemma LowerEdgeAtPole(lib: MathLib, c: Camera)
    requires c.angleV == 90.0 && c.onLowerEdge && !c.onUpperEdge
    requires !c.onLeftEdge && !c.onRightEdge
    ensures OnRender(lib, c) == TickOutcome(c, false)
  {
  }

  /** Just below the pole the tick still turns, overshooting to 90.05. */
  lemma LowerEdgeOvershoot(lib: MathLib, c: Camera)
    requires c.angleV == 89.95 && c.onLowerEdge && !c.onUpperEdge
    ensures OnRender(lib, c).camera.angleV == 90.05
  {
  }
}
