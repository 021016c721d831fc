/** Why the left/right and upper/lower edge flags are never set together.

    The mouse handler does not enforce this by itself: when the cursor is
    still but away from both edges, it keeps whatever flags it had. The
    property holds because every reachable camera remembers where the cursor
    was when a flag was raised: a left (upper) flag implies the stored cursor
    is within the margin, a right (lower) flag implies it is past the margin
    and within the margin of the far edge. Since a flag can only be kept while
    the cursor stays put, these facts survive every event.
 */
module EdgeScroll {
  import opened Vectors
  import opened FreeLook

  /** At most one flag per axis. */
  predicate EdgesExclusive(c: Camera) {
    !(c.onLeftEdge && c.onRightEdge) && !(c.onUpperEdge && c.onLowerEdge)
  }

  /** Each raised flag agrees with the stored cursor position. */
  predicate EdgeInvariant(c: Camera) {
    && (c.onLeftEdge ==> c.mouseX <= Margin)
    && (c.onRightEdge ==> Margin < c.mouseX && c.mouseX >= c.width - Margin)
    && (c.onUpperEdge ==> c.mouseY <= Margin)
    && (c.onLowerEdge ==> Margin < c.mouseY && c.mouseY >= c.height - Margin)
  }

  lemma InvariantExclusive(c: Camera)
    requires EdgeInvariant(c)
    ensures EdgesExclusive(c)
  {
  }

  lemma NewCameraInvariant(lib: MathLib, width: int, height: int, pos: Vec3, target: Vec3, up: Vec3,
                           angleH: real, angleV: real)
    ensures EdgeInvariant(NewCamera(lib, width, height, pos, target, up, angleH, angleV))
    ensures EdgeInvariant(NewDefaultCamera(lib, width, height, angleH, angleV))
  {
  }

  /** Every event handler keeps the invariant. */
  lemma StepInvariant(lib: MathLib, c: Camera, e: Event)
    requires EdgeInvariant(c)
    ensures EdgeInvariant(Step(lib, c, e))
  {
  }

  /** The invariant holds after any sequence of events. */
  lemma {:induction false} RunInvariant(lib: MathLib, c: Camera, events: seq<Event>)
    requires EdgeInvariant(c)
    ensures EdgeInvariant(Run(lib, c, events))
    decreases |events|
  {
    if |events| > 0 {
      StepInvariant(lib, c, events[0]);
      RunInvariant(lib, Step(lib, c, events[0]), events[1..]);
    }
  }

  /** From a camera with every edge flag clear, after any sequence of mouse,
      keyboard and tick events, no axis has both of its edge flags set. */
  lemma {:induction false} ReachableExclusive(lib: MathLib, c: Camera, events: seq<Event>)
    requires NoEdge(c)
    ensures EdgesExclusive(Run(lib, c, events))
  {
    RunInvariant(lib, c, events);
    InvariantExclusive(Run(lib, c, events));
  }

  /** Both constructors clear every flag, so exclusivity holds from
      construction on. */
  lemma ConstructedExclusive(lib: MathLib, width: int, height: int, pos: Vec3,
                             target: Vec3, up: Vec3, angleH: real, angleV: real,
                             events: seq<Event>)
    ensures EdgesExclusive(Run(lib, NewCamera(lib, width, height, pos, target, up, angleH, angleV), events))
    ensures EdgesExclusive(Run(lib, NewDefaultCamera(lib, width, height, angleH, angleV), events))
  {
    ReachableExclusive(lib, NewCamera(lib, width, height, pos, target, up, angleH, angleV), events);
    ReachableExclusive(lib, NewDefaultCamera(lib, width, height, angleH, angleV), events);
  }

  /** On a reachable camera, keeping the flags in the no-threshold branch is
      the same as recomputing them from scratch: after a mouse event a flag is
      set exactly when the cursor did not move along that axis and sits at
      that edge. */
  lemma MouseFlagsFromScratch(lib: MathLib, c: Camera, x: int, y: int)
    requires EdgeInvariant(c)
    ensures var r := OnMouse(lib, c, x, y);
      && r.onLeftEdge == (x == c.mouseX && x <= Margin)
      && r.onRightEdge == (x == c.mouseX && Margin < x && x >= c.width - Margin)
      && r.onUpperEdge == (y == c.mouseY && y <= Margin)
      && r.onLowerEdge == (y == c.mouseY && Margin < y && y >= c.height - Margin)
  {
  }

  /** The flags of one axis depend only on that axis: two cameras that agree
      on the horizontal cursor, width and horizontal flags end with the same
      horizontal flags and horizontal turn whatever the vertical parts and the
      new y are. */
  lemma AxesIndependent(lib: MathLib, c: Camera, d: Camera, x: int, y: int, y': int)
    requires c.mouseX == d.mouseX && c.width == d.width
    requires c.onLeftEdge == d.onLeftEdge && c.onRightEdge == d.onRightEdge
    ensures OnMouse(lib, c, x, y).onLeftEdge == OnMouse(lib, d, x, y').onLeftEdge
    ensures OnMouse(lib, c, x, y).onRightEdge == OnMouse(lib, d, x, y').onRightEdge
    ensures OnMouse(lib, c, x, y).angleH - c.angleH == OnMouse(lib, d, x, y').angleH - d.angleH
  {
  }

  /** The vertical counterpart of `AxesIndependent`: the vertical flags and
      turn depend only on the vertical cursor, the height and the vertical flags. */
  lemma AxesIndependentVertical(lib: MathLib, c: Camera, d: Camera, x: int, x': int, y: int)
    requires c.mouseY == d.mouseY && c.height == d.height
    requires c.onUpperEdge == d.onUpperEdge && c.onLowerEdge == d.onLowerEdge
    ensures OnMouse(lib, c, x, y).onUpperEdge == OnMouse(lib, d, x', y).onUpperEdge
    ensures OnMouse(lib, c, x, y).onLowerEdge == OnMouse(lib, d, x', y).onLowerEdge
    ensures OnMouse(lib, c, x, y).angleV - c.angleV == OnMouse(lib, d, x', y).angleV - d.angleV
  {
  }

  /** The invariant is what makes exclusivity hold: from a camera that is not
      reachable, with both horizontal flags set and the cursor in the middle of
      an 800-pixel window, a still cursor keeps both flags. */
  lemma LocalStepKeepsClash(lib: MathLib)
    ensures var c := Camera(800, 600, Zero, Zero, Zero, 0.0, 0.0, 400, 300, false, false, true, true);
      var r := OnMouse(lib, c, 400, 300);
      !EdgeInvariant(c) && r.onLeftEdge && r.onRightEdge
  {
  }
}
