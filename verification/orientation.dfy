/** The cached target/up pair as a view of the angle pair: every handler
    either leaves both vectors alone or re-derives both from the angles, so
    once in step with the angles they stay in step, and the two stay
    perpendicular. */
module Orientation {
  import opened Vectors
  import opened FreeLook

  /** Recomputing twice is the same as recomputing once. */
  lemma UpdateIdempotent(lib: MathLib, c: Camera)
    ensures Update(lib, Update(lib, c)) == Update(lib, c)
  {
  }

  /** The recompute reads nothing but the angles: cameras with the same
      angles get the same target and up. */
  lemma UpdateReadsOnlyAngles(lib: MathLib, c: Camera, d: Camera)
    requires c.angleH == d.angleH && c.angleV == d.angleV
    ensures Update(lib, c).target == Update(lib, d).target
    ensures Update(lib, c).up == Update(lib, d).up
  {
  }

  /** A mouse event always leaves target/up in step with the angles; a tick
      or a key keeps them in step if they were. */
  lemma StepInSync(lib: MathLib, c: Camera, e: Event)
    requires InSync(lib, c) || e.Mouse?
    ensures InSync(lib, Step(lib, c, e))
  {
  }

  lemma {:induction false} RunInSync(lib: MathLib, c: Camera, events: seq<Event>)
    requires InSync(lib, c)
    ensures InSync(lib, Run(lib, c, events))
    decreases |events|
  {
    if |events| > 0 {
      StepInSync(lib, c, events[0]);
      RunInSync(lib, Step(lib, c, events[0]), events[1..]);
    }
  }

  predicate Perpendicular(c: Camera) {
    Dot(c.target, c.up) == 0.0
  }

  lemma StepPerpendicular(lib: MathLib, c: Camera, e: Event)
    requires Perpendicular(c) || e.Mouse?
    ensures Perpendicular(Step(lib, c, e))
  {
  }

  /** Target and up stay perpendicular through any sequence of events that
      starts from the default camera or from a perpendicular pose. */
  lemma {:induction false} RunPerpendicular(lib: MathLib, c: Camera, events: seq<Event>)
    requires Perpendicular(c)
    ensures Perpendicular(Run(lib, c, events))
    decreases |events|
  {
    if |events| > 0 {
      StepPerpendicular(lib, c, events[0]);
      RunPerpendicular(lib, Step(lib, c, events[0]), events[1..]);
    }
  }

  lemma DefaultCameraStaysPerpendicular(lib: MathLib, width: int, height: int,
                                        angleH: real, angleV: real, events: seq<Event>)
    ensures Perpendicular(Run(lib, NewDefaultCamera(lib, width, height, angleH, angleV), events))
  {
    RunPerpendicular(lib, NewDefaultCamera(lib, width, height, angleH, angleV), events);
  }
}
