# Free-look camera: edge-scroll state machine and angle bookkeeping

A Dafny model of the free-look `Camera` of `tut15/camera.cpp`. The camera keeps a
position, a target/up pair, two angles in degrees (horizontal and vertical), the
last cursor position in pixels, and four edge flags (left, right, upper, lower).
Three handlers drive it:

- the **keyboard handler** moves the position one step along the target (up/down
  arrows) or sideways (left/right arrows) and reports whether the key was one of
  the four;
- the **mouse handler** turns both angles by the cursor motion divided by 20,
  stores the new cursor, and updates the edge flags: motion along an axis clears
  both flags of that axis; a still cursor at or below 10 pixels raises the near
  (left/upper) flag, or else one at or past the window size minus 10 raises the
  far (right/lower) flag, so the near edge wins in a narrow window; otherwise the
  flags are kept;
- the **per-frame tick** turns 0.1 degree towards a flagged edge on each axis
  (left wins over right and upper wins over lower: when both flags of an axis are
  set only the first turns; vertical turning stops at ±90) and recomputes the
  orientation only when an angle moved.

The mouse handler always ends in the orientation recompute and the tick only when
an angle moved; the keyboard handler never recomputes. The recompute derives
target and up from the angle pair alone.

The model is functional: `FreeLook.Camera` is an immutable record and every
handler is a pure function returning the next camera (plus the handler's boolean
where there is one). Pixels are unbounded `int`s; angles and positions are exact
`real`s, so `0.1f` and `20.0f` are the exact values 0.1 and 20.

The central result is that **no axis ever has both of its edge flags set**. The
mouse handler does not enforce this locally (a still cursor away from the edges
keeps whatever flags it had, `EdgeScroll.LocalStepKeepsClash`); it holds because
every reachable camera satisfies `EdgeScroll.EdgeInvariant`: a left flag implies
the stored x is at most the margin, a right flag implies it is past the margin
and within the margin of the right edge (and likewise vertically). The invariant
holds at construction, is kept by every event, and so holds after any event
sequence (`EdgeScroll.ReachableExclusive`, `EdgeScroll.ConstructedExclusive`). On reachable cameras, keeping the flags
in the no-threshold branch turns out to be the same as recomputing them from
scratch (`EdgeScroll.MouseFlagsFromScratch`).

Files:

- `vectors.dfy` (`Vectors`): exact-real 3D vectors; length and rotation are
  parameters bundled in `MathLib`.
- `camera.dfy` (`FreeLook`): the state, the two constructors, the three handlers,
  the recompute, and `Run` over an event sequence.
- `edge_invariant.dfy` (`EdgeScroll`): the reachable-state invariant and flag
  exclusivity.
- `ticks.dfy` (`TickProperties`): repeated ticks.
- `orientation.dfy` (`Orientation`): target/up stay in step with the angles and
  perpendicular.
- `keyboard.dfy` (`KeyboardProperties`): keyboard round trips.
- `scenarios.dfy` (`Scenarios`): concrete walk-throughs on an 800x600 window.

The vector header the program includes is not part of this model. Add, scale,
dot and cross product are written out with their usual formulas. The square root
behind `Normalize` and the axis-angle `Rotate` are the `length` and `rotate`
fields of a `MathLib` value passed to every handler. Every property holds
whatever functions are supplied there, except four lemmas that assume something
about `length`: `KeyboardProperties.StrafeLeftRightRestores` and
`Vectors.NormalizeNeg` assume it measures a vector and its negation alike,
`KeyboardProperties.ForwardFromDefault` assumes (0,0,1) has length 1, and
`Vectors.NormalizeUnit` assumes it is the Euclidean length.

## Model

| member | source | states |
|---|---|---|
| FreeLook.HalfTowardZero | tut15/camera.cpp:90-91 | the cursor centre is the window size halved with C++ integer division, truncating toward zero, characterised by the remainder `n - 2r` lying in [0, 1] for `n >= 0` and in [-1, 0] for `n < 0` |
| FreeLook.NewCamera | tut15/camera.cpp:39-52 | the explicit-pose constructor: all four edge flags clear, cursor at the truncated centre, size/position/angles as given, and target and up each stored as the given vector divided by its length |
| FreeLook.NewDefaultCamera | tut15/camera.cpp:26-36 | the default constructor: flags clear, cursor at the centre, size and angles as given, position at the origin, target (0,0,1) divided by its length, up exactly (0,1,0) (not normalized), target perpendicular to up |
| FreeLook.HorizontalAxis | tut15/camera.cpp:228-229 | the horizontal rotation axis of the recompute has a zero vertical component, whatever the view vector and length function |
| FreeLook.Orient | tut15/camera.cpp:220-236 | the up vector the recompute derives is perpendicular to the derived target, for any rotation and length primitives |
| FreeLook.Update | tut15/camera.cpp:218-237 | the recompute brings target/up in step with the angle pair, makes them perpendicular, and changes nothing else |
| FreeLook.OnKeyboard | tut15/camera.cpp:97-139 | reports true exactly for the four arrow keys; any other key leaves the camera unchanged; no key changes anything but the position; up adds target*0.1 and down subtracts it |
| FreeLook.AxisEdges | tut15/camera.cpp:154-180 | per axis: motion clears both flags; a still cursor at or below the margin raises the near flag and keeps the far one; past the margin and within it of the far edge it raises the far flag and keeps the near one; elsewhere both flags are kept |
| FreeLook.OnMouse | tut15/camera.cpp:142-183 | stores (x, y) as the cursor, adds (x - old x)/20 and (y - old y)/20 to the angles with no clamping, updates each axis's flags from that axis alone, keeps size and position, and leaves target/up in step with the new angles |
| FreeLook.NudgeH | tut15/camera.cpp:191-198 | the tick's horizontal turn: -0.1 when the left flag is set (the right flag is then ignored), +0.1 when only the right flag is set, none otherwise, with no bound |
| FreeLook.NudgeV | tut15/camera.cpp:200-211 | the tick's vertical turn: with the upper flag, -0.1 while above -90 and none at or below; with only the lower flag, +0.1 while below 90 and none at or above; none with neither flag |
| FreeLook.OnRender | tut15/camera.cpp:186-216 | the angles move by the NudgeH/NudgeV rule (left wins over right, upper over lower, vertical guarded at ±90); the tick recomputes exactly when an angle moved; when it does not, the camera is returned unchanged; flags, cursor, position and size never change |
| EdgeScroll.NewCameraInvariant | tut15/camera.cpp:85-88 | both constructors start in the edge invariant |
| EdgeScroll.StepInvariant | tut15/camera.cpp:154-180 | every event (mouse, tick, key) keeps the edge invariant |
| EdgeScroll.RunInvariant | tut15/camera.cpp:154-180 | the edge invariant survives any sequence of events, by induction on the sequence |
| EdgeScroll.ReachableExclusive | tut15/camera.cpp:154-180 | from any camera with all four flags clear, after any event sequence, left and right are never both set and neither are upper and lower |
| EdgeScroll.ConstructedExclusive | tut15/camera.cpp:85-88 | from either constructor, after any event sequence, left and right are never both set and neither are upper and lower |
| EdgeScroll.MouseFlagsFromScratch | tut15/camera.cpp:154-180 | on a reachable camera, after a mouse event each flag is set exactly when the cursor did not move on that axis and sits at that edge |
| EdgeScroll.AxesIndependent | tut15/camera.cpp:144-167 | the horizontal flags and horizontal turn after a mouse event depend only on the horizontal cursor, width and flags, not on y or the vertical state |
| EdgeScroll.AxesIndependentVertical | tut15/camera.cpp:169-180 | the vertical flags and vertical turn after a mouse event depend only on the vertical cursor, height and flags, not on x or the horizontal state |
| EdgeScroll.LocalStepKeepsClash | tut15/camera.cpp:154-163 | exclusivity is not enforced locally: an unreachable camera with both horizontal flags keeps both on a still mouse event |
| TickProperties.IdleTick | tut15/camera.cpp:189-215 | with no flag set a tick returns the camera unchanged and does not recompute |
| TickProperties.IdleTicks | tut15/camera.cpp:186-216 | any number of ticks with no flag set leave the camera exactly as it was |
| TickProperties.TicksKeepInputs | tut15/camera.cpp:186-216 | ticks never change the flags, cursor, position or window size |
| TickProperties.HeldHorizontalEdge | tut15/camera.cpp:191-198 | after n ticks the horizontal angle has moved by exactly -0.1n with the left flag, +0.1n with only the right flag, and not at all otherwise |
| TickProperties.TicksStayInPoleBand | tut15/camera.cpp:200-211 | a vertical angle that starts inside (-90.1, 90.1) stays inside it under any number of ticks |
| TickProperties.PinnedAtPole | tut15/camera.cpp:200-211 | at or past the pole in the held direction, any number of ticks leave the vertical angle where it is |
| TickProperties.MouseCrossesPole | tut15/camera.cpp:152 | the mouse path has no pole limit: 20 pixels down from 90 degrees gives 91 |
| Orientation.UpdateIdempotent | tut15/camera.cpp:218-237 | recomputing twice equals recomputing once |
| Orientation.UpdateReadsOnlyAngles | tut15/camera.cpp:218-237 | cameras with equal angles get equal target and up from the recompute |
| Orientation.StepInSync | tut15/camera.cpp:182 | a mouse event always leaves target/up in step with the angles; ticks and keys keep them in step |
| Orientation.RunInSync | tut15/camera.cpp:182-215 | once in step with the angles, target/up stay in step through any event sequence |
| Orientation.StepPerpendicular | tut15/camera.cpp:235-236 | a mouse event makes target and up perpendicular; ticks and keys keep them so |
| Orientation.RunPerpendicular | tut15/camera.cpp:235-236 | perpendicular target and up stay perpendicular through any event sequence |
| Orientation.DefaultCameraStaysPerpendicular | tut15/camera.cpp:30-33 | from the default camera, target and up are perpendicular after any event sequence |
| KeyboardProperties.ForwardBackRestores | tut15/camera.cpp:103-115 | a step forward then back, or back then forward, restores the camera exactly |
| KeyboardProperties.StrafeLeftRightRestores | tut15/camera.cpp:117-135 | a strafe left then right, or right then left, restores the camera, given a length that measures a vector and its negation alike |
| KeyboardProperties.ForwardFromDefault | tut15/camera.cpp:103-107 | from the default camera with unit-length target, one step forward reaches (0, 0, 0.1) |
| Scenarios.MouseDeltaTurnsOneDegree | tut15/camera.cpp:144-167 | 20 pixels of horizontal motion turn exactly one degree and clear both horizontal flags |
| Scenarios.LeftEdgePin | tut15/camera.cpp:154-198 | resting at x = 5 raises the left flag on the second event and the next tick turns 0.1 left with a recompute |
| Scenarios.CornerPin | tut15/camera.cpp:154-176 | resting at the bottom-right corner raises exactly the right and lower flags |
| Scenarios.LowerEdgeAtPole | tut15/camera.cpp:206-211 | at exactly 90 degrees with the lower flag a tick changes nothing and does not recompute |
| Scenarios.LowerEdgeOvershoot | tut15/camera.cpp:206-211 | at 89.95 degrees with the lower flag the tick still turns, to 90.05 |

## Left out

- Angle derivation from the initial target (tut15/camera.cpp:57-83): it is quadrant-branching arcsine math; both constructors take the initial angles as parameters.
- The square root and the axis-angle rotation of the vector header: they are the `length` and `rotate` parameters of `MathLib`. Unit length of the recomputed target and up is therefore not claimed; `Vectors.NormalizeUnit` only shows that normalizing with a true Euclidean length gives unit length.
- Normalizing a zero-length vector: floating point yields NaN; the model returns the vector unchanged.
- Float rounding of 0.1 and 20, and the 3.14 value of `M_PI` (used only by the left-out angle derivation): the model works over exact reals.
- 32-bit `int` overflow in the cursor delta and the margin subtraction (undefined behaviour in C++): pixels are unbounded integers.
- `glutWarpPointer` at the end of initialization: a windowing side effect with no state of its own.
- GLUT key codes: keys are the four arrow keys plus `OtherKey(code)`.
- FreeLook.NewCamera: states that target and up are the given vectors divided by their length, not that they have unit length, because the length function is a parameter.
- The order in which the host interleaves events is free: `Run` accepts any sequence, which covers every interleaving.
