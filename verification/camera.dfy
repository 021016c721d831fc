/** The free-look camera: its state, its constructors and its three event
    handlers (keyboard, mouse, per-frame tick), together with the orientation
    recompute that the mouse handler always runs, the tick runs when an angle
    moved, and the keyboard handler never runs.

    Pixels are unbounded integers, angles (in degrees) and positions are exact
    reals; the constants 0.1 and 20 are taken as the exact reals they denote.
 */
module FreeLook {
  import opened Vectors

  /** Distance moved by one keyboard step. */
  const StepScale: real := 0.1
  /** Width in pixels of the border where edge-scrolling starts. */
  const Margin: int := 10
  /** Pixels of mouse motion per degree of rotation. */
  const MouseDivisor: real := 20.0
  /** Degrees turned per frame while the cursor rests on an edge. */
  const EdgeStep: real := 0.1
  /** The edge tick stops turning vertically at this many degrees up or down. */
  const PoleLimit: real := 90.0

  /** The four movement keys; every other key code is `OtherKey`. */
  datatype Key = KeyUp | KeyDown | KeyLeft | KeyRight | OtherKey(code: int)

  datatype Camera = Camera(
    width: int, height: int,
    pos: Vec3, target: Vec3, up: Vec3,
    angleH: real, angleV: real,
    mouseX: int, mouseY: int,
    onUpperEdge: bool, onLowerEdge: bool, onLeftEdge: bool, onRightEdge: bool)

  /** The (target, up) pair the recompute derives from the two angles. */
  datatype Frame = Frame(target: Vec3, up: Vec3)

  datatype KeyOutcome = KeyOutcome(camera: Camera, handled: bool)

  datatype TickOutcome = TickOutcome(camera: Camera, recomputed: bool)

  /** C++ `int / 2`: division truncating toward zero, also for negative `n`. */
  function HalfTowardZero(n: int): (r: int)
    ensures n >= 0 ==> 0 <= n - 2 * r <= 1
    ensures n < 0 ==> -1 <= n - 2 * r <= 0
  {
    if n >= 0 then n / 2 else -((-n) / 2)
  }

  predicate NoEdge(c: Camera) {
    !c.onUpperEdge && !c.onLowerEdge && !c.onLeftEdge && !c.onRightEdge
  }

  /** Camera with an explicit pose. The initial angles, which the program
      derives from the target with arcsines, are supplied by the caller. All
      edge flags start clear and the cursor starts at the window centre. */
  function NewCamera(lib: MathLib, width: int, height: int, pos: Vec3, target: Vec3, up: Vec3,
                     angleH: real, angleV: real): (c: Camera)
    ensures NoEdge(c)
    ensures c.mouseX == HalfTowardZero(width) && c.mouseY == HalfTowardZero(height)
    ensures c.width == width && c.height == height && c.pos == pos
    ensures c.angleH == angleH && c.angleV == angleV
    ensures lib.length(target) != 0.0 ==> Scale(c.target, lib.length(target)) == target
    ensures lib.length(up) != 0.0 ==> Scale(c.up, lib.length(up)) == up
  {
    Camera(width, height, pos, Normalize(target, lib), Normalize(up, lib), angleH, angleV,
           HalfTowardZero(width), HalfTowardZero(height), false, false, false, false)
  }

  /** Camera at the origin looking along +Z with +Y up. Only the target is
      normalized; the up vector is stored as given. */
  function NewDefaultCamera(lib: MathLib, width: int, height: int, angleH: real, angleV: real): (c: Camera)
    ensures NoEdge(c)
    ensures c.mouseX == HalfTowardZero(width) && c.mouseY == HalfTowardZero(height)
    ensures c.width == width && c.height == height && c.angleH == angleH && c.angleV == angleV
    ensures c.pos == Zero && c.up == Vec3(0.0, 1.0, 0.0)
    ensures c.target.x == 0.0 && c.target.y == 0.0
    ensures lib.length(Vec3(0.0, 0.0, 1.0)) != 0.0 ==>
              Scale(c.target, lib.length(Vec3(0.0, 0.0, 1.0))) == Vec3(0.0, 0.0, 1.0)
    ensures Dot(c.target, c.up) == 0.0
  {
    var t := Normalize(Vec3(0.0, 0.0, 1.0), lib);
    Camera(width, height, Zero, t, Vec3(0.0, 1.0, 0.0), angleH, angleV,
           HalfTowardZero(width), HalfTowardZero(height), false, false, false, false)
  }

  /** The horizontal axis of the recompute: the vertical axis crossed with the
      view direction turned by `angleH`. It always lies in the horizontal plane. */
  function HorizontalAxis(lib: MathLib, view: Vec3): (a: Vec3)
    ensures a.y == 0.0
  {
    Normalize(Cross(Vec3(0.0, 1.0, 0.0), view), lib)
  }

  /** Orientation recompute: turn +X by `angleH` about the vertical axis, then
      by `angleV` about the resulting horizontal axis; up is target x axis.
      Whatever length and rotation the math library supplies, the derived up
      vector is perpendicular to the derived target. */
  function Orient(lib: MathLib, angleH: real, angleV: real): (f: Frame)
    ensures Dot(f.target, f.up) == 0.0
  {
    var vaxis := Vec3(0.0, 1.0, 0.0);
    var view := Normalize(lib.rotate(Vec3(1.0, 0.0, 0.0), angleH, vaxis), lib);
    var haxis := HorizontalAxis(lib, view);
    var turned := lib.rotate(view, angleV, haxis);
    var target := Normalize(turned, lib);
    var upRaw := Cross(target, haxis);
    NormalizeKeepsPerpendicular(target, upRaw, lib);
    Frame(target, Normalize(upRaw, lib))
  }

  /** True when the cached target/up are the ones the angles determine. */
  predicate InSync(lib: MathLib, c: Camera) {
    Orient(lib, c.angleH, c.angleV) == Frame(c.target, c.up)
  }

  /** Re-derives target and up from the angle pair and nothing else. */
  function Update(lib: MathLib, c: Camera): (r: Camera)
    ensures InSync(lib, r)
    ensures Dot(r.target, r.up) == 0.0
    ensures r.(target := c.target, up := c.up) == c
  {
    var f := Orient(lib, c.angleH, c.angleV);
    c.(target := f.target, up := f.up)
  }

  /** Keyboard handler: the four arrow keys move the camera by one step
      (forward/back along the target, sideways along the normalized cross
      product of target and up) and report true; any other key is ignored
      and reported false. Nothing but the position ever changes. */
  function OnKeyboard(lib: MathLib, c: Camera, key: Key): (r: KeyOutcome)
    ensures r.handled <==> !key.OtherKey?
    ensures r.camera == c.(pos := r.camera.pos)
    ensures !r.handled ==> r.camera == c
    ensures key == KeyUp ==> r.camera.pos == Add(c.pos, Scale(c.target, StepScale))
    ensures key == KeyDown ==> r.camera.pos == Sub(c.pos, Scale(c.target, StepScale))
  {
    match key
    case KeyUp =>
      KeyOutcome(c.(pos := Add(c.pos, Scale(c.target, StepScale))), true)
    case KeyDown =>
      KeyOutcome(c.(pos := Sub(c.pos, Scale(c.target, StepScale))), true)
    case KeyLeft =>
      var left := Scale(Normalize(Cross(c.target, c.up), lib), StepScale);
      KeyOutcome(c.(pos := Add(c.pos, left)), true)
    case KeyRight =>
      var right := Scale(Normalize(Cross(c.up, c.target), lib), StepScale);
      KeyOutcome(c.(pos := Add(c.pos, right)), true)
    case OtherKey(_) =>
      KeyOutcome(c, false)
  }

  /** The edge-flag update of one axis after a mouse event. `delta` is the
      motion along the axis, `coord` the new cursor coordinate and `extent`
      the window size along the axis; `low`/`high` are the current flags for
      the near (left/upper) and far (right/lower) edge. Any motion clears both
      flags; a still cursor near an edge sets that edge's flag, the near edge
      taking precedence; otherwise the flags are kept as they are. */
  function AxisEdges(delta: int, coord: int, extent: int, low: bool, high: bool): (r: (bool, bool))
    ensures delta != 0 ==> !r.0 && !r.1
    ensures delta == 0 && coord <= Margin ==> r.0 && r.1 == high
    ensures delta == 0 && Margin < coord && coord >= extent - Margin ==> r.1 && r.0 == low
    ensures delta == 0 && Margin < coord < extent - Margin ==> r == (low, high)
  {
    if delta == 0 then
      if coord <= Margin then (true, high)
      else if coord >= extent - Margin then (low, true)
      else (low, high)
    else (false, false)
  }

  /** Mouse handler: store the new cursor, turn each angle by the motion along
      its axis divided by 20 (no clamping), update the edge flags of each axis
      from that axis alone, then recompute the orientation. */
  function OnMouse(lib: MathLib, c: Camera, x: int, y: int): (r: Camera)
    ensures r.mouseX == x && r.mouseY == y
    ensures r.angleH == c.angleH + (x - c.mouseX) as real / MouseDivisor
    ensures r.angleV == c.angleV + (y - c.mouseY) as real / MouseDivisor
    ensures (r.onLeftEdge, r.onRightEdge) == AxisEdges(x - c.mouseX, x, c.width, c.onLeftEdge, c.onRightEdge)
    ensures (r.onUpperEdge, r.onLowerEdge) == AxisEdges(y - c.mouseY, y, c.height, c.onUpperEdge, c.onLowerEdge)
    ensures r.width == c.width && r.height == c.height && r.pos == c.pos
    ensures InSync(lib, r)
  {
    var dx := x - c.mouseX;
    var dy := y - c.mouseY;
    var (left, right) := AxisEdges(dx, x, c.width, c.onLeftEdge, c.onRightEdge);
    var (upper, lower) := AxisEdges(dy, y, c.height, c.onUpperEdge, c.onLowerEdge);
    var moved := c.(mouseX := x, mouseY := y,
                    angleH := c.angleH + dx as real / MouseDivisor,
                    angleV := c.angleV + dy as real / MouseDivisor,
                    onLeftEdge := left, onRightEdge := right,
                    onUpperEdge := upper, onLowerEdge := lower);
    Update(lib, moved)
  }

  /** The horizontal nudge of one tick: left wins over right, unbounded. */
  function NudgeH(c: Camera): (a: real)
    ensures c.onLeftEdge ==> a == c.angleH - EdgeStep
    ensures !c.onLeftEdge && c.onRightEdge ==> a == c.angleH + EdgeStep
    ensures !c.onLeftEdge && !c.onRightEdge ==> a == c.angleH
  {
    if c.onLeftEdge then c.angleH - EdgeStep
    else if c.onRightEdge then c.angleH + EdgeStep
    else c.angleH
  }

  /** The vertical nudge of one tick: upper wins over lower, and neither turns
      past the pole limit. */
  function NudgeV(c: Camera): (a: real)
    ensures c.onUpperEdge && c.angleV > -PoleLimit ==> a == c.angleV - EdgeStep
    ensures !c.onUpperEdge && c.onLowerEdge && c.angleV < PoleLimit ==> a == c.angleV + EdgeStep
    ensures c.onUpperEdge && c.angleV <= -PoleLimit ==> a == c.angleV
    ensures !c.onUpperEdge && c.onLowerEdge && c.angleV >= PoleLimit ==> a == c.angleV
    ensures !c.onUpperEdge && !c.onLowerEdge ==> a == c.angleV
  {
    if c.onUpperEdge then
      if c.angleV > -PoleLimit then c.angleV - EdgeStep else c.angleV
    else if c.onLowerEdge then
      if c.angleV < PoleLimit then c.angleV + EdgeStep else c.angleV
    else c.angleV
  }

  /** Per-frame tick: nudge the angles of the flagged edges and recompute the
      orientation exactly when some angle moved. Flags, cursor, position and
      window size are left alone. */
  function OnRender(lib: MathLib, c: Camera): (r: TickOutcome)
    ensures r.recomputed <==> (r.camera.angleH != c.angleH || r.camera.angleV != c.angleV)
    ensures r.recomputed ==> InSync(lib, r.camera)
    ensures !r.recomputed ==> r.camera == c
    ensures r.camera.angleH == NudgeH(c) && r.camera.angleV == NudgeV(c)
    ensures r.camera.(target := c.target, up := c.up, angleH := c.angleH, angleV := c.angleV) == c
  {
    var h := NudgeH(c);
    var v := NudgeV(c);
    var shouldUpdate :=
      c.onLeftEdge || c.onRightEdge
      || (c.onUpperEdge && c.angleV > -PoleLimit)
      || (!c.onUpperEdge && c.onLowerEdge && c.angleV < PoleLimit);
    var nudged := c.(angleH := h, angleV := v);
    if shouldUpdate then TickOutcome(Update(lib, nudged), true)
    else TickOutcome(nudged, false)
  }

  /** One input delivered by the host loop. */
  datatype Event = Mouse(x: int, y: int) | Render | Keyboard(key: Key)

  function Step(lib: MathLib, c: Camera, e: Event): Camera {
    match e
    case Mouse(x, y) => OnMouse(lib, c, x, y)
    case Render => OnRender(lib, c).camera
    case Keyboard(k) => OnKeyboard(lib, c, k).camera
  }

  /** The camera after a sequence of events, delivered in order. */
  function Run(lib: MathLib, c: Camera, events: seq<Event>): Camera
    decreases |events|
  {
    if |events| == 0 then c else Run(lib, Step(lib, c, events[0]), events[1..])
  }
}
