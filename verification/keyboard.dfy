/** Round trips of the keyboard handler in exact arithmetic. */
module KeyboardProperties {
  import opened Vectors
  import opened FreeLook

  /** A step forward followed by a step back returns to the start, and the
      other way round. */
  lemma ForwardBackRestores(lib: MathLib, c: Camera)
    ensures OnKeyboard(lib, OnKeyboard(lib, c, KeyUp).camera, KeyDown).camera == c
    ensures OnKeyboard(lib, OnKeyboard(lib, c, KeyDown).camera, KeyUp).camera == c
  {
  }

  /** A strafe left followed by a strafe right, or right then left, returns to the start, provided
      the length function measures the sideways vector and its negation
      alike (as the Euclidean length does). */
  lemma StrafeLeftRightRestores(lib: MathLib, c: Camera)
    requires lib.length(Neg(Cross(c.target, c.up))) == lib.length(Cross(c.target, c.up))
    ensures OnKeyboard(lib, OnKeyboard(lib, c, KeyLeft).camera, KeyRight).camera == c
    ensures OnKeyboard(lib, OnKeyboard(lib, c, KeyRight).camera, KeyLeft).camera == c
  {
    var side := Cross(c.target, c.up);
    CrossAntiCommutes(c.target, c.up);
    NormalizeNeg(side, lib);
  }

  /** Starting from the default camera with a unit-length target, one step
      forward moves the camera to (0, 0, 0.1). */
  lemma ForwardFromDefault(lib: MathLib, width: int, height: int, angleH: real, angleV: real)
    requires lib.length(Vec3(0.0, 0.0, 1.0)) == 1.0
    ensures OnKeyboard(lib, NewDefaultCamera(lib, width, height, angleH, angleV), KeyUp).camera.pos
            == Vec3(0.0, 0.0, 0.1)
  {
    assert Normalize(Vec3(0.0, 0.0, 1.0), lib) == Vec3(0.0, 0.0, 1.0);
  }
}
