/** Exact-real 3D vectors and the few vector operations the camera uses.

    The vector header of the program is not part of this model. Addition,
    scaling, dot and cross product are written out with their textbook
    formulas; the two primitives that need transcendental math, the Euclidean
    length (a square root) and the axis-angle rotation, are parameters bundled
    in a `MathLib` value. Results hold for whatever the host supplies, except
    `NormalizeUnit`, which assumes a true Euclidean length, and `NormalizeNeg`,
    which assumes a length that measures a vector and its negation alike.
 */
module Vectors {

  datatype Vec3 = Vec3(x: real, y: real, z: real)

  const Zero := Vec3(0.0, 0.0, 0.0)

  function Add(a: Vec3, b: Vec3): Vec3 {
    Vec3(a.x + b.x, a.y + b.y, a.z + b.z)
  }

  function Sub(a: Vec3, b: Vec3): Vec3 {
    Vec3(a.x - b.x, a.y - b.y, a.z - b.z)
  }

  function Scale(v: Vec3, k: real): Vec3 {
    Vec3(v.x * k, v.y * k, v.z * k)
  }

  function Neg(v: Vec3): Vec3 {
    Vec3(-v.x, -v.y, -v.z)
  }

  function Dot(a: Vec3, b: Vec3): real {
    a.x * b.x + a.y * b.y + a.z * b.z
  }

  /** The cross product is perpendicular to both of its operands. */
  function Cross(a: Vec3, b: Vec3): (r: Vec3)
    ensures Dot(a, r) == 0.0 && Dot(b, r) == 0.0
  {
    Vec3(a.y * b.z - a.z * b.y, a.z * b.x - a.x * b.z, a.x * b.y - a.y * b.x)
  }

  /** The primitives the program takes from its math header:
      `length` stands for sqrt(x*x + y*y + z*z) and `rotate(v, degrees, axis)`
      for the axis-angle rotation of `v`. */
  datatype MathLib = MathLib(length: Vec3 -> real, rotate: (Vec3, real, Vec3) -> Vec3)

  /** A length function that really is the Euclidean norm. */
  predicate IsNorm(lib: MathLib, v: Vec3) {
    lib.length(v) >= 0.0 && lib.length(v) * lib.length(v) == Dot(v, v)
  }

  /** Divides every component by the length. A zero length, where floating
      point would produce NaN, leaves the vector as it is. */
  function Normalize(v: Vec3, lib: MathLib): (r: Vec3)
    ensures lib.length(v) == 0.0 ==> r == v
    ensures lib.length(v) != 0.0 ==> Scale(r, lib.length(v)) == v
  {
    var len := lib.length(v);
    if len == 0.0 then v else Scale(v, 1.0 / len)
  }

  lemma DotScale(a: Vec3, v: Vec3, k: real)
    ensures Dot(a, Scale(v, k)) == k * Dot(a, v)
  {
  }

  /** Normalizing never destroys perpendicularity. */
  lemma NormalizeKeepsPerpendicular(a: Vec3, v: Vec3, lib: MathLib)
    requires Dot(a, v) == 0.0
    ensures Dot(a, Normalize(v, lib)) == 0.0
  {
    var len := lib.length(v);
    if len != 0.0 {
      DotScale(a, v, 1.0 / len);
    }
  }

  /** With a true Euclidean length, a vector of positive length normalizes to unit length. */
  lemma NormalizeUnit(v: Vec3, lib: MathLib)
    requires IsNorm(lib, v)
    requires lib.length(v) > 0.0
    ensures Dot(Normalize(v, lib), Normalize(v, lib)) == 1.0
  {
  }

  /** Swapping the operands of a cross product negates it. */
  lemma CrossAntiCommutes(a: Vec3, b: Vec3)
    ensures Cross(b, a) == Neg(Cross(a, b))
  {
  }

  /** When the length treats `v` and `-v` alike, normalization commutes with negation. */
  lemma NormalizeNeg(v: Vec3, lib: MathLib)
    requires lib.length(Neg(v)) == lib.length(v)
    ensures Normalize(Neg(v), lib) == Neg(Normalize(v, lib))
  {
  }
}
