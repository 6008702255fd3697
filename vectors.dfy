/** Three-component vectors standing in for glm::vec3, with real components
    in place of 32-bit floats. Square roots (glm::length, glm::normalize) are
    not defined here: a caller that needs a normalized vector supplies it, and
    IsUnitAlong states what makes it the normalization of a given vector. */
module Vectors {

  datatype Vec3 = Vec3(x: real, y: real, z: real)

  const Zero: Vec3 := Vec3(0.0, 0.0, 0.0)

  function Add(a: Vec3, b: Vec3): Vec3 {
    Vec3(a.x + b.x, a.y + b.y, a.z + b.z)
  }

  function Sub(a: Vec3, b: Vec3): Vec3 {
    Vec3(a.x - b.x, a.y - b.y, a.z - b.z)
  }

  function Scale(a: Vec3, k: real): Vec3 {
    Vec3(a.x * k, a.y * k, a.z * k)
  }

  function Neg(a: Vec3): Vec3 {
    Vec3(-a.x, -a.y, -a.z)
  }

  function Dot(a: Vec3, b: Vec3): real {
    a.x * b.x + a.y * b.y + a.z * b.z
  }

  function Cross(a: Vec3, b: Vec3): Vec3 {
    Vec3(a.y * b.z - a.z * b.y, a.z * b.x - a.x * b.z, a.x * b.y - a.y * b.x)
  }

  /** The square of glm::length; `length(v) < c` is `LengthSq(v) < c*c` for c >= 0. */
  function LengthSq(a: Vec3): real {
    Dot(a, a)
  }

  /** n is glm::normalize(d): a unit vector pointing the same way as d.
      Over the reals these three facts determine n uniquely when d != 0. */
  predicate IsUnitAlong(n: Vec3, d: Vec3) {
    LengthSq(n) == 1.0 && Cross(n, d) == Zero && Dot(n, d) > 0.0
  }

  /** A unit vector is its own normalization (normalize(n) == n). */
  lemma UnitIsOwnDirection(n: Vec3)
    requires LengthSq(n) == 1.0
    ensures IsUnitAlong(n, n)
  {
  }

  /** Normalizing k*n for a unit n and k > 0 gives n back. */
  lemma UnitAlongScaled(n: Vec3, k: real)
    requires LengthSq(n) == 1.0 && k > 0.0
    ensures IsUnitAlong(n, Scale(n, k))
  {
    assert Dot(n, Scale(n, k)) == k * LengthSq(n);
  }

  /** What the mesh builders need of cosf and sinf: they lie on the unit
      circle. */
  ghost predicate IsUnitCircle(cos: real -> real, sin: real -> real) {
    forall a :: cos(a) * cos(a) + sin(a) * sin(a) == 1.0
  }

  /** Scaling by k scales the squared length by k*k. */
  lemma ScaledLengthSq(v: Vec3, k: real)
    ensures LengthSq(Scale(v, k)) == k * k * LengthSq(v)
  {
    assert (k * v.x) * (k * v.x) == k * k * (v.x * v.x);
    assert (k * v.y) * (k * v.y) == k * k * (v.y * v.y);
    assert (k * v.z) * (k * v.z) == k * k * (v.z * v.z);
  }
}
