/** Three-component vectors over the reals (the model's stand-in for glm::vec3)
    and the floating-point library functions the camera code calls.

    Normalisation, length and the trigonometric functions are not computed
    here: a `FloatMath` value carries them as plain function values, and
    the predicates below state the facts about them that the proofs rely
    on. */
module Geometry {

  datatype Vec3 = Vec3(x: real, y: real, z: real)

  const Zero := Vec3(0.0, 0.0, 0.0)

  /** glm::vec3(s): all three components equal to s. */
  function Splat(s: real): Vec3 {
    Vec3(s, s, s)
  }

  function Add(a: Vec3, b: Vec3): Vec3 {
    Vec3(a.x + b.x, a.y + b.y, a.z + b.z)
  }

  function Sub(a: Vec3, b: Vec3): Vec3 {
    Vec3(a.x - b.x, a.y - b.y, a.z - b.z)
  }

  function Scale(k: real, a: Vec3): Vec3 {
    Vec3(k * a.x, k * a.y, k * a.z)
  }

  function Dot(a: Vec3, b: Vec3): real {
    a.x * b.x + a.y * b.y + a.z * b.z
  }

  function Cross(a: Vec3, b: Vec3): Vec3 {
    Vec3(a.y * b.z - a.z * b.y, a.z * b.x - a.x * b.z, a.x * b.y - a.y * b.x)
  }

  /** Float division where the divisor may be zero. In float arithmetic the
      quotient is then an infinity or NaN; the model yields 0. */
  function Quot(a: real, b: real): real {
    if b == 0.0 then 0.0 else a / b
  }

  predicate IsUnit(u: Vec3) {
    Dot(u, u) == 1.0
  }

  /** u points the same way as v: it is a positive multiple of v. */
  ghost predicate SameDirection(u: Vec3, v: Vec3) {
    exists k: real :: k > 0.0 && u == Scale(k, v)
  }

  /** glm::normalize, glm::length and the C library's tan, sin, cos, asin
      and atan2 (the last five in radians). */
  datatype FloatMath = FloatMath(
    normalize: Vec3 -> Vec3,
    length: Vec3 -> real,
    tan: real -> real,
    sin: real -> real,
    cos: real -> real,
    asin: real -> real,
    atan2: (real, real) -> real)

  /** The real-arithmetic behaviour of the library that the proofs assume,
      each stated at the one argument where a proof uses it: normalising a
      non-zero vector gives a unit vector that points its way, a unit
      vector normalises to itself, and sin^2 + cos^2 = 1. */
  ghost predicate NormalizesAt(m: FloatMath, v: Vec3) {
    v != Zero ==> IsUnit(m.normalize(v)) && SameDirection(m.normalize(v), v)
  }

  predicate FixesUnitAt(m: FloatMath, u: Vec3) {
    IsUnit(u) ==> m.normalize(u) == u
  }

  predicate PythagoreanAt(m: FloatMath, t: real) {
    m.sin(t) * m.sin(t) + m.cos(t) * m.cos(t) == 1.0
  }

  lemma DotScaleLeft(k: real, a: Vec3, b: Vec3)
    ensures Dot(Scale(k, a), b) == k * Dot(a, b)
  {
  }

  lemma DotScaleBoth(k: real, a: Vec3, j: real, b: Vec3)
    ensures Dot(Scale(k, a), Scale(j, b)) == (k * j) * Dot(a, b)
  {
    calc {
      Dot(Scale(k, a), Scale(j, b));
      (k * a.x) * (j * b.x) + (k * a.y) * (j * b.y) + (k * a.z) * (j * b.z);
      (k * j) * (a.x * b.x) + (k * j) * (a.y * b.y) + (k * j) * (a.z * b.z);
    }
  }

  /** A cross product is orthogonal to both of its factors. */
  lemma CrossOrthogonal(a: Vec3, b: Vec3)
    ensures Dot(Cross(a, b), a) == 0.0 && Dot(Cross(a, b), b) == 0.0
  {
  }

  /** A positive multiple of a vector orthogonal to w is orthogonal to w. */
  lemma SameDirectionOrthogonal(u: Vec3, v: Vec3, w: Vec3)
    requires SameDirection(u, v)
    requires Dot(v, w) == 0.0
    ensures Dot(u, w) == 0.0
  {
    var k: real :| k > 0.0 && u == Scale(k, v);
    DotScaleLeft(k, v, w);
  }
}
