/**
 * Real-valued stand-ins for the glm vector and matrix types the scene uses.
 *
 * Floats become exact reals. The transcendental helpers glm provides (square
 * root, sine, cosine, normalisation, and the value of pi) cannot be computed
 * exactly, so they are carried in a `Numerics` record that every operation
 * using them receives as a parameter; lemmas that need their true values ask
 * for exactness only at the points they use.
 */
module Vectors {

  datatype Vec3 = Vec3(x: real, y: real, z: real)

  const Zero: Vec3 := Vec3(0.0, 0.0, 0.0)

  function Add(a: Vec3, b: Vec3): Vec3 { Vec3(a.x + b.x, a.y + b.y, a.z + b.z) }

  function Sub(a: Vec3, b: Vec3): Vec3 { Vec3(a.x - b.x, a.y - b.y, a.z - b.z) }

  function Neg(a: Vec3): Vec3 { Vec3(-a.x, -a.y, -a.z) }

  function Scale(k: real, a: Vec3): Vec3 { Vec3(k * a.x, k * a.y, k * a.z) }

  function Dot(a: Vec3, b: Vec3): real { a.x * b.x + a.y * b.y + a.z * b.z }

  function Cross(a: Vec3, b: Vec3): Vec3 {
    Vec3(a.y * b.z - a.z * b.y, a.z * b.x - a.x * b.z, a.x * b.y - a.y * b.x)
  }

  function SqNorm(a: Vec3): real { Dot(a, a) }

  /** A homogeneous 4-vector: three coordinates and w. */
  datatype Vec4 = Vec4(xyz: Vec3, w: real)

  /** A 4x4 matrix stored column by column, as glm stores it. */
  datatype Mat4 = Mat4(c0: Vec4, c1: Vec4, c2: Vec4, c3: Vec4)

  /** The glm/cmath helpers that the model leaves uninterpreted. Angles are in radians. */
  datatype Numerics = Numerics(
    sqrt: real -> real,
    sin: real -> real,
    cos: real -> real,
    normalize: Vec3 -> Vec3,
    pi: real)

  /** glm::length */
  function Length(n: Numerics, v: Vec3): real { n.sqrt(SqNorm(v)) }

  /** glm::radians */
  function Radians(n: Numerics, degrees: real): real { degrees * n.pi / 180.0 }

  /** The horizontal facing (cos a, sin a, 0) for a heading of `degrees`. */
  function HeadingDirection(n: Numerics, degrees: real): Vec3 {
    Vec3(n.cos(Radians(n, degrees)), n.sin(Radians(n, degrees)), 0.0)
  }

  /** The square root helper is exact at `x`. */
  predicate SqrtExactAt(n: Numerics, x: real) {
    n.sqrt(x) >= 0.0 && n.sqrt(x) * n.sqrt(x) == x
  }

  /** Length and normalisation are exact at `v` (normalize of the zero vector stays unspecified). */
  predicate NormalizeExactAt(n: Numerics, v: Vec3) {
    && SqrtExactAt(n, SqNorm(v))
    && (0.0 < SqNorm(v) ==> n.normalize(v) == Scale(1.0 / Length(n, v), v))
  }

  lemma SqNormNonNegative(a: Vec3)
    ensures 0.0 <= SqNorm(a)
  {
    assert 0.0 <= a.x * a.x && 0.0 <= a.y * a.y && 0.0 <= a.z * a.z;
  }

  lemma SqNormScale(k: real, a: Vec3)
    ensures SqNorm(Scale(k, a)) == k * k * SqNorm(a)
  {
    assert (k * a.x) * (k * a.x) == k * k * (a.x * a.x);
    assert (k * a.y) * (k * a.y) == k * k * (a.y * a.y);
    assert (k * a.z) * (k * a.z) == k * k * (a.z * a.z);
  }

  /** A cross product is orthogonal to both of its factors. */
  lemma CrossOrthogonal(a: Vec3, b: Vec3)
    ensures Dot(Cross(a, b), a) == 0.0
    ensures Dot(Cross(a, b), b) == 0.0
  {
  }

  /** Scaling either factor scales a dot product. */
  lemma DotScale(k: real, a: Vec3, b: Vec3)
    ensures Dot(Scale(k, a), b) == k * Dot(a, b)
    ensures Dot(a, Scale(k, b)) == k * Dot(a, b)
  {
  }
}
