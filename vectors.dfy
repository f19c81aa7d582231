// Three-component vectors over exact reals, standing in for the course's
// `Vector3` helper (set, add, sub, mul, normalize, cross).  The library's
// square root cannot be defined over the reals here, so every operation that
// needs a length takes a `norm` function and is proved under `IsNorm(norm)`:
// the norm is non-negative and squares to the dot product.

module Vectors {

  datatype Vec3 = Vec3(x: real, y: real, z: real)

  const Zero: Vec3 := Vec3(0.0, 0.0, 0.0)

  /** `Math.PI`, as the double it is. */
  const Pi: real := 3.141592653589793

  function Add(a: Vec3, b: Vec3): Vec3 {
    Vec3(a.x + b.x, a.y + b.y, a.z + b.z)
  }

  function Sub(a: Vec3, b: Vec3): Vec3 {
    Vec3(a.x - b.x, a.y - b.y, a.z - b.z)
  }

  function Neg(a: Vec3): Vec3 {
    Vec3(-a.x, -a.y, -a.z)
  }

  /** `v.mul(k)`: every component multiplied by the scalar `k`. */
  function Scale(a: Vec3, k: real): Vec3 {
    Vec3(a.x * k, a.y * k, a.z * k)
  }

  function Dot(a: Vec3, b: Vec3): real {
    a.x * b.x + a.y * b.y + a.z * b.z
  }

  /** `Vector3.cross(a, b)`: the right-handed cross product. */
  function Cross(a: Vec3, b: Vec3): Vec3 {
    Vec3(a.y * b.z - a.z * b.y, a.z * b.x - a.x * b.z, a.x * b.y - a.y * b.x)
  }

  /** What a Euclidean length function must satisfy. */
  ghost predicate IsNorm(norm: Vec3 -> real) {
    forall v :: 0.0 <= norm(v) && norm(v) * norm(v) == Dot(v, v)
  }

  /**
   * `v.normalize()`: divide by the length.  The vector library is not part
   * of this model; leaving a zero-length vector as the zero vector is an
   * assumption about it.
   */
  function Normalize(norm: Vec3 -> real, v: Vec3): Vec3 {
    if norm(v) == 0.0 then Zero else Scale(v, 1.0 / norm(v))
  }

  lemma NormalizeByLength(norm: Vec3 -> real, v: Vec3, len: real)
    requires 0.0 < len && norm(v) == len
    ensures Normalize(norm, v) == Scale(v, 1.0 / len)
  {
  }

  lemma DotSelfZero(v: Vec3)
    ensures Dot(v, v) >= 0.0
    ensures Dot(v, v) == 0.0 <==> v == Zero
  {
    SquareNonNegative(v.x);
    SquareNonNegative(v.y);
    SquareNonNegative(v.z);
    if Dot(v, v) == 0.0 {
      SumZero(v.x * v.x, v.y * v.y, v.z * v.z);
      SquareZero(v.x);
      SquareZero(v.y);
      SquareZero(v.z);
    }
  }

  /** A norm vanishes exactly on the zero vector. */
  lemma NormZero(norm: Vec3 -> real, v: Vec3)
    requires IsNorm(norm)
    ensures norm(v) == 0.0 <==> v == Zero
  {
    DotSelfZero(v);
    var n := norm(v);
    assert n * n == Dot(v, v);
    if v == Zero {
      SquareZero(n);
    }
  }

  lemma ProductZero(p: real, q: real)
    requires p * q == 0.0 && q != 0.0
    ensures p == 0.0
  {
  }

  lemma ProductPositive(p: real, q: real)
    requires p > 0.0 && q > 0.0
    ensures p * q > 0.0
  {
  }

  lemma SquareZero(r: real)
    requires r * r == 0.0
    ensures r == 0.0
  {
    if r != 0.0 {
      ProductZero(r, r);
    }
  }

  lemma SquareNonNegative(r: real)
    ensures r * r >= 0.0
  {
    if r > 0.0 {
      ProductPositive(r, r);
    } else if r < 0.0 {
      ProductPositive(-r, -r);
      assert (-r) * (-r) == r * r;
    }
  }

  lemma SumZero(a: real, b: real, c: real)
    requires a >= 0.0 && b >= 0.0 && c >= 0.0 && a + b + c == 0.0
    ensures a == 0.0 && b == 0.0 && c == 0.0
  {
  }

  /** Squares of non-negative reals are equal only when the reals are. */
  lemma SquareRootUnique(a: real, b: real)
    requires 0.0 <= a && 0.0 <= b && a * a == b * b
    ensures a == b
  {
    assert (a - b) * (a + b) == a * a - b * b;
    if a + b != 0.0 {
      ProductZero(a - b, a + b);
    }
  }

  lemma NormNeg(norm: Vec3 -> real, v: Vec3)
    requires IsNorm(norm)
    ensures norm(Neg(v)) == norm(v)
  {
    assert Dot(Neg(v), Neg(v)) == Dot(v, v);
    SquareRootUnique(norm(Neg(v)), norm(v));
  }

  /** Normalising commutes with negation. */
  lemma NormalizeNeg(norm: Vec3 -> real, v: Vec3)
    requires IsNorm(norm)
    ensures Normalize(norm, Neg(v)) == Neg(Normalize(norm, v))
  {
    NormNeg(norm, v);
  }

  /** A normalised non-zero vector has unit length. */
  lemma NormalizeUnit(norm: Vec3 -> real, v: Vec3)
    requires IsNorm(norm) && v != Zero
    ensures Dot(Normalize(norm, v), Normalize(norm, v)) == 1.0
  {
    NormZero(norm, v);
    var n := norm(v);
    var k := 1.0 / n;
    assert n * k == 1.0;
    var u := Scale(v, k);
    calc {
      Dot(u, u);
      (v.x * k) * (v.x * k) + (v.y * k) * (v.y * k) + (v.z * k) * (v.z * k);
      { ScaledSquares(v.x, v.y, v.z, k); }
      Dot(v, v) * (k * k);
      (n * n) * (k * k);
      { assert (n * n) * (k * k) == (n * k) * (n * k); }
      1.0;
    }
  }

  lemma ScaledSquares(a: real, b: real, c: real, k: real)
    ensures (a * k) * (a * k) + (b * k) * (b * k) + (c * k) * (c * k)
         == (a * a + b * b + c * c) * (k * k)
  {
  }

  /** A vector scaled by `k` has `k * k` times the squared length. */
  lemma DotScale(v: Vec3, k: real)
    ensures Dot(Scale(v, k), Scale(v, k)) == Dot(v, v) * (k * k)
  {
    ScaledSquares(v.x, v.y, v.z, k);
  }
}
