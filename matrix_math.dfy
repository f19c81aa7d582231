// The arithmetic behind the `Matrix4` class: 4x4 matrices stored as 16 reals
// in column-major order (element (row, col) at index col * 4 + row), the
// standard matrix product, and one function per mutating method of the class
// giving the new elements from the old ones.

module MatrixMath {

  predicate IsMatrix(m: seq<real>) {
    |m| == 16
  }

  /** Element (row, col) of a column-major matrix. */
  function At(m: seq<real>, row: int, col: int): real
    requires IsMatrix(m) && 0 <= row < 4 && 0 <= col < 4
  {
    m[col * 4 + row]
  }

  /** Row `row` of `x` times column `col` of `y`. */
  function RowTimesCol(x: seq<real>, y: seq<real>, row: int, col: int): real
    requires IsMatrix(x) && IsMatrix(y) && 0 <= row < 4 && 0 <= col < 4
  {
    At(x, row, 0) * At(y, 0, col) + At(x, row, 1) * At(y, 1, col)
      + At(x, row, 2) * At(y, 2, col) + At(x, row, 3) * At(y, 3, col)
  }

  /** The mathematical product x × y, in the same column-major layout. */
  function MatMul(x: seq<real>, y: seq<real>): (r: seq<real>)
    requires IsMatrix(x) && IsMatrix(y)
    ensures IsMatrix(r)
    ensures forall row, col | 0 <= row < 4 && 0 <= col < 4 :: At(r, row, col) == RowTimesCol(x, y, row, col)
  {
    [RowTimesCol(x, y, 0, 0), RowTimesCol(x, y, 1, 0), RowTimesCol(x, y, 2, 0), RowTimesCol(x, y, 3, 0),
     RowTimesCol(x, y, 0, 1), RowTimesCol(x, y, 1, 1), RowTimesCol(x, y, 2, 1), RowTimesCol(x, y, 3, 1),
     RowTimesCol(x, y, 0, 2), RowTimesCol(x, y, 1, 2), RowTimesCol(x, y, 2, 2), RowTimesCol(x, y, 3, 2),
     RowTimesCol(x, y, 0, 3), RowTimesCol(x, y, 1, 3), RowTimesCol(x, y, 2, 3), RowTimesCol(x, y, 3, 3)]
  }

  /** What `setIdentity` writes (Matrix4.js lines 7-14). */
  function Identity(): (r: seq<real>)
    ensures IsMatrix(r)
    ensures forall row, col | 0 <= row < 4 && 0 <= col < 4 :: At(r, row, col) == if row == col then 1.0 else 0.0
  {
    [1.0, 0.0, 0.0, 0.0,
     0.0, 1.0, 0.0, 0.0,
     0.0, 0.0, 1.0, 0.0,
     0.0, 0.0, 0.0, 1.0]
  }

  /** What `setTranslate(x, y, z)` writes. */
  function Translation(x: real, y: real, z: real): (r: seq<real>)
    ensures IsMatrix(r)
    ensures forall n | 0 <= n < 16 && n !in {12, 13, 14} :: r[n] == Identity()[n]
    ensures r[12] == x && r[13] == y && r[14] == z
  {
    [1.0, 0.0, 0.0, 0.0,
     0.0, 1.0, 0.0, 0.0,
     0.0, 0.0, 1.0, 0.0,
     x, y, z, 1.0]
  }

  /**
   * What `translate(x, y, z)` makes of `m`: the last column gains
   * column0·x + column1·y + column2·z, the first three columns stay.
   */
  function Translated(m: seq<real>, x: real, y: real, z: real): (r: seq<real>)
    requires IsMatrix(m)
    ensures IsMatrix(r) && r[..12] == m[..12]
  {
    m[..12] + [m[12] + m[0] * x + m[4] * y + m[8] * z,
               m[13] + m[1] * x + m[5] * y + m[9] * z,
               m[14] + m[2] * x + m[6] * y + m[10] * z,
               m[15] + m[3] * x + m[7] * y + m[11] * z]
  }

  /** The diagonal matrix diag(x, y, z, 1). */
  function Scaling(x: real, y: real, z: real): (r: seq<real>)
    ensures IsMatrix(r)
    ensures forall row, col | 0 <= row < 4 && 0 <= col < 4 && row != col :: At(r, row, col) == 0.0
  {
    [x, 0.0, 0.0, 0.0,
     0.0, y, 0.0, 0.0,
     0.0, 0.0, z, 0.0,
     0.0, 0.0, 0.0, 1.0]
  }

  /** The factor `scale(x, y, z)` applies to element n: column 0 by x, 1 by y, 2 by z. */
  function ScaleFactor(n: int, x: real, y: real, z: real): real {
    if n < 4 then x else if n < 8 then y else if n < 12 then z else 1.0
  }

  /** What `scale(x, y, z)` makes of `m`. */
  function Scaled(m: seq<real>, x: real, y: real, z: real): (r: seq<real>)
    requires IsMatrix(m)
    ensures IsMatrix(r) && r[12..] == m[12..]
  {
    seq(16, n requires 0 <= n < 16 => m[n] * ScaleFactor(n, x, y, z))
  }

  /** Element [i*4 + j] of the nested loop in `multiply`. */
  function ProductEntry(a: seq<real>, b: seq<real>, i: int, j: int): real
    requires IsMatrix(a) && IsMatrix(b) && 0 <= i < 4 && 0 <= j < 4
  {
    a[i * 4] * b[j] + a[i * 4 + 1] * b[4 + j] + a[i * 4 + 2] * b[8 + j] + a[i * 4 + 3] * b[12 + j]
  }

  /** The array `multiply` builds from this matrix `a` and the argument `b`. */
  function Product(a: seq<real>, b: seq<real>): (r: seq<real>)
    requires IsMatrix(a) && IsMatrix(b)
    ensures IsMatrix(r)
  {
    [ProductEntry(a, b, 0, 0), ProductEntry(a, b, 0, 1), ProductEntry(a, b, 0, 2), ProductEntry(a, b, 0, 3),
     ProductEntry(a, b, 1, 0), ProductEntry(a, b, 1, 1), ProductEntry(a, b, 1, 2), ProductEntry(a, b, 1, 3),
     ProductEntry(a, b, 2, 0), ProductEntry(a, b, 2, 1), ProductEntry(a, b, 2, 2), ProductEntry(a, b, 2, 3),
     ProductEntry(a, b, 3, 0), ProductEntry(a, b, 3, 1), ProductEntry(a, b, 3, 2), ProductEntry(a, b, 3, 3)]
  }

  /** What `transpose` makes of `m`: element [i*4 + j] trades places with [j*4 + i]. */
  function Transposed(m: seq<real>): (r: seq<real>)
    requires IsMatrix(m)
    ensures IsMatrix(r)
    ensures forall row, col | 0 <= row < 4 && 0 <= col < 4 :: At(r, row, col) == At(m, col, row)
  {
    [m[0], m[4], m[8], m[12],
     m[1], m[5], m[9], m[13],
     m[2], m[6], m[10], m[14],
     m[3], m[7], m[11], m[15]]
  }

  /**
   * The sixteen cofactor expressions `setInverseOf` stores in `inv`
   * (Matrix4.js lines 131-146), listed by index: the transposed cofactor
   * matrix, so that Cofactors(s) is the adjugate of s.
   */
  function Cofactors(s: seq<real>): (c: seq<real>)
    requires IsMatrix(s)
    ensures IsMatrix(c)
  {
    [ s[5]*s[10]*s[15] - s[5]*s[11]*s[14] - s[9]*s[6]*s[15] + s[9]*s[7]*s[14] + s[13]*s[6]*s[11] - s[13]*s[7]*s[10],
     -s[1]*s[10]*s[15] + s[1]*s[11]*s[14] + s[9]*s[2]*s[15] - s[9]*s[3]*s[14] - s[13]*s[2]*s[11] + s[13]*s[3]*s[10],
      s[1]*s[6]*s[15] - s[1]*s[7]*s[14] - s[5]*s[2]*s[15] + s[5]*s[3]*s[14] + s[13]*s[2]*s[7] - s[13]*s[3]*s[6],
     -s[1]*s[6]*s[11] + s[1]*s[7]*s[10] + s[5]*s[2]*s[11] - s[5]*s[3]*s[10] - s[9]*s[2]*s[7] + s[9]*s[3]*s[6],
     -s[4]*s[10]*s[15] + s[4]*s[11]*s[14] + s[8]*s[6]*s[15] - s[8]*s[7]*s[14] - s[12]*s[6]*s[11] + s[12]*s[7]*s[10],
      s[0]*s[10]*s[15] - s[0]*s[11]*s[14] - s[8]*s[2]*s[15] + s[8]*s[3]*s[14] + s[12]*s[2]*s[11] - s[12]*s[3]*s[10],
     -s[0]*s[6]*s[15] + s[0]*s[7]*s[14] + s[4]*s[2]*s[15] - s[4]*s[3]*s[14] - s[12]*s[2]*s[7] + s[12]*s[3]*s[6],
      s[0]*s[6]*s[11] - s[0]*s[7]*s[10] - s[4]*s[2]*s[11] + s[4]*s[3]*s[10] + s[8]*s[2]*s[7] - s[8]*s[3]*s[6],
      s[4]*s[9]*s[15] - s[4]*s[11]*s[13] - s[8]*s[5]*s[15] + s[8]*s[7]*s[13] + s[12]*s[5]*s[11] - s[12]*s[7]*s[9],
     -s[0]*s[9]*s[15] + s[0]*s[11]*s[13] + s[8]*s[1]*s[15] - s[8]*s[3]*s[13] - s[12]*s[1]*s[11] + s[12]*s[3]*s[9],
      s[0]*s[5]*s[15] - s[0]*s[7]*s[13] - s[4]*s[1]*s[15] + s[4]*s[3]*s[13] + s[12]*s[1]*s[7] - s[12]*s[3]*s[5],
     -s[0]*s[5]*s[11] + s[0]*s[7]*s[9] + s[4]*s[1]*s[11] - s[4]*s[3]*s[9] - s[8]*s[1]*s[7] + s[8]*s[3]*s[5],
     -s[4]*s[9]*s[14] + s[4]*s[10]*s[13] + s[8]*s[5]*s[14] - s[8]*s[6]*s[13] - s[12]*s[5]*s[10] + s[12]*s[6]*s[9],
      s[0]*s[9]*s[14] - s[0]*s[10]*s[13] - s[8]*s[1]*s[14] + s[8]*s[2]*s[13] + s[12]*s[1]*s[10] - s[12]*s[2]*s[9],
     -s[0]*s[5]*s[14] + s[0]*s[6]*s[13] + s[4]*s[1]*s[14] - s[4]*s[2]*s[13] - s[12]*s[1]*s[6] + s[12]*s[2]*s[5],
      s[0]*s[5]*s[10] - s[0]*s[6]*s[9] - s[4]*s[1]*s[10] + s[4]*s[2]*s[9] + s[8]*s[1]*s[6] - s[8]*s[2]*s[5] ]
  }

  /** The determinant as `setInverseOf` computes it: expansion along column 0. */
  function Det(s: seq<real>): real
    requires IsMatrix(s)
  {
    var c := Cofactors(s);
    s[0] * c[0] + s[1] * c[4] + s[2] * c[8] + s[3] * c[12]
  }

  /** What `setInverseOf` writes when the determinant is not zero. */
  function InverseOf(s: seq<real>): (r: seq<real>)
    requires IsMatrix(s) && Det(s) != 0.0
    ensures IsMatrix(r)
  {
    var c := Cofactors(s);
    var invDet := 1.0 / Det(s);
    seq(16, n requires 0 <= n < 16 => c[n] * invDet)
  }

  /** Two matrices are equal when their sixteen elements are. */
  lemma SameEntries(x: seq<real>, y: seq<real>)
    requires IsMatrix(x) && IsMatrix(y)
    requires x[0] == y[0] && x[1] == y[1] && x[2] == y[2] && x[3] == y[3] &&
      x[4] == y[4] && x[5] == y[5] && x[6] == y[6] && x[7] == y[7] &&
      x[8] == y[8] && x[9] == y[9] && x[10] == y[10] && x[11] == y[11] &&
      x[12] == y[12] && x[13] == y[13] && x[14] == y[14] && x[15] == y[15]
    ensures x == y
  {
    assert forall n | 0 <= n < 16 :: x[n] == y[n];
  }

  /** The identity is neutral on both sides of the product. */
  lemma MatMulIdentity(m: seq<real>)
    requires IsMatrix(m)
    ensures MatMul(Identity(), m) == m && MatMul(m, Identity()) == m
  {
    SameEntries(MatMul(Identity(), m), m);
    SameEntries(MatMul(m, Identity()), m);
  }

  /** `multiply`'s loop, read column-major, is the pre-multiplication b × a. */
  lemma ProductIsPreMultiplication(a: seq<real>, b: seq<real>)
    requires IsMatrix(a) && IsMatrix(b)
    ensures Product(a, b) == MatMul(b, a)
  {
    SameEntries(Product(a, b), MatMul(b, a));
  }

  /** `setTranslate` is `translate` applied to the identity. */
  lemma TranslationOfIdentity(x: real, y: real, z: real)
    ensures Translation(x, y, z) == Translated(Identity(), x, y, z)
  {
  }

  lemma TranslateZero(m: seq<real>)
    requires IsMatrix(m)
    ensures Translated(m, 0.0, 0.0, 0.0) == m
  {
    SameEntries(Translated(m, 0.0, 0.0, 0.0), m);
  }

  /** Two translations compose into one by the summed offset. */
  lemma TranslateTwice(m: seq<real>, x1: real, y1: real, z1: real, x2: real, y2: real, z2: real)
    requires IsMatrix(m)
    ensures Translated(Translated(m, x1, y1, z1), x2, y2, z2) == Translated(m, x1 + x2, y1 + y2, z1 + z2)
  {
    var once := Translated(m, x1, y1, z1);
    var twice, sum := Translated(once, x2, y2, z2), Translated(m, x1 + x2, y1 + y2, z1 + z2);
    assert twice[..12] == once[..12] == m[..12] == sum[..12];
    assert forall k | 0 <= k < 12 :: twice[k] == twice[..12][k] && sum[k] == sum[..12][k];
    assert m[0] * (x1 + x2) == m[0] * x1 + m[0] * x2 && m[1] * (x1 + x2) == m[1] * x1 + m[1] * x2;
    assert m[2] * (x1 + x2) == m[2] * x1 + m[2] * x2 && m[3] * (x1 + x2) == m[3] * x1 + m[3] * x2;
    assert m[4] * (y1 + y2) == m[4] * y1 + m[4] * y2 && m[5] * (y1 + y2) == m[5] * y1 + m[5] * y2;
    assert m[6] * (y1 + y2) == m[6] * y1 + m[6] * y2 && m[7] * (y1 + y2) == m[7] * y1 + m[7] * y2;
    assert m[8] * (z1 + z2) == m[8] * z1 + m[8] * z2 && m[9] * (z1 + z2) == m[9] * z1 + m[9] * z2;
    assert m[10] * (z1 + z2) == m[10] * z1 + m[10] * z2 && m[11] * (z1 + z2) == m[11] * z1 + m[11] * z2;
    assert twice[12] == sum[12] && twice[13] == sum[13] && twice[14] == sum[14] && twice[15] == sum[15];
    SameEntries(twice, sum);
  }

  /** `translate` post-multiplies by the translation matrix. */
  lemma TranslatedIsPostMultiplication(m: seq<real>, x: real, y: real, z: real)
    requires IsMatrix(m)
    ensures Translated(m, x, y, z) == MatMul(m, Translation(x, y, z))
  {
    SameEntries(Translated(m, x, y, z), MatMul(m, Translation(x, y, z)));
  }

  lemma ScaleOne(m: seq<real>)
    requires IsMatrix(m)
    ensures Scaled(m, 1.0, 1.0, 1.0) == m
  {
  }

  /** `scale` post-multiplies by the scaling matrix. */
  lemma ScaledIsPostMultiplication(m: seq<real>, x: real, y: real, z: real)
    requires IsMatrix(m)
    ensures Scaled(m, x, y, z) == MatMul(m, Scaling(x, y, z))
  {
    SameEntries(Scaled(m, x, y, z), MatMul(m, Scaling(x, y, z)));
  }

  /** Transposing twice gives the matrix back. */
  lemma TransposeTwice(m: seq<real>)
    requires IsMatrix(m)
    ensures Transposed(Transposed(m)) == m
  {
    SameEntries(Transposed(Transposed(m)), m);
  }
}
