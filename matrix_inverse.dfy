// Correctness of the cofactor inverse in `Matrix4.setInverseOf`: the
// adjugate Cofactors(s) satisfies s × adj(s) = adj(s) × s = det(s)·I, so when
// the determinant is not zero InverseOf(s) is a two-sided inverse.
//
// Each entry of the two products is a polynomial identity of degree four in
// the sixteen elements.  The identities are proved over plain real variables
// (`xN` for element N, `cN` for cofactor N) and then instantiated with the
// elements of a matrix; entries are numbered as in the flat array, so entry
// col * 4 + row is (row, col).

module MatrixInverse {
  import opened MatrixMath

  /** The cofactors of `s`, entry by entry. */
  lemma CofactorEntries(s: seq<real>)
    requires IsMatrix(s)
    ensures var c := Cofactors(s);
      c[0] == s[5]*s[10]*s[15] - s[5]*s[11]*s[14] - s[9]*s[6]*s[15] + s[9]*s[7]*s[14] + s[13]*s[6]*s[11] - s[13]*s[7]*s[10] &&
      c[1] == -s[1]*s[10]*s[15] + s[1]*s[11]*s[14] + s[9]*s[2]*s[15] - s[9]*s[3]*s[14] - s[13]*s[2]*s[11] + s[13]*s[3]*s[10] &&
      c[2] == s[1]*s[6]*s[15] - s[1]*s[7]*s[14] - s[5]*s[2]*s[15] + s[5]*s[3]*s[14] + s[13]*s[2]*s[7] - s[13]*s[3]*s[6] &&
      c[3] == -s[1]*s[6]*s[11] + s[1]*s[7]*s[10] + s[5]*s[2]*s[11] - s[5]*s[3]*s[10] - s[9]*s[2]*s[7] + s[9]*s[3]*s[6] &&
      c[4] == -s[4]*s[10]*s[15] + s[4]*s[11]*s[14] + s[8]*s[6]*s[15] - s[8]*s[7]*s[14] - s[12]*s[6]*s[11] + s[12]*s[7]*s[10] &&
      c[5] == s[0]*s[10]*s[15] - s[0]*s[11]*s[14] - s[8]*s[2]*s[15] + s[8]*s[3]*s[14] + s[12]*s[2]*s[11] - s[12]*s[3]*s[10] &&
      c[6] == -s[0]*s[6]*s[15] + s[0]*s[7]*s[14] + s[4]*s[2]*s[15] - s[4]*s[3]*s[14] - s[12]*s[2]*s[7] + s[12]*s[3]*s[6] &&
      c[7] == s[0]*s[6]*s[11] - s[0]*s[7]*s[10] - s[4]*s[2]*s[11] + s[4]*s[3]*s[10] + s[8]*s[2]*s[7] - s[8]*s[3]*s[6] &&
      c[8] == s[4]*s[9]*s[15] - s[4]*s[11]*s[13] - s[8]*s[5]*s[15] + s[8]*s[7]*s[13] + s[12]*s[5]*s[11] - s[12]*s[7]*s[9] &&
      c[9] == -s[0]*s[9]*s[15] + s[0]*s[11]*s[13] + s[8]*s[1]*s[15] - s[8]*s[3]*s[13] - s[12]*s[1]*s[11] + s[12]*s[3]*s[9] &&
      c[10] == s[0]*s[5]*s[15] - s[0]*s[7]*s[13] - s[4]*s[1]*s[15] + s[4]*s[3]*s[13] + s[12]*s[1]*s[7] - s[12]*s[3]*s[5] &&
      c[11] == -s[0]*s[5]*s[11] + s[0]*s[7]*s[9] + s[4]*s[1]*s[11] - s[4]*s[3]*s[9] - s[8]*s[1]*s[7] + s[8]*s[3]*s[5] &&
      c[12] == -s[4]*s[9]*s[14] + s[4]*s[10]*s[13] + s[8]*s[5]*s[14] - s[8]*s[6]*s[13] - s[12]*s[5]*s[10] + s[12]*s[6]*s[9] &&
      c[13] == s[0]*s[9]*s[14] - s[0]*s[10]*s[13] - s[8]*s[1]*s[14] + s[8]*s[2]*s[13] + s[12]*s[1]*s[10] - s[12]*s[2]*s[9] &&
      c[14] == -s[0]*s[5]*s[14] + s[0]*s[6]*s[13] + s[4]*s[1]*s[14] - s[4]*s[2]*s[13] - s[12]*s[1]*s[6] + s[12]*s[2]*s[5] &&
      c[15] == s[0]*s[5]*s[10] - s[0]*s[6]*s[9] - s[4]*s[1]*s[10] + s[4]*s[2]*s[9] + s[8]*s[1]*s[6] - s[8]*s[2]*s[5]
  {
  }

  lemma TimesAdjugatePoly0(x0: real, x1: real, x2: real, x3: real, x4: real, x5: real, x6: real, x7: real, x8: real, x9: real, x10: real, x11: real, x12: real, x13: real, x14: real, x15: real, c0: real, c1: real, c2: real, c3: real, c4: real, c8: real, c12: real)
    requires c0 == x5*x10*x15 - x5*x11*x14 - x9*x6*x15 + x9*x7*x14 + x13*x6*x11 - x13*x7*x10
    requires c1 == -x1*x10*x15 + x1*x11*x14 + x9*x2*x15 - x9*x3*x14 - x13*x2*x11 + x13*x3*x10
    requires c2 == x1*x6*x15 - x1*x7*x14 - x5*x2*x15 + x5*x3*x14 + x13*x2*x7 - x13*x3*x6
    requires c3 == -x1*x6*x11 + x1*x7*x10 + x5*x2*x11 - x5*x3*x10 - x9*x2*x7 + x9*x3*x6
    requires c4 == -x4*x10*x15 + x4*x11*x14 + x8*x6*x15 - x8*x7*x14 - x12*x6*x11 + x12*x7*x10
    requires c8 == x4*x9*x15 - x4*x11*x13 - x8*x5*x15 + x8*x7*x13 + x12*x5*x11 - x12*x7*x9
    requires c12 == -x4*x9*x14 + x4*x10*x13 + x8*x5*x14 - x8*x6*x13 - x12*x5*x10 + x12*x6*x9
    ensures x0 * c0 + x4 * c1 + x8 * c2 + x12 * c3 == x0 * c0 + x1 * c4 + x2 * c8 + x3 * c12
  {
  }

  lemma TimesAdjugateExpanded0(s: seq<real>, c: seq<real>)
    requires IsMatrix(s) && IsMatrix(c)
    requires c[0] == s[5]*s[10]*s[15] - s[5]*s[11]*s[14] - s[9]*s[6]*s[15] + s[9]*s[7]*s[14] + s[13]*s[6]*s[11] - s[13]*s[7]*s[10]
    requires c[1] == -s[1]*s[10]*s[15] + s[1]*s[11]*s[14] + s[9]*s[2]*s[15] - s[9]*s[3]*s[14] - s[13]*s[2]*s[11] + s[13]*s[3]*s[10]
    requires c[2] == s[1]*s[6]*s[15] - s[1]*s[7]*s[14] - s[5]*s[2]*s[15] + s[5]*s[3]*s[14] + s[13]*s[2]*s[7] - s[13]*s[3]*s[6]
    requires c[3] == -s[1]*s[6]*s[11] + s[1]*s[7]*s[10] + s[5]*s[2]*s[11] - s[5]*s[3]*s[10] - s[9]*s[2]*s[7] + s[9]*s[3]*s[6]
    requires c[4] == -s[4]*s[10]*s[15] + s[4]*s[11]*s[14] + s[8]*s[6]*s[15] - s[8]*s[7]*s[14] - s[12]*s[6]*s[11] + s[12]*s[7]*s[10]
    requires c[8] == s[4]*s[9]*s[15] - s[4]*s[11]*s[13] - s[8]*s[5]*s[15] + s[8]*s[7]*s[13] + s[12]*s[5]*s[11] - s[12]*s[7]*s[9]
    requires c[12] == -s[4]*s[9]*s[14] + s[4]*s[10]*s[13] + s[8]*s[5]*s[14] - s[8]*s[6]*s[13] - s[12]*s[5]*s[10] + s[12]*s[6]*s[9]
    ensures s[0] * c[0] + s[4] * c[1] + s[8] * c[2] + s[12] * c[3] == s[0] * c[0] + s[1] * c[4] + s[2] * c[8] + s[3] * c[12]
  {
    TimesAdjugatePoly0(s[0], s[1], s[2], s[3], s[4], s[5], s[6], s[7], s[8], s[9], s[10], s[11], s[12], s[13], s[14], s[15],
      c[0], c[1], c[2], c[3], c[4], c[8], c[12]);
  }

  lemma TimesAdjugateEntry0(s: seq<real>)
    requires IsMatrix(s)
    ensures MatMul(s, Cofactors(s))[0] == Det(s)
  {
    var c := Cofactors(s);
    assert MatMul(s, Cofactors(s))[0] == s[0] * c[0] + s[4] * c[1] + s[8] * c[2] + s[12] * c[3];
    assert Det(s) == s[0] * c[0] + s[1] * c[4] + s[2] * c[8] + s[3] * c[12];
    CofactorEntries(s);
    TimesAdjugateExpanded0(s, c);
  }

  lemma TimesAdjugatePoly4(x0: real, x1: real, x2: real, x3: real, x4: real, x5: real, x6: real, x7: real, x8: real, x9: real, x10: real, x11: real, x12: real, x13: real, x14: real, x15: real, c0: real, c4: real, c5: real, c6: real, c7: real, c8: real, c12: real)
    requires c0 == x5*x10*x15 - x5*x11*x14 - x9*x6*x15 + x9*x7*x14 + x13*x6*x11 - x13*x7*x10
    requires c4 == -x4*x10*x15 + x4*x11*x14 + x8*x6*x15 - x8*x7*x14 - x12*x6*x11 + x12*x7*x10
    requires c5 == x0*x10*x15 - x0*x11*x14 - x8*x2*x15 + x8*x3*x14 + x12*x2*x11 - x12*x3*x10
    requires c6 == -x0*x6*x15 + x0*x7*x14 + x4*x2*x15 - x4*x3*x14 - x12*x2*x7 + x12*x3*x6
    requires c7 == x0*x6*x11 - x0*x7*x10 - x4*x2*x11 + x4*x3*x10 + x8*x2*x7 - x8*x3*x6
    requires c8 == x4*x9*x15 - x4*x11*x13 - x8*x5*x15 + x8*x7*x13 + x12*x5*x11 - x12*x7*x9
    requires c12 == -x4*x9*x14 + x4*x10*x13 + x8*x5*x14 - x8*x6*x13 - x12*x5*x10 + x12*x6*x9
    ensures x0 * c4 + x4 * c5 + x8 * c6 + x12 * c7 == 0.0
  {
  }

  lemma TimesAdjugateExpanded4(s: seq<real>, c: seq<real>)
    requires IsMatrix(s) && IsMatrix(c)
    requires c[0] == s[5]*s[10]*s[15] - s[5]*s[11]*s[14] - s[9]*s[6]*s[15] + s[9]*s[7]*s[14] + s[13]*s[6]*s[11] - s[13]*s[7]*s[10]
    requires c[4] == -s[4]*s[10]*s[15] + s[4]*s[11]*s[14] + s[8]*s[6]*s[15] - s[8]*s[7]*s[14] - s[12]*s[6]*s[11] + s[12]*s[7]*s[10]
    requires c[5] == s[0]*s[10]*s[15] - s[0]*s[11]*s[14] - s[8]*s[2]*s[15] + s[8]*s[3]*s[14] + s[12]*s[2]*s[11] - s[12]*s[3]*s[10]
    requires c[6] == -s[0]*s[6]*s[15] + s[0]*s[7]*s[14] + s[4]*s[2]*s[15] - s[4]*s[3]*s[14] - s[12]*s[2]*s[7] + s[12]*s[3]*s[6]
    requires c[7] == s[0]*s[6]*s[11] - s[0]*s[7]*s[10] - s[4]*s[2]*s[11] + s[4]*s[3]*s[10] + s[8]*s[2]*s[7] - s[8]*s[3]*s[6]
    requires c[8] == s[4]*s[9]*s[15] - s[4]*s[11]*s[13] - s[8]*s[5]*s[15] + s[8]*s[7]*s[13] + s[12]*s[5]*s[11] - s[12]*s[7]*s[9]
    requires c[12] == -s[4]*s[9]*s[14] + s[4]*s[10]*s[13] + s[8]*s[5]*s[14] - s[8]*s[6]*s[13] - s[12]*s[5]*s[10] + s[12]*s[6]*s[9]
    ensures s[0] * c[4] + s[4] * c[5] + s[8] * c[6] + s[12] * c[7] == 0.0
  {
    TimesAdjugatePoly4(s[0], s[1], s[2], s[3], s[4], s[5], s[6], s[7], s[8], s[9], s[10], s[11], s[12], s[13], s[14], s[15],
      c[0], c[4], c[5], c[6], c[7], c[8], c[12]);
  }

  lemma TimesAdjugateEntry4(s: seq<real>)
    requires IsMatrix(s)
    ensures MatMul(s, Cofactors(s))[4] == 0.0
  {
    var c := Cofactors(s);
    assert MatMul(s, Cofactors(s))[4] == s[0] * c[4] + s[4] * c[5] + s[8] * c[6] + s[12] * c[7];
    assert Det(s) == s[0] * c[0] + s[1] * c[4] + s[2] * c[8] + s[3] * c[12];
    CofactorEntries(s);
    TimesAdjugateExpanded4(s, c);
  }

  lemma TimesAdjugatePoly8(x0: real, x1: real, x2: real, x3: real, x4: real, x5: real, x6: real, x7: real, x8: real, x9: real, x10: real, x11: real, x12: real, x13: real, x14: real, x15: real, c0: real, c4: real, c8: real, c9: real, c10: real, c11: real, c12: real)
    requires c0 == x5*x10*x15 - x5*x11*x14 - x9*x6*x15 + x9*x7*x14 + x13*x6*x11 - x13*x7*x10
    requires c4 == -x4*x10*x15 + x4*x11*x14 + x8*x6*x15 - x8*x7*x14 - x12*x6*x11 + x12*x7*x10
    requires c8 == x4*x9*x15 - x4*x11*x13 - x8*x5*x15 + x8*x7*x13 + x12*x5*x11 - x12*x7*x9
    requires c9 == -x0*x9*x15 + x0*x11*x13 + x8*x1*x15 - x8*x3*x13 - x12*x1*x11 + x12*x3*x9
    requires c10 == x0*x5*x15 - x0*x7*x13 - x4*x1*x15 + x4*x3*x13 + x12*x1*x7 - x12*x3*x5
    requires c11 == -x0*x5*x11 + x0*x7*x9 + x4*x1*x11 - x4*x3*x9 - x8*x1*x7 + x8*x3*x5
    requires c12 == -x4*x9*x14 + x4*x10*x13 + x8*x5*x14 - x8*x6*x13 - x12*x5*x10 + x12*x6*x9
    ensures x0 * c8 + x4 * c9 + x8 * c10 + x12 * c11 == 0.0
  {
  }

  lemma TimesAdjugateExpanded8(s: seq<real>, c: seq<real>)
    requires IsMatrix(s) && IsMatrix(c)
    requires c[0] == s[5]*s[10]*s[15] - s[5]*s[11]*s[14] - s[9]*s[6]*s[15] + s[9]*s[7]*s[14] + s[13]*s[6]*s[11] - s[13]*s[7]*s[10]
    requires c[4] == -s[4]*s[10]*s[15] + s[4]*s[11]*s[14] + s[8]*s[6]*s[15] - s[8]*s[7]*s[14] - s[12]*s[6]*s[11] + s[12]*s[7]*s[10]
    requires c[8] == s[4]*s[9]*s[15] - s[4]*s[11]*s[13] - s[8]*s[5]*s[15] + s[8]*s[7]*s[13] + s[12]*s[5]*s[11] - s[12]*s[7]*s[9]
    requires c[9] == -s[0]*s[9]*s[15] + s[0]*s[11]*s[13] + s[8]*s[1]*s[15] - s[8]*s[3]*s[13] - s[12]*s[1]*s[11] + s[12]*s[3]*s[9]
    requires c[10] == s[0]*s[5]*s[15] - s[0]*s[7]*s[13] - s[4]*s[1]*s[15] + s[4]*s[3]*s[13] + s[12]*s[1]*s[7] - s[12]*s[3]*s[5]
    requires c[11] == -s[0]*s[5]*s[11] + s[0]*s[7]*s[9] + s[4]*s[1]*s[11] - s[4]*s[3]*s[9] - s[8]*s[1]*s[7] + s[8]*s[3]*s[5]
    requires c[12] == -s[4]*s[9]*s[14] + s[4]*s[10]*s[13] + s[8]*s[5]*s[14] - s[8]*s[6]*s[13] - s[12]*s[5]*s[10] + s[12]*s[6]*s[9]
    ensures s[0] * c[8] + s[4] * c[9] + s[8] * c[10] + s[12] * c[11] == 0.0
  {
    TimesAdjugatePoly8(s[0], s[1], s[2], s[3], s[4], s[5], s[6], s[7], s[8], s[9], s[10], s[11], s[12], s[13], s[14], s[15],
      c[0], c[4], c[8], c[9], c[10], c[11], c[12]);
  }

  lemma TimesAdjugateEntry8(s: seq<real>)
    requires IsMatrix(s)
    ensures MatMul(s, Cofactors(s))[8] == 0.0
  {
    var c := Cofactors(s);
    assert MatMul(s, Cofactors(s))[8] == s[0] * c[8] + s[4] * c[9] + s[8] * c[10] + s[12] * c[11];
    assert Det(s) == s[0] * c[0] + s[1] * c[4] + s[2] * c[8] + s[3] * c[12];
    CofactorEntries(s);
    TimesAdjugateExpanded8(s, c);
  }

  lemma TimesAdjugatePoly12(x0: real, x1: real, x2: real, x3: real, x4: real, x5: real, x6: real, x7: real, x8: real, x9: real, x10: real, x11: real, x12: real, x13: real, x14: real, x15: real, c0: real, c4: real, c8: real, c12: real, c13: real, c14: real, c15: real)
    requires c0 == x5*x10*x15 - x5*x11*x14 - x9*x6*x15 + x9*x7*x14 + x13*x6*x11 - x13*x7*x10
    requires c4 == -x4*x10*x15 + x4*x11*x14 + x8*x6*x15 - x8*x7*x14 - x12*x6*x11 + x12*x7*x10
    requires c8 == x4*x9*x15 - x4*x11*x13 - x8*x5*x15 + x8*x7*x13 + x12*x5*x11 - x12*x7*x9
    requires c12 == -x4*x9*x14 + x4*x10*x13 + x8*x5*x14 - x8*x6*x13 - x12*x5*x10 + x12*x6*x9
    requires c13 == x0*x9*x14 - x0*x10*x13 - x8*x1*x14 + x8*x2*x13 + x12*x1*x10 - x12*x2*x9
    requires c14 == -x0*x5*x14 + x0*x6*x13 + x4*x1*x14 - x4*x2*x13 - x12*x1*x6 + x12*x2*x5
    requires c15 == x0*x5*x10 - x0*x6*x9 - x4*x1*x10 + x4*x2*x9 + x8*x1*x6 - x8*x2*x5
    ensures x0 * c12 + x4 * c13 + x8 * c14 + x12 * c15 == 0.0
  {
  }

  lemma TimesAdjugateExpanded12(s: seq<real>, c: seq<real>)
    requires IsMatrix(s) && IsMatrix(c)
    requires c[0] == s[5]*s[10]*s[15] - s[5]*s[11]*s[14] - s[9]*s[6]*s[15] + s[9]*s[7]*s[14] + s[13]*s[6]*s[11] - s[13]*s[7]*s[10]
    requires c[4] == -s[4]*s[10]*s[15] + s[4]*s[11]*s[14] + s[8]*s[6]*s[15] - s[8]*s[7]*s[14] - s[12]*s[6]*s[11] + s[12]*s[7]*s[10]
    requires c[8] == s[4]*s[9]*s[15] - s[4]*s[11]*s[13] - s[8]*s[5]*s[15] + s[8]*s[7]*s[13] + s[12]*s[5]*s[11] - s[12]*s[7]*s[9]
    requires c[12] == -s[4]*s[9]*s[14] + s[4]*s[10]*s[13] + s[8]*s[5]*s[14] - s[8]*s[6]*s[13] - s[12]*s[5]*s[10] + s[12]*s[6]*s[9]
    requires c[13] == s[0]*s[9]*s[14] - s[0]*s[10]*s[13] - s[8]*s[1]*s[14] + s[8]*s[2]*s[13] + s[12]*s[1]*s[10] - s[12]*s[2]*s[9]
    requires c[14] == -s[0]*s[5]*s[14] + s[0]*s[6]*s[13] + s[4]*s[1]*s[14] - s[4]*s[2]*s[13] - s[12]*s[1]*s[6] + s[12]*s[2]*s[5]
    requires c[15] == s[0]*s[5]*s[10] - s[0]*s[6]*s[9] - s[4]*s[1]*s[10] + s[4]*s[2]*s[9] + s[8]*s[1]*s[6] - s[8]*s[2]*s[5]
    ensures s[0] * c[12] + s[4] * c[13] + s[8] * c[14] + s[12] * c[15] == 0.0
  {
    TimesAdjugatePoly12(s[0], s[1], s[2], s[3], s[4], s[5], s[6], s[7], s[8], s[9], s[10], s[11], s[12], s[13], s[14], s[15],
      c[0], c[4], c[8], c[12], c[13], c[14], c[15]);
  }

  lemma TimesAdjugateEntry12(s: seq<real>)
    requires IsMatrix(s)
    ensures MatMul(s, Cofactors(s))[12] == 0.0
  {
    var c := Cofactors(s);
    assert MatMul(s, Cofactors(s))[12] == s[0] * c[12] + s[4] * c[13] + s[8] * c[14] + s[12] * c[15];
    assert Det(s) == s[0] * c[0] + s[1] * c[4] + s[2] * c[8] + s[3] * c[12];
    CofactorEntries(s);
    TimesAdjugateExpanded12(s, c);
  }

  lemma TimesAdjugatePoly1(x0: real, x1: real, x2: real, x3: real, x4: real, x5: real, x6: real, x7: real, x8: real, x9: real, x10: real, x11: real, x12: real, x13: real, x14: real, x15: real, c0: real, c1: real, c2: real, c3: real, c4: real, c8: real, c12: real)
    requires c0 == x5*x10*x15 - x5*x11*x14 - x9*x6*x15 + x9*x7*x14 + x13*x6*x11 - x13*x7*x10
    requires c1 == -x1*x10*x15 + x1*x11*x14 + x9*x2*x15 - x9*x3*x14 - x13*x2*x11 + x13*x3*x10
    requires c2 == x1*x6*x15 - x1*x7*x14 - x5*x2*x15 + x5*x3*x14 + x13*x2*x7 - x13*x3*x6
    requires c3 == -x1*x6*x11 + x1*x7*x10 + x5*x2*x11 - x5*x3*x10 - x9*x2*x7 + x9*x3*x6
    requires c4 == -x4*x10*x15 + x4*x11*x14 + x8*x6*x15 - x8*x7*x14 - x12*x6*x11 + x12*x7*x10
    requires c8 == x4*x9*x15 - x4*x11*x13 - x8*x5*x15 + x8*x7*x13 + x12*x5*x11 - x12*x7*x9
    requires c12 == -x4*x9*x14 + x4*x10*x13 + x8*x5*x14 - x8*x6*x13 - x12*x5*x10 + x12*x6*x9
    ensures x1 * c0 + x5 * c1 + x9 * c2 + x13 * c3 == 0.0
  {
  }

  lemma TimesAdjugateExpanded1(s: seq<real>, c: seq<real>)
    requires IsMatrix(s) && IsMatrix(c)
    requires c[0] == s[5]*s[10]*s[15] - s[5]*s[11]*s[14] - s[9]*s[6]*s[15] + s[9]*s[7]*s[14] + s[13]*s[6]*s[11] - s[13]*s[7]*s[10]
    requires c[1] == -s[1]*s[10]*s[15] + s[1]*s[11]*s[14] + s[9]*s[2]*s[15] - s[9]*s[3]*s[14] - s[13]*s[2]*s[11] + s[13]*s[3]*s[10]
    requires c[2] == s[1]*s[6]*s[15] - s[1]*s[7]*s[14] - s[5]*s[2]*s[15] + s[5]*s[3]*s[14] + s[13]*s[2]*s[7] - s[13]*s[3]*s[6]
    requires c[3] == -s[1]*s[6]*s[11] + s[1]*s[7]*s[10] + s[5]*s[2]*s[11] - s[5]*s[3]*s[10] - s[9]*s[2]*s[7] + s[9]*s[3]*s[6]
    requires c[4] == -s[4]*s[10]*s[15] + s[4]*s[11]*s[14] + s[8]*s[6]*s[15] - s[8]*s[7]*s[14] - s[12]*s[6]*s[11] + s[12]*s[7]*s[10]
    requires c[8] == s[4]*s[9]*s[15] - s[4]*s[11]*s[13] - s[8]*s[5]*s[15] + s[8]*s[7]*s[13] + s[12]*s[5]*s[11] - s[12]*s[7]*s[9]
    requires c[12] == -s[4]*s[9]*s[14] + s[4]*s[10]*s[13] + s[8]*s[5]*s[14] - s[8]*s[6]*s[13] - s[12]*s[5]*s[10] + s[12]*s[6]*s[9]
    ensures s[1] * c[0] + s[5] * c[1] + s[9] * c[2] + s[13] * c[3] == 0.0
  {
    TimesAdjugatePoly1(s[0], s[1], s[2], s[3], s[4], s[5], s[6], s[7], s[8], s[9], s[10], s[11], s[12], s[13], s[14], s[15],
      c[0], c[1], c[2], c[3], c[4], c[8], c[12]);
  }

  lemma TimesAdjugateEntry1(s: seq<real>)
    requires IsMatrix(s)
    ensures MatMul(s, Cofactors(s))[1] == 0.0
  {
    var c := Cofactors(s);
    assert MatMul(s, Cofactors(s))[1] == s[1] * c[0] + s[5] * c[1] + s[9] * c[2] + s[13] * c[3];
    assert Det(s) == s[0] * c[0] + s[1] * c[4] + s[2] * c[8] + s[3] * c[12];
    CofactorEntries(s);
    TimesAdjugateExpanded1(s, c);
  }

  lemma TimesAdjugatePoly5(x0: real, x1: real, x2: real, x3: real, x4: real, x5: real, x6: real, x7: real, x8: real, x9: real, x10: real, x11: real, x12: real, x13: real, x14: real, x15: real, c0: real, c4: real, c5: real, c6: real, c7: real, c8: real, c12: real)
    requires c0 == x5*x10*x15 - x5*x11*x14 - x9*x6*x15 + x9*x7*x14 + x13*x6*x11 - x13*x7*x10
    requires c4 == -x4*x10*x15 + x4*x11*x14 + x8*x6*x15 - x8*x7*x14 - x12*x6*x11 + x12*x7*x10
    requires c5 == x0*x10*x15 - x0*x11*x14 - x8*x2*x15 + x8*x3*x14 + x12*x2*x11 - x12*x3*x10
    requires c6 == -x0*x6*x15 + x0*x7*x14 + x4*x2*x15 - x4*x3*x14 - x12*x2*x7 + x12*x3*x6
    requires c7 == x0*x6*x11 - x0*x7*x10 - x4*x2*x11 + x4*x3*x10 + x8*x2*x7 - x8*x3*x6
    requires c8 == x4*x9*x15 - x4*x11*x13 - x8*x5*x15 + x8*x7*x13 + x12*x5*x11 - x12*x7*x9
    requires c12 == -x4*x9*x14 + x4*x10*x13 + x8*x5*x14 - x8*x6*x13 - x12*x5*x10 + x12*x6*x9
    ensures x1 * c4 + x5 * c5 + x9 * c6 + x13 * c7 == x0 * c0 + x1 * c4 + x2 * c8 + x3 * c12
  {
  }

  lemma TimesAdjugateExpanded5(s: seq<real>, c: seq<real>)
    requires IsMatrix(s) && IsMatrix(c)
    requires c[0] == s[5]*s[10]*s[15] - s[5]*s[11]*s[14] - s[9]*s[6]*s[15] + s[9]*s[7]*s[14] + s[13]*s[6]*s[11] - s[13]*s[7]*s[10]
    requires c[4] == -s[4]*s[10]*s[15] + s[4]*s[11]*s[14] + s[8]*s[6]*s[15] - s[8]*s[7]*s[14] - s[12]*s[6]*s[11] + s[12]*s[7]*s[10]
    requires c[5] == s[0]*s[10]*s[15] - s[0]*s[11]*s[14] - s[8]*s[2]*s[15] + s[8]*s[3]*s[14] + s[12]*s[2]*s[11] - s[12]*s[3]*s[10]
    requires c[6] == -s[0]*s[6]*s[15] + s[0]*s[7]*s[14] + s[4]*s[2]*s[15] - s[4]*s[3]*s[14] - s[12]*s[2]*s[7] + s[12]*s[3]*s[6]
    requires c[7] == s[0]*s[6]*s[11] - s[0]*s[7]*s[10] - s[4]*s[2]*s[11] + s[4]*s[3]*s[10] + s[8]*s[2]*s[7] - s[8]*s[3]*s[6]
    requires c[8] == s[4]*s[9]*s[15] - s[4]*s[11]*s[13] - s[8]*s[5]*s[15] + s[8]*s[7]*s[13] + s[12]*s[5]*s[11] - s[12]*s[7]*s[9]
    requires c[12] == -s[4]*s[9]*s[14] + s[4]*s[10]*s[13] + s[8]*s[5]*s[14] - s[8]*s[6]*s[13] - s[12]*s[5]*s[10] + s[12]*s[6]*s[9]
    ensures s[1] * c[4] + s[5] * c[5] + s[9] * c[6] + s[13] * c[7] == s[0] * c[0] + s[1] * c[4] + s[2] * c[8] + s[3] * c[12]
  {
    TimesAdjugatePoly5(s[0], s[1], s[2], s[3], s[4], s[5], s[6], s[7], s[8], s[9], s[10], s[11], s[12], s[13], s[14], s[15],
      c[0], c[4], c[5], c[6], c[7], c[8], c[12]);
  }

  lemma TimesAdjugateEntry5(s: seq<real>)
    requires IsMatrix(s)
    ensures MatMul(s, Cofactors(s))[5] == Det(s)
  {
    var c := Cofactors(s);
    assert MatMul(s, Cofactors(s))[5] == s[1] * c[4] + s[5] * c[5] + s[9] * c[6] + s[13] * c[7];
    assert Det(s) == s[0] * c[0] + s[1] * c[4] + s[2] * c[8] + s[3] * c[12];
    CofactorEntries(s);
    TimesAdjugateExpanded5(s, c);
  }

  lemma TimesAdjugatePoly9(x0: real, x1: real, x2: real, x3: real, x4: real, x5: real, x6: real, x7: real, x8: real, x9: real, x10: real, x11: real, x12: real, x13: real, x14: real, x15: real, c0: real, c4: real, c8: real, c9: real, c10: real, c11: real, c12: real)
    requires c0 == x5*x10*x15 - x5*x11*x14 - x9*x6*x15 + x9*x7*x14 + x13*x6*x11 - x13*x7*x10
    requires c4 == -x4*x10*x15 + x4*x11*x14 + x8*x6*x15 - x8*x7*x14 - x12*x6*x11 + x12*x7*x10
    requires c8 == x4*x9*x15 - x4*x11*x13 - x8*x5*x15 + x8*x7*x13 + x12*x5*x11 - x12*x7*x9
    requires c9 == -x0*x9*x15 + x0*x11*x13 + x8*x1*x15 - x8*x3*x13 - x12*x1*x11 + x12*x3*x9
    requires c10 == x0*x5*x15 - x0*x7*x13 - x4*x1*x15 + x4*x3*x13 + x12*x1*x7 - x12*x3*x5
    requires c11 == -x0*x5*x11 + x0*x7*x9 + x4*x1*x11 - x4*x3*x9 - x8*x1*x7 + x8*x3*x5
    requires c12 == -x4*x9*x14 + x4*x10*x13 + x8*x5*x14 - x8*x6*x13 - x12*x5*x10 + x12*x6*x9
    ensures x1 * c8 + x5 * c9 + x9 * c10 + x13 * c11 == 0.0
  {
  }

  lemma TimesAdjugateExpanded9(s: seq<real>, c: seq<real>)
    requires IsMatrix(s) && IsMatrix(c)
    requires c[0] == s[5]*s[10]*s[15] - s[5]*s[11]*s[14] - s[9]*s[6]*s[15] + s[9]*s[7]*s[14] + s[13]*s[6]*s[11] - s[13]*s[7]*s[10]
    requires c[4] == -s[4]*s[10]*s[15] + s[4]*s[11]*s[14] + s[8]*s[6]*s[15] - s[8]*s[7]*s[14] - s[12]*s[6]*s[11] + s[12]*s[7]*s[10]
    requires c[8] == s[4]*s[9]*s[15] - s[4]*s[11]*s[13] - s[8]*s[5]*s[15] + s[8]*s[7]*s[13] + s[12]*s[5]*s[11] - s[12]*s[7]*s[9]
    requires c[9] == -s[0]*s[9]*s[15] + s[0]*s[11]*s[13] + s[8]*s[1]*s[15] - s[8]*s[3]*s[13] - s[12]*s[1]*s[11] + s[12]*s[3]*s[9]
    requires c[10] == s[0]*s[5]*s[15] - s[0]*s[7]*s[13] - s[4]*s[1]*s[15] + s[4]*s[3]*s[13] + s[12]*s[1]*s[7] - s[12]*s[3]*s[5]
    requires c[11] == -s[0]*s[5]*s[11] + s[0]*s[7]*s[9] + s[4]*s[1]*s[11] - s[4]*s[3]*s[9] - s[8]*s[1]*s[7] + s[8]*s[3]*s[5]
    requires c[12] == -s[4]*s[9]*s[14] + s[4]*s[10]*s[13] + s[8]*s[5]*s[14] - s[8]*s[6]*s[13] - s[12]*s[5]*s[10] + s[12]*s[6]*s[9]
    ensures s[1] * c[8] + s[5] * c[9] + s[9] * c[10] + s[13] * c[11] == 0.0
  {
    TimesAdjugatePoly9(s[0], s[1], s[2], s[3], s[4], s[5], s[6], s[7], s[8], s[9], s[10], s[11], s[12], s[13], s[14], s[15],
      c[0], c[4], c[8], c[9], c[10], c[11], c[12]);
  }

  lemma TimesAdjugateEntry9(s: seq<real>)
    requires IsMatrix(s)
    ensures MatMul(s, Cofactors(s))[9] == 0.0
  {
    var c := Cofactors(s);
    assert MatMul(s, Cofactors(s))[9] == s[1] * c[8] + s[5] * c[9] + s[9] * c[10] + s[13] * c[11];
    assert Det(s) == s[0] * c[0] + s[1] * c[4] + s[2] * c[8] + s[3] * c[12];
    CofactorEntries(s);
    TimesAdjugateExpanded9(s, c);
  }

  lemma TimesAdjugatePoly13(x0: real, x1: real, x2: real, x3: real, x4: real, x5: real, x6: real, x7: real, x8: real, x9: real, x10: real, x11: real, x12: real, x13: real, x14: real, x15: real, c0: real, c4: real, c8: real, c12: real, c13: real, c14: real, c15: real)
    requires c0 == x5*x10*x15 - x5*x11*x14 - x9*x6*x15 + x9*x7*x14 + x13*x6*x11 - x13*x7*x10
    requires c4 == -x4*x10*x15 + x4*x11*x14 + x8*x6*x15 - x8*x7*x14 - x12*x6*x11 + x12*x7*x10
    requires c8 == x4*x9*x15 - x4*x11*x13 - x8*x5*x15 + x8*x7*x13 + x12*x5*x11 - x12*x7*x9
    requires c12 == -x4*x9*x14 + x4*x10*x13 + x8*x5*x14 - x8*x6*x13 - x12*x5*x10 + x12*x6*x9
    requires c13 == x0*x9*x14 - x0*x10*x13 - x8*x1*x14 + x8*x2*x13 + x12*x1*x10 - x12*x2*x9
    requires c14 == -x0*x5*x14 + x0*x6*x13 + x4*x1*x14 - x4*x2*x13 - x12*x1*x6 + x12*x2*x5
    requires c15 == x0*x5*x10 - x0*x6*x9 - x4*x1*x10 + x4*x2*x9 + x8*x1*x6 - x8*x2*x5
    ensures x1 * c12 + x5 * c13 + x9 * c14 + x13 * c15 == 0.0
  {
  }

  lemma TimesAdjugateExpanded13(s: seq<real>, c: seq<real>)
    requires IsMatrix(s) && IsMatrix(c)
    requires c[0] == s[5]*s[10]*s[15] - s[5]*s[11]*s[14] - s[9]*s[6]*s[15] + s[9]*s[7]*s[14] + s[13]*s[6]*s[11] - s[13]*s[7]*s[10]
    requires c[4] == -s[4]*s[10]*s[15] + s[4]*s[11]*s[14] + s[8]*s[6]*s[15] - s[8]*s[7]*s[14] - s[12]*s[6]*s[11] + s[12]*s[7]*s[10]
    requires c[8] == s[4]*s[9]*s[15] - s[4]*s[11]*s[13] - s[8]*s[5]*s[15] + s[8]*s[7]*s[13] + s[12]*s[5]*s[11] - s[12]*s[7]*s[9]
    requires c[12] == -s[4]*s[9]*s[14] + s[4]*s[10]*s[13] + s[8]*s[5]*s[14] - s[8]*s[6]*s[13] - s[12]*s[5]*s[10] + s[12]*s[6]*s[9]
    requires c[13] == s[0]*s[9]*s[14] - s[0]*s[10]*s[13] - s[8]*s[1]*s[14] + s[8]*s[2]*s[13] + s[12]*s[1]*s[10] - s[12]*s[2]*s[9]
    requires c[14] == -s[0]*s[5]*s[14] + s[0]*s[6]*s[13] + s[4]*s[1]*s[14] - s[4]*s[2]*s[13] - s[12]*s[1]*s[6] + s[12]*s[2]*s[5]
    requires c[15] == s[0]*s[5]*s[10] - s[0]*s[6]*s[9] - s[4]*s[1]*s[10] + s[4]*s[2]*s[9] + s[8]*s[1]*s[6] - s[8]*s[2]*s[5]
    ensures s[1] * c[12] + s[5] * c[13] + s[9] * c[14] + s[13] * c[15] == 0.0
  {
    TimesAdjugatePoly13(s[0], s[1], s[2], s[3], s[4], s[5], s[6], s[7], s[8], s[9], s[10], s[11], s[12], s[13], s[14], s[15],
      c[0], c[4], c[8], c[12], c[13], c[14], c[15]);
  }

  lemma TimesAdjugateEntry13(s: seq<real>)
    requires IsMatrix(s)
    ensures MatMul(s, Cofactors(s))[13] == 0.0
  {
    var c := Cofactors(s);
    assert MatMul(s, Cofactors(s))[13] == s[1] * c[12] + s[5] * c[13] + s[9] * c[14] + s[13] * c[15];
    assert Det(s) == s[0] * c[0] + s[1] * c[4] + s[2] * c[8] + s[3] * c[12];
    CofactorEntries(s);
    TimesAdjugateExpanded13(s, c);
  }

  lemma TimesAdjugatePoly2(x0: real, x1: real, x2: real, x3: real, x4: real, x5: real, x6: real, x7: real, x8: real, x9: real, x10: real, x11: real, x12: real, x13: real, x14: real, x15: real, c0: real, c1: real, c2: real, c3: real, c4: real, c8: real, c12: real)
    requires c0 == x5*x10*x15 - x5*x11*x14 - x9*x6*x15 + x9*x7*x14 + x13*x6*x11 - x13*x7*x10
    requires c1 == -x1*x10*x15 + x1*x11*x14 + x9*x2*x15 - x9*x3*x14 - x13*x2*x11 + x13*x3*x10
    requires c2 == x1*x6*x15 - x1*x7*x14 - x5*x2*x15 + x5*x3*x14 + x13*x2*x7 - x13*x3*x6
    requires c3 == -x1*x6*x11 + x1*x7*x10 + x5*x2*x11 - x5*x3*x10 - x9*x2*x7 + x9*x3*x6
    requires c4 == -x4*x10*x15 + x4*x11*x14 + x8*x6*x15 - x8*x7*x14 - x12*x6*x11 + x12*x7*x10
    requires c8 == x4*x9*x15 - x4*x11*x13 - x8*x5*x15 + x8*x7*x13 + x12*x5*x11 - x12*x7*x9
    requires c12 == -x4*x9*x14 + x4*x10*x13 + x8*x5*x14 - x8*x6*x13 - x12*x5*x10 + x12*x6*x9
    ensures x2 * c0 + x6 * c1 + x10 * c2 + x14 * c3 == 0.0
  {
  }

  lemma TimesAdjugateExpanded2(s: seq<real>, c: seq<real>)
    requires IsMatrix(s) && IsMatrix(c)
    requires c[0] == s[5]*s[10]*s[15] - s[5]*s[11]*s[14] - s[9]*s[6]*s[15] + s[9]*s[7]*s[14] + s[13]*s[6]*s[11] - s[13]*s[7]*s[10]
    requires c[1] == -s[1]*s[10]*s[15] + s[1]*s[11]*s[14] + s[9]*s[2]*s[15] - s[9]*s[3]*s[14] - s[13]*s[2]*s[11] + s[13]*s[3]*s[10]
    requires c[2] == s[1]*s[6]*s[15] - s[1]*s[7]*s[14] - s[5]*s[2]*s[15] + s[5]*s[3]*s[14] + s[13]*s[2]*s[7] - s[13]*s[3]*s[6]
    requires c[3] == -s[1]*s[6]*s[11] + s[1]*s[7]*s[10] + s[5]*s[2]*s[11] - s[5]*s[3]*s[10] - s[9]*s[2]*s[7] + s[9]*s[3]*s[6]
    requires c[4] == -s[4]*s[10]*s[15] + s[4]*s[11]*s[14] + s[8]*s[6]*s[15] - s[8]*s[7]*s[14] - s[12]*s[6]*s[11] + s[12]*s[7]*s[10]
    requires c[8] == s[4]*s[9]*s[15] - s[4]*s[11]*s[13] - s[8]*s[5]*s[15] + s[8]*s[7]*s[13] + s[12]*s[5]*s[11] - s[12]*s[7]*s[9]
    requires c[12] == -s[4]*s[9]*s[14] + s[4]*s[10]*s[13] + s[8]*s[5]*s[14] - s[8]*s[6]*s[13] - s[12]*s[5]*s[10] + s[12]*s[6]*s[9]
    ensures s[2] * c[0] + s[6] * c[1] + s[10] * c[2] + s[14] * c[3] == 0.0
  {
    TimesAdjugatePoly2(s[0], s[1], s[2], s[3], s[4], s[5], s[6], s[7], s[8], s[9], s[10], s[11], s[12], s[13], s[14], s[15],
      c[0], c[1], c[2], c[3], c[4], c[8], c[12]);
  }

  lemma TimesAdjugateEntry2(s: seq<real>)
    requires IsMatrix(s)
    ensures MatMul(s, Cofactors(s))[2] == 0.0
  {
    var c := Cofactors(s);
    assert MatMul(s, Cofactors(s))[2] == s[2] * c[0] + s[6] * c[1] + s[10] * c[2] + s[14] * c[3];
    assert Det(s) == s[0] * c[0] + s[1] * c[4] + s[2] * c[8] + s[3] * c[12];
    CofactorEntries(s);
    TimesAdjugateExpanded2(s, c);
  }

  lemma TimesAdjugatePoly6(x0: real, x1: real, x2: real, x3: real, x4: real, x5: real, x6: real, x7: real, x8: real, x9: real, x10: real, x11: real, x12: real, x13: real, x14: real, x15: real, c0: real, c4: real, c5: real, c6: real, c7: real, c8: real, c12: real)
    requires c0 == x5*x10*x15 - x5*x11*x14 - x9*x6*x15 + x9*x7*x14 + x13*x6*x11 - x13*x7*x10
    requires c4 == -x4*x10*x15 + x4*x11*x14 + x8*x6*x15 - x8*x7*x14 - x12*x6*x11 + x12*x7*x10
    requires c5 == x0*x10*x15 - x0*x11*x14 - x8*x2*x15 + x8*x3*x14 + x12*x2*x11 - x12*x3*x10
    requires c6 == -x0*x6*x15 + x0*x7*x14 + x4*x2*x15 - x4*x3*x14 - x12*x2*x7 + x12*x3*x6
    requires c7 == x0*x6*x11 - x0*x7*x10 - x4*x2*x11 + x4*x3*x10 + x8*x2*x7 - x8*x3*x6
    requires c8 == x4*x9*x15 - x4*x11*x13 - x8*x5*x15 + x8*x7*x13 + x12*x5*x11 - x12*x7*x9
    requires c12 == -x4*x9*x14 + x4*x10*x13 + x8*x5*x14 - x8*x6*x13 - x12*x5*x10 + x12*x6*x9
    ensures x2 * c4 + x6 * c5 + x10 * c6 + x14 * c7 == 0.0
  {
  }

  lemma TimesAdjugateExpanded6(s: seq<real>, c: seq<real>)
    requires IsMatrix(s) && IsMatrix(c)
    requires c[0] == s[5]*s[10]*s[15] - s[5]*s[11]*s[14] - s[9]*s[6]*s[15] + s[9]*s[7]*s[14] + s[13]*s[6]*s[11] - s[13]*s[7]*s[10]
    requires c[4] == -s[4]*s[10]*s[15] + s[4]*s[11]*s[14] + s[8]*s[6]*s[15] - s[8]*s[7]*s[14] - s[12]*s[6]*s[11] + s[12]*s[7]*s[10]
    requires c[5] == s[0]*s[10]*s[15] - s[0]*s[11]*s[14] - s[8]*s[2]*s[15] + s[8]*s[3]*s[14] + s[12]*s[2]*s[11] - s[12]*s[3]*s[10]
    requires c[6] == -s[0]*s[6]*s[15] + s[0]*s[7]*s[14] + s[4]*s[2]*s[15] - s[4]*s[3]*s[14] - s[12]*s[2]*s[7] + s[12]*s[3]*s[6]
    requires c[7] == s[0]*s[6]*s[11] - s[0]*s[7]*s[10] - s[4]*s[2]*s[11] + s[4]*s[3]*s[10] + s[8]*s[2]*s[7] - s[8]*s[3]*s[6]
    requires c[8] == s[4]*s[9]*s[15] - s[4]*s[11]*s[13] - s[8]*s[5]*s[15] + s[8]*s[7]*s[13] + s[12]*s[5]*s[11] - s[12]*s[7]*s[9]
    requires c[12] == -s[4]*s[9]*s[14] + s[4]*s[10]*s[13] + s[8]*s[5]*s[14] - s[8]*s[6]*s[13] - s[12]*s[5]*s[10] + s[12]*s[6]*s[9]
    ensures s[2] * c[4] + s[6] * c[5] + s[10] * c[6] + s[14] * c[7] == 0.0
  {
    TimesAdjugatePoly6(s[0], s[1], s[2], s[3], s[4], s[5], s[6], s[7], s[8], s[9], s[10], s[11], s[12], s[13], s[14], s[15],
      c[0], c[4], c[5], c[6], c[7], c[8], c[12]);
  }

  lemma TimesAdjugateEntry6(s: seq<real>)
    requires IsMatrix(s)
    ensures MatMul(s, Cofactors(s))[6] == 0.0
  {
    var c := Cofactors(s);
    assert MatMul(s, Cofactors(s))[6] == s[2] * c[4] + s[6] * c[5] + s[10] * c[6] + s[14] * c[7];
    assert Det(s) == s[0] * c[0] + s[1] * c[4] + s[2] * c[8] + s[3] * c[12];
    CofactorEntries(s);
    TimesAdjugateExpanded6(s, c);
  }

  lemma TimesAdjugatePoly10(x0: real, x1: real, x2: real, x3: real, x4: real, x5: real, x6: real, x7: real, x8: real, x9: real, x10: real, x11: real, x12: real, x13: real, x14: real, x15: real, c0: real, c4: real, c8: real, c9: real, c10: real, c11: real, c12: real)
    requires c0 == x5*x10*x15 - x5*x11*x14 - x9*x6*x15 + x9*x7*x14 + x13*x6*x11 - x13*x7*x10
    requires c4 == -x4*x10*x15 + x4*x11*x14 + x8*x6*x15 - x8*x7*x14 - x12*x6*x11 + x12*x7*x10
    requires c8 == x4*x9*x15 - x4*x11*x13 - x8*x5*x15 + x8*x7*x13 + x12*x5*x11 - x12*x7*x9
    requires c9 == -x0*x9*x15 + x0*x11*x13 + x8*x1*x15 - x8*x3*x13 - x12*x1*x11 + x12*x3*x9
    requires c10 == x0*x5*x15 - x0*x7*x13 - x4*x1*x15 + x4*x3*x13 + x12*x1*x7 - x12*x3*x5
    requires c11 == -x0*x5*x11 + x0*x7*x9 + x4*x1*x11 - x4*x3*x9 - x8*x1*x7 + x8*x3*x5
    requires c12 == -x4*x9*x14 + x4*x10*x13 + x8*x5*x14 - x8*x6*x13 - x12*x5*x10 + x12*x6*x9
    ensures x2 * c8 + x6 * c9 + x10 * c10 + x14 * c11 == x0 * c0 + x1 * c4 + x2 * c8 + x3 * c12
  {
  }

  lemma TimesAdjugateExpanded10(s: seq<real>, c: seq<real>)
    requires IsMatrix(s) && IsMatrix(c)
    requires c[0] == s[5]*s[10]*s[15] - s[5]*s[11]*s[14] - s[9]*s[6]*s[15] + s[9]*s[7]*s[14] + s[13]*s[6]*s[11] - s[13]*s[7]*s[10]
    requires c[4] == -s[4]*s[10]*s[15] + s[4]*s[11]*s[14] + s[8]*s[6]*s[15] - s[8]*s[7]*s[14] - s[12]*s[6]*s[11] + s[12]*s[7]*s[10]
    requires c[8] == s[4]*s[9]*s[15] - s[4]*s[11]*s[13] - s[8]*s[5]*s[15] + s[8]*s[7]*s[13] + s[12]*s[5]*s[11] - s[12]*s[7]*s[9]
    requires c[9] == -s[0]*s[9]*s[15] + s[0]*s[11]*s[13] + s[8]*s[1]*s[15] - s[8]*s[3]*s[13] - s[12]*s[1]*s[11] + s[12]*s[3]*s[9]
    requires c[10] == s[0]*s[5]*s[15] - s[0]*s[7]*s[13] - s[4]*s[1]*s[15] + s[4]*s[3]*s[13] + s[12]*s[1]*s[7] - s[12]*s[3]*s[5]
    requires c[11] == -s[0]*s[5]*s[11] + s[0]*s[7]*s[9] + s[4]*s[1]*s[11] - s[4]*s[3]*s[9] - s[8]*s[1]*s[7] + s[8]*s[3]*s[5]
    requires c[12] == -s[4]*s[9]*s[14] + s[4]*s[10]*s[13] + s[8]*s[5]*s[14] - s[8]*s[6]*s[13] - s[12]*s[5]*s[10] + s[12]*s[6]*s[9]
    ensures s[2] * c[8] + s[6] * c[9] + s[10] * c[10] + s[14] * c[11] == s[0] * c[0] + s[1] * c[4] + s[2] * c[8] + s[3] * c[12]
  {
    TimesAdjugatePoly10(s[0], s[1], s[2], s[3], s[4], s[5], s[6], s[7], s[8], s[9], s[10], s[11], s[12], s[13], s[14], s[15],
      c[0], c[4], c[8], c[9], c[10], c[11], c[12]);
  }

  lemma TimesAdjugateEntry10(s: seq<real>)
    requires IsMatrix(s)
    ensures MatMul(s, Cofactors(s))[10] == Det(s)
  {
    var c := Cofactors(s);
    assert MatMul(s, Cofactors(s))[10] == s[2] * c[8] + s[6] * c[9] + s[10] * c[10] + s[14] * c[11];
    assert Det(s) == s[0] * c[0] + s[1] * c[4] + s[2] * c[8] + s[3] * c[12];
    CofactorEntries(s);
    TimesAdjugateExpanded10(s, c);
  }

  lemma TimesAdjugatePoly14(x0: real, x1: real, x2: real, x3: real, x4: real, x5: real, x6: real, x7: real, x8: real, x9: real, x10: real, x11: real, x12: real, x13: real, x14: real, x15: real, c0: real, c4: real, c8: real, c12: real, c13: real, c14: real, c15: real)
    requires c0 == x5*x10*x15 - x5*x11*x14 - x9*x6*x15 + x9*x7*x14 + x13*x6*x11 - x13*x7*x10
    requires c4 == -x4*x10*x15 + x4*x11*x14 + x8*x6*x15 - x8*x7*x14 - x12*x6*x11 + x12*x7*x10
    requires c8 == x4*x9*x15 - x4*x11*x13 - x8*x5*x15 + x8*x7*x13 + x12*x5*x11 - x12*x7*x9
    requires c12 == -x4*x9*x14 + x4*x10*x13 + x8*x5*x14 - x8*x6*x13 - x12*x5*x10 + x12*x6*x9
    requires c13 == x0*x9*x14 - x0*x10*x13 - x8*x1*x14 + x8*x2*x13 + x12*x1*x10 - x12*x2*x9
    requires c14 == -x0*x5*x14 + x0*x6*x13 + x4*x1*x14 - x4*x2*x13 - x12*x1*x6 + x12*x2*x5
    requires c15 == x0*x5*x10 - x0*x6*x9 - x4*x1*x10 + x4*x2*x9 + x8*x1*x6 - x8*x2*x5
    ensures x2 * c12 + x6 * c13 + x10 * c14 + x14 * c15 == 0.0
  {
  }

  lemma TimesAdjugateExpanded14(s: seq<real>, c: seq<real>)
    requires IsMatrix(s) && IsMatrix(c)
    requires c[0] == s[5]*s[10]*s[15] - s[5]*s[11]*s[14] - s[9]*s[6]*s[15] + s[9]*s[7]*s[14] + s[13]*s[6]*s[11] - s[13]*s[7]*s[10]
    requires c[4] == -s[4]*s[10]*s[15] + s[4]*s[11]*s[14] + s[8]*s[6]*s[15] - s[8]*s[7]*s[14] - s[12]*s[6]*s[11] + s[12]*s[7]*s[10]
    requires c[8] == s[4]*s[9]*s[15] - s[4]*s[11]*s[13] - s[8]*s[5]*s[15] + s[8]*s[7]*s[13] + s[12]*s[5]*s[11] - s[12]*s[7]*s[9]
    requires c[12] == -s[4]*s[9]*s[14] + s[4]*s[10]*s[13] + s[8]*s[5]*s[14] - s[8]*s[6]*s[13] - s[12]*s[5]*s[10] + s[12]*s[6]*s[9]
    requires c[13] == s[0]*s[9]*s[14] - s[0]*s[10]*s[13] - s[8]*s[1]*s[14] + s[8]*s[2]*s[13] + s[12]*s[1]*s[10] - s[12]*s[2]*s[9]
    requires c[14] == -s[0]*s[5]*s[14] + s[0]*s[6]*s[13] + s[4]*s[1]*s[14] - s[4]*s[2]*s[13] - s[12]*s[1]*s[6] + s[12]*s[2]*s[5]
    requires c[15] == s[0]*s[5]*s[10] - s[0]*s[6]*s[9] - s[4]*s[1]*s[10] + s[4]*s[2]*s[9] + s[8]*s[1]*s[6] - s[8]*s[2]*s[5]
    ensures s[2] * c[12] + s[6] * c[13] + s[10] * c[14] + s[14] * c[15] == 0.0
  {
    TimesAdjugatePoly14(s[0], s[1], s[2], s[3], s[4], s[5], s[6], s[7], s[8], s[9], s[10], s[11], s[12], s[13], s[14], s[15],
      c[0], c[4], c[8], c[12], c[13], c[14], c[15]);
  }

  lemma TimesAdjugateEntry14(s: seq<real>)
    requires IsMatrix(s)
    ensures MatMul(s, Cofactors(s))[14] == 0.0
  {
    var c := Cofactors(s);
    assert MatMul(s, Cofactors(s))[14] == s[2] * c[12] + s[6] * c[13] + s[10] * c[14] + s[14] * c[15];
    assert Det(s) == s[0] * c[0] + s[1] * c[4] + s[2] * c[8] + s[3] * c[12];
    CofactorEntries(s);
    TimesAdjugateExpanded14(s, c);
  }

  lemma TimesAdjugatePoly3(x0: real, x1: real, x2: real, x3: real, x4: real, x5: real, x6: real, x7: real, x8: real, x9: real, x10: real, x11: real, x12: real, x13: real, x14: real, x15: real, c0: real, c1: real, c2: real, c3: real, c4: real, c8: real, c12: real)
    requires c0 == x5*x10*x15 - x5*x11*x14 - x9*x6*x15 + x9*x7*x14 + x13*x6*x11 - x13*x7*x10
    requires c1 == -x1*x10*x15 + x1*x11*x14 + x9*x2*x15 - x9*x3*x14 - x13*x2*x11 + x13*x3*x10
    requires c2 == x1*x6*x15 - x1*x7*x14 - x5*x2*x15 + x5*x3*x14 + x13*x2*x7 - x13*x3*x6
    requires c3 == -x1*x6*x11 + x1*x7*x10 + x5*x2*x11 - x5*x3*x10 - x9*x2*x7 + x9*x3*x6
    requires c4 == -x4*x10*x15 + x4*x11*x14 + x8*x6*x15 - x8*x7*x14 - x12*x6*x11 + x12*x7*x10
    requires c8 == x4*x9*x15 - x4*x11*x13 - x8*x5*x15 + x8*x7*x13 + x12*x5*x11 - x12*x7*x9
    requires c12 == -x4*x9*x14 + x4*x10*x13 + x8*x5*x14 - x8*x6*x13 - x12*x5*x10 + x12*x6*x9
    ensures x3 * c0 + x7 * c1 + x11 * c2 + x15 * c3 == 0.0
  {
  }

  lemma TimesAdjugateExpanded3(s: seq<real>, c: seq<real>)
    requires IsMatrix(s) && IsMatrix(c)
    requires c[0] == s[5]*s[10]*s[15] - s[5]*s[11]*s[14] - s[9]*s[6]*s[15] + s[9]*s[7]*s[14] + s[13]*s[6]*s[11] - s[13]*s[7]*s[10]
    requires c[1] == -s[1]*s[10]*s[15] + s[1]*s[11]*s[14] + s[9]*s[2]*s[15] - s[9]*s[3]*s[14] - s[13]*s[2]*s[11] + s[13]*s[3]*s[10]
    requires c[2] == s[1]*s[6]*s[15] - s[1]*s[7]*s[14] - s[5]*s[2]*s[15] + s[5]*s[3]*s[14] + s[13]*s[2]*s[7] - s[13]*s[3]*s[6]
    requires c[3] == -s[1]*s[6]*s[11] + s[1]*s[7]*s[10] + s[5]*s[2]*s[11] - s[5]*s[3]*s[10] - s[9]*s[2]*s[7] + s[9]*s[3]*s[6]
    requires c[4] == -s[4]*s[10]*s[15] + s[4]*s[11]*s[14] + s[8]*s[6]*s[15] - s[8]*s[7]*s[14] - s[12]*s[6]*s[11] + s[12]*s[7]*s[10]
    requires c[8] == s[4]*s[9]*s[15] - s[4]*s[11]*s[13] - s[8]*s[5]*s[15] + s[8]*s[7]*s[13] + s[12]*s[5]*s[11] - s[12]*s[7]*s[9]
    requires c[12] == -s[4]*s[9]*s[14] + s[4]*s[10]*s[13] + s[8]*s[5]*s[14] - s[8]*s[6]*s[13] - s[12]*s[5]*s[10] + s[12]*s[6]*s[9]
    ensures s[3] * c[0] + s[7] * c[1] + s[11] * c[2] + s[15] * c[3] == 0.0
  {
    TimesAdjugatePoly3(s[0], s[1], s[2], s[3], s[4], s[5], s[6], s[7], s[8], s[9], s[10], s[11], s[12], s[13], s[14], s[15],
      c[0], c[1], c[2], c[3], c[4], c[8], c[12]);
  }

  lemma TimesAdjugateEntry3(s: seq<real>)
    requires IsMatrix(s)
    ensures MatMul(s, Cofactors(s))[3] == 0.0
  {
    var c := Cofactors(s);
    assert MatMul(s, Cofactors(s))[3] == s[3] * c[0] + s[7] * c[1] + s[11] * c[2] + s[15] * c[3];
    assert Det(s) == s[0] * c[0] + s[1] * c[4] + s[2] * c[8] + s[3] * c[12];
    CofactorEntries(s);
    TimesAdjugateExpanded3(s, c);
  }

  lemma TimesAdjugatePoly7(x0: real, x1: real, x2: real, x3: real, x4: real, x5: real, x6: real, x7: real, x8: real, x9: real, x10: real, x11: real, x12: real, x13: real, x14: real, x15: real, c0: real, c4: real, c5: real, c6: real, c7: real, c8: real, c12: real)
    requires c0 == x5*x10*x15 - x5*x11*x14 - x9*x6*x15 + x9*x7*x14 + x13*x6*x11 - x13*x7*x10
    requires c4 == -x4*x10*x15 + x4*x11*x14 + x8*x6*x15 - x8*x7*x14 - x12*x6*x11 + x12*x7*x10
    requires c5 == x0*x10*x15 - x0*x11*x14 - x8*x2*x15 + x8*x3*x14 + x12*x2*x11 - x12*x3*x10
    requires c6 == -x0*x6*x15 + x0*x7*x14 + x4*x2*x15 - x4*x3*x14 - x12*x2*x7 + x12*x3*x6
    requires c7 == x0*x6*x11 - x0*x7*x10 - x4*x2*x11 + x4*x3*x10 + x8*x2*x7 - x8*x3*x6
    requires c8 == x4*x9*x15 - x4*x11*x13 - x8*x5*x15 + x8*x7*x13 + x12*x5*x11 - x12*x7*x9
    requires c12 == -x4*x9*x14 + x4*x10*x13 + x8*x5*x14 - x8*x6*x13 - x12*x5*x10 + x12*x6*x9
    ensures x3 * c4 + x7 * c5 + x11 * c6 + x15 * c7 == 0.0
  {
  }

  lemma TimesAdjugateExpanded7(s: seq<real>, c: seq<real>)
    requires IsMatrix(s) && IsMatrix(c)
    requires c[0] == s[5]*s[10]*s[15] - s[5]*s[11]*s[14] - s[9]*s[6]*s[15] + s[9]*s[7]*s[14] + s[13]*s[6]*s[11] - s[13]*s[7]*s[10]
    requires c[4] == -s[4]*s[10]*s[15] + s[4]*s[11]*s[14] + s[8]*s[6]*s[15] - s[8]*s[7]*s[14] - s[12]*s[6]*s[11] + s[12]*s[7]*s[10]
    requires c[5] == s[0]*s[10]*s[15] - s[0]*s[11]*s[14] - s[8]*s[2]*s[15] + s[8]*s[3]*s[14] + s[12]*s[2]*s[11] - s[12]*s[3]*s[10]
    requires c[6] == -s[0]*s[6]*s[15] + s[0]*s[7]*s[14] + s[4]*s[2]*s[15] - s[4]*s[3]*s[14] - s[12]*s[2]*s[7] + s[12]*s[3]*s[6]
    requires c[7] == s[0]*s[6]*s[11] - s[0]*s[7]*s[10] - s[4]*s[2]*s[11] + s[4]*s[3]*s[10] + s[8]*s[2]*s[7] - s[8]*s[3]*s[6]
    requires c[8] == s[4]*s[9]*s[15] - s[4]*s[11]*s[13] - s[8]*s[5]*s[15] + s[8]*s[7]*s[13] + s[12]*s[5]*s[11] - s[12]*s[7]*s[9]
    requires c[12] == -s[4]*s[9]*s[14] + s[4]*s[10]*s[13] + s[8]*s[5]*s[14] - s[8]*s[6]*s[13] - s[12]*s[5]*s[10] + s[12]*s[6]*s[9]
    ensures s[3] * c[4] + s[7] * c[5] + s[11] * c[6] + s[15] * c[7] == 0.0
  {
    TimesAdjugatePoly7(s[0], s[1], s[2], s[3], s[4], s[5], s[6], s[7], s[8], s[9], s[10], s[11], s[12], s[13], s[14], s[15],
      c[0], c[4], c[5], c[6], c[7], c[8], c[12]);
  }

  lemma TimesAdjugateEntry7(s: seq<real>)
    requires IsMatrix(s)
    ensures MatMul(s, Cofactors(s))[7] == 0.0
  {
    var c := Cofactors(s);
    assert MatMul(s, Cofactors(s))[7] == s[3] * c[4] + s[7] * c[5] + s[11] * c[6] + s[15] * c[7];
    assert Det(s) == s[0] * c[0] + s[1] * c[4] + s[2] * c[8] + s[3] * c[12];
    CofactorEntries(s);
    TimesAdjugateExpanded7(s, c);
  }

  lemma TimesAdjugatePoly11(x0: real, x1: real, x2: real, x3: real, x4: real, x5: real, x6: real, x7: real, x8: real, x9: real, x10: real, x11: real, x12: real, x13: real, x14: real, x15: real, c0: real, c4: real, c8: real, c9: real, c10: real, c11: real, c12: real)
    requires c0 == x5*x10*x15 - x5*x11*x14 - x9*x6*x15 + x9*x7*x14 + x13*x6*x11 - x13*x7*x10
    requires c4 == -x4*x10*x15 + x4*x11*x14 + x8*x6*x15 - x8*x7*x14 - x12*x6*x11 + x12*x7*x10
    requires c8 == x4*x9*x15 - x4*x11*x13 - x8*x5*x15 + x8*x7*x13 + x12*x5*x11 - x12*x7*x9
    requires c9 == -x0*x9*x15 + x0*x11*x13 + x8*x1*x15 - x8*x3*x13 - x12*x1*x11 + x12*x3*x9
    requires c10 == x0*x5*x15 - x0*x7*x13 - x4*x1*x15 + x4*x3*x13 + x12*x1*x7 - x12*x3*x5
    requires c11 == -x0*x5*x11 + x0*x7*x9 + x4*x1*x11 - x4*x3*x9 - x8*x1*x7 + x8*x3*x5
    requires c12 == -x4*x9*x14 + x4*x10*x13 + x8*x5*x14 - x8*x6*x13 - x12*x5*x10 + x12*x6*x9
    ensures x3 * c8 + x7 * c9 + x11 * c10 + x15 * c11 == 0.0
  {
  }

  lemma TimesAdjugateExpanded11(s: seq<real>, c: seq<real>)
    requires IsMatrix(s) && IsMatrix(c)
    requires c[0] == s[5]*s[10]*s[15] - s[5]*s[11]*s[14] - s[9]*s[6]*s[15] + s[9]*s[7]*s[14] + s[13]*s[6]*s[11] - s[13]*s[7]*s[10]
    requires c[4] == -s[4]*s[10]*s[15] + s[4]*s[11]*s[14] + s[8]*s[6]*s[15] - s[8]*s[7]*s[14] - s[12]*s[6]*s[11] + s[12]*s[7]*s[10]
    requires c[8] == s[4]*s[9]*s[15] - s[4]*s[11]*s[13] - s[8]*s[5]*s[15] + s[8]*s[7]*s[13] + s[12]*s[5]*s[11] - s[12]*s[7]*s[9]
    requires c[9] == -s[0]*s[9]*s[15] + s[0]*s[11]*s[13] + s[8]*s[1]*s[15] - s[8]*s[3]*s[13] - s[12]*s[1]*s[11] + s[12]*s[3]*s[9]
    requires c[10] == s[0]*s[5]*s[15] - s[0]*s[7]*s[13] - s[4]*s[1]*s[15] + s[4]*s[3]*s[13] + s[12]*s[1]*s[7] - s[12]*s[3]*s[5]
    requires c[11] == -s[0]*s[5]*s[11] + s[0]*s[7]*s[9] + s[4]*s[1]*s[11] - s[4]*s[3]*s[9] - s[8]*s[1]*s[7] + s[8]*s[3]*s[5]
    requires c[12] == -s[4]*s[9]*s[14] + s[4]*s[10]*s[13] + s[8]*s[5]*s[14] - s[8]*s[6]*s[13] - s[12]*s[5]*s[10] + s[12]*s[6]*s[9]
    ensures s[3] * c[8] + s[7] * c[9] + s[11] * c[10] + s[15] * c[11] == 0.0
  {
    TimesAdjugatePoly11(s[0], s[1], s[2], s[3], s[4], s[5], s[6], s[7], s[8], s[9], s[10], s[11], s[12], s[13], s[14], s[15],
      c[0], c[4], c[8], c[9], c[10], c[11], c[12]);
  }

  lemma TimesAdjugateEntry11(s: seq<real>)
    requires IsMatrix(s)
    ensures MatMul(s, Cofactors(s))[11] == 0.0
  {
    var c := Cofactors(s);
    assert MatMul(s, Cofactors(s))[11] == s[3] * c[8] + s[7] * c[9] + s[11] * c[10] + s[15] * c[11];
    assert Det(s) == s[0] * c[0] + s[1] * c[4] + s[2] * c[8] + s[3] * c[12];
    CofactorEntries(s);
    TimesAdjugateExpanded11(s, c);
  }

  lemma TimesAdjugatePoly15(x0: real, x1: real, x2: real, x3: real, x4: real, x5: real, x6: real, x7: real, x8: real, x9: real, x10: real, x11: real, x12: real, x13: real, x14: real, x15: real, c0: real, c4: real, c8: real, c12: real, c13: real, c14: real, c15: real)
    requires c0 == x5*x10*x15 - x5*x11*x14 - x9*x6*x15 + x9*x7*x14 + x13*x6*x11 - x13*x7*x10
    requires c4 == -x4*x10*x15 + x4*x11*x14 + x8*x6*x15 - x8*x7*x14 - x12*x6*x11 + x12*x7*x10
    requires c8 == x4*x9*x15 - x4*x11*x13 - x8*x5*x15 + x8*x7*x13 + x12*x5*x11 - x12*x7*x9
    requires c12 == -x4*x9*x14 + x4*x10*x13 + x8*x5*x14 - x8*x6*x13 - x12*x5*x10 + x12*x6*x9
    requires c13 == x0*x9*x14 - x0*x10*x13 - x8*x1*x14 + x8*x2*x13 + x12*x1*x10 - x12*x2*x9
    requires c14 == -x0*x5*x14 + x0*x6*x13 + x4*x1*x14 - x4*x2*x13 - x12*x1*x6 + x12*x2*x5
    requires c15 == x0*x5*x10 - x0*x6*x9 - x4*x1*x10 + x4*x2*x9 + x8*x1*x6 - x8*x2*x5
    ensures x3 * c12 + x7 * c13 + x11 * c14 + x15 * c15 == x0 * c0 + x1 * c4 + x2 * c8 + x3 * c12
  {
  }

  lemma TimesAdjugateExpanded15(s: seq<real>, c: seq<real>)
    requires IsMatrix(s) && IsMatrix(c)
    requires c[0] == s[5]*s[10]*s[15] - s[5]*s[11]*s[14] - s[9]*s[6]*s[15] + s[9]*s[7]*s[14] + s[13]*s[6]*s[11] - s[13]*s[7]*s[10]
    requires c[4] == -s[4]*s[10]*s[15] + s[4]*s[11]*s[14] + s[8]*s[6]*s[15] - s[8]*s[7]*s[14] - s[12]*s[6]*s[11] + s[12]*s[7]*s[10]
    requires c[8] == s[4]*s[9]*s[15] - s[4]*s[11]*s[13] - s[8]*s[5]*s[15] + s[8]*s[7]*s[13] + s[12]*s[5]*s[11] - s[12]*s[7]*s[9]
    requires c[12] == -s[4]*s[9]*s[14] + s[4]*s[10]*s[13] + s[8]*s[5]*s[14] - s[8]*s[6]*s[13] - s[12]*s[5]*s[10] + s[12]*s[6]*s[9]
    requires c[13] == s[0]*s[9]*s[14] - s[0]*s[10]*s[13] - s[8]*s[1]*s[14] + s[8]*s[2]*s[13] + s[12]*s[1]*s[10] - s[12]*s[2]*s[9]
    requires c[14] == -s[0]*s[5]*s[14] + s[0]*s[6]*s[13] + s[4]*s[1]*s[14] - s[4]*s[2]*s[13] - s[12]*s[1]*s[6] + s[12]*s[2]*s[5]
    requires c[15] == s[0]*s[5]*s[10] - s[0]*s[6]*s[9] - s[4]*s[1]*s[10] + s[4]*s[2]*s[9] + s[8]*s[1]*s[6] - s[8]*s[2]*s[5]
    ensures s[3] * c[12] + s[7] * c[13] + s[11] * c[14] + s[15] * c[15] == s[0] * c[0] + s[1] * c[4] + s[2] * c[8] + s[3] * c[12]
  {
    TimesAdjugatePoly15(s[0], s[1], s[2], s[3], s[4], s[5], s[6], s[7], s[8], s[9], s[10], s[11], s[12], s[13], s[14], s[15],
      c[0], c[4], c[8], c[12], c[13], c[14], c[15]);
  }

  lemma TimesAdjugateEntry15(s: seq<real>)
    requires IsMatrix(s)
    ensures MatMul(s, Cofactors(s))[15] == Det(s)
  {
    var c := Cofactors(s);
    assert MatMul(s, Cofactors(s))[15] == s[3] * c[12] + s[7] * c[13] + s[11] * c[14] + s[15] * c[15];
    assert Det(s) == s[0] * c[0] + s[1] * c[4] + s[2] * c[8] + s[3] * c[12];
    CofactorEntries(s);
    TimesAdjugateExpanded15(s, c);
  }

  lemma InverseRightEntry0(s: seq<real>, c: seq<real>, inv: seq<real>, d: real, q: real)
    requires IsMatrix(s) && IsMatrix(c) && IsMatrix(inv) && d * q == 1.0
    requires inv[0] == c[0] * q && inv[1] == c[1] * q && inv[2] == c[2] * q && inv[3] == c[3] * q
    requires MatMul(s, c)[0] == d
    ensures MatMul(s, inv)[0] == 1.0
  {
    ScaleSum(s[0], s[4], s[8], s[12],
             c[0], c[1], c[2], c[3],
             inv[0], inv[1], inv[2], inv[3], q, MatMul(s, c)[0]);
  }

  lemma InverseRightEntry4(s: seq<real>, c: seq<real>, inv: seq<real>, d: real, q: real)
    requires IsMatrix(s) && IsMatrix(c) && IsMatrix(inv) && d * q == 1.0
    requires inv[4] == c[4] * q && inv[5] == c[5] * q && inv[6] == c[6] * q && inv[7] == c[7] * q
    requires MatMul(s, c)[4] == 0.0
    ensures MatMul(s, inv)[4] == 0.0
  {
    ScaleSum(s[0], s[4], s[8], s[12],
             c[4], c[5], c[6], c[7],
             inv[4], inv[5], inv[6], inv[7], q, MatMul(s, c)[4]);
  }

  lemma InverseRightEntry8(s: seq<real>, c: seq<real>, inv: seq<real>, d: real, q: real)
    requires IsMatrix(s) && IsMatrix(c) && IsMatrix(inv) && d * q == 1.0
    requires inv[8] == c[8] * q && inv[9] == c[9] * q && inv[10] == c[10] * q && inv[11] == c[11] * q
    requires MatMul(s, c)[8] == 0.0
    ensures MatMul(s, inv)[8] == 0.0
  {
    ScaleSum(s[0], s[4], s[8], s[12],
             c[8], c[9], c[10], c[11],
             inv[8], inv[9], inv[10], inv[11], q, MatMul(s, c)[8]);
  }

  lemma InverseRightEntry12(s: seq<real>, c: seq<real>, inv: seq<real>, d: real, q: real)
    requires IsMatrix(s) && IsMatrix(c) && IsMatrix(inv) && d * q == 1.0
    requires inv[12] == c[12] * q && inv[13] == c[13] * q && inv[14] == c[14] * q && inv[15] == c[15] * q
    requires MatMul(s, c)[12] == 0.0
    ensures MatMul(s, inv)[12] == 0.0
  {
    ScaleSum(s[0], s[4], s[8], s[12],
             c[12], c[13], c[14], c[15],
             inv[12], inv[13], inv[14], inv[15], q, MatMul(s, c)[12]);
  }

  lemma InverseRightEntry1(s: seq<real>, c: seq<real>, inv: seq<real>, d: real, q: real)
    requires IsMatrix(s) && IsMatrix(c) && IsMatrix(inv) && d * q == 1.0
    requires inv[0] == c[0] * q && inv[1] == c[1] * q && inv[2] == c[2] * q && inv[3] == c[3] * q
    requires MatMul(s, c)[1] == 0.0
    ensures MatMul(s, inv)[1] == 0.0
  {
    ScaleSum(s[1], s[5], s[9], s[13],
             c[0], c[1], c[2], c[3],
             inv[0], inv[1], inv[2], inv[3], q, MatMul(s, c)[1]);
  }

  lemma InverseRightEntry5(s: seq<real>, c: seq<real>, inv: seq<real>, d: real, q: real)
    requires IsMatrix(s) && IsMatrix(c) && IsMatrix(inv) && d * q == 1.0
    requires inv[4] == c[4] * q && inv[5] == c[5] * q && inv[6] == c[6] * q && inv[7] == c[7] * q
    requires MatMul(s, c)[5] == d
    ensures MatMul(s, inv)[5] == 1.0
  {
    ScaleSum(s[1], s[5], s[9], s[13],
             c[4], c[5], c[6], c[7],
             inv[4], inv[5], inv[6], inv[7], q, MatMul(s, c)[5]);
  }

  lemma InverseRightEntry9(s: seq<real>, c: seq<real>, inv: seq<real>, d: real, q: real)
    requires IsMatrix(s) && IsMatrix(c) && IsMatrix(inv) && d * q == 1.0
    requires inv[8] == c[8] * q && inv[9] == c[9] * q && inv[10] == c[10] * q && inv[11] == c[11] * q
    requires MatMul(s, c)[9] == 0.0
    ensures MatMul(s, inv)[9] == 0.0
  {
    ScaleSum(s[1], s[5], s[9], s[13],
             c[8], c[9], c[10], c[11],
             inv[8], inv[9], inv[10], inv[11], q, MatMul(s, c)[9]);
  }

  lemma InverseRightEntry13(s: seq<real>, c: seq<real>, inv: seq<real>, d: real, q: real)
    requires IsMatrix(s) && IsMatrix(c) && IsMatrix(inv) && d * q == 1.0
    requires inv[12] == c[12] * q && inv[13] == c[13] * q && inv[14] == c[14] * q && inv[15] == c[15] * q
    requires MatMul(s, c)[13] == 0.0
    ensures MatMul(s, inv)[13] == 0.0
  {
    ScaleSum(s[1], s[5], s[9], s[13],
             c[12], c[13], c[14], c[15],
             inv[12], inv[13], inv[14], inv[15], q, MatMul(s, c)[13]);
  }

  lemma InverseRightEntry2(s: seq<real>, c: seq<real>, inv: seq<real>, d: real, q: real)
    requires IsMatrix(s) && IsMatrix(c) && IsMatrix(inv) && d * q == 1.0
    requires inv[0] == c[0] * q && inv[1] == c[1] * q && inv[2] == c[2] * q && inv[3] == c[3] * q
    requires MatMul(s, c)[2] == 0.0
    ensures MatMul(s, inv)[2] == 0.0
  {
    ScaleSum(s[2], s[6], s[10], s[14],
             c[0], c[1], c[2], c[3],
             inv[0], inv[1], inv[2], inv[3], q, MatMul(s, c)[2]);
  }

  lemma InverseRightEntry6(s: seq<real>, c: seq<real>, inv: seq<real>, d: real, q: real)
    requires IsMatrix(s) && IsMatrix(c) && IsMatrix(inv) && d * q == 1.0
    requires inv[4] == c[4] * q && inv[5] == c[5] * q && inv[6] == c[6] * q && inv[7] == c[7] * q
    requires MatMul(s, c)[6] == 0.0
    ensures MatMul(s, inv)[6] == 0.0
  {
    ScaleSum(s[2], s[6], s[10], s[14],
             c[4], c[5], c[6], c[7],
             inv[4], inv[5], inv[6], inv[7], q, MatMul(s, c)[6]);
  }

  lemma InverseRightEntry10(s: seq<real>, c: seq<real>, inv: seq<real>, d: real, q: real)
    requires IsMatrix(s) && IsMatrix(c) && IsMatrix(inv) && d * q == 1.0
    requires inv[8] == c[8] * q && inv[9] == c[9] * q && inv[10] == c[10] * q && inv[11] == c[11] * q
    requires MatMul(s, c)[10] == d
    ensures MatMul(s, inv)[10] == 1.0
  {
    ScaleSum(s[2], s[6], s[10], s[14],
             c[8], c[9], c[10], c[11],
             inv[8], inv[9], inv[10], inv[11], q, MatMul(s, c)[10]);
  }

  lemma InverseRightEntry14(s: seq<real>, c: seq<real>, inv: seq<real>, d: real, q: real)
    requires IsMatrix(s) && IsMatrix(c) && IsMatrix(inv) && d * q == 1.0
    requires inv[12] == c[12] * q && inv[13] == c[13] * q && inv[14] == c[14] * q && inv[15] == c[15] * q
    requires MatMul(s, c)[14] == 0.0
    ensures MatMul(s, inv)[14] == 0.0
  {
    ScaleSum(s[2], s[6], s[10], s[14],
             c[12], c[13], c[14], c[15],
             inv[12], inv[13], inv[14], inv[15], q, MatMul(s, c)[14]);
  }

  lemma InverseRightEntry3(s: seq<real>, c: seq<real>, inv: seq<real>, d: real, q: real)
    requires IsMatrix(s) && IsMatrix(c) && IsMatrix(inv) && d * q == 1.0
    requires inv[0] == c[0] * q && inv[1] == c[1] * q && inv[2] == c[2] * q && inv[3] == c[3] * q
    requires MatMul(s, c)[3] == 0.0
    ensures MatMul(s, inv)[3] == 0.0
  {
    ScaleSum(s[3], s[7], s[11], s[15],
             c[0], c[1], c[2], c[3],
             inv[0], inv[1], inv[2], inv[3], q, MatMul(s, c)[3]);
  }

  lemma InverseRightEntry7(s: seq<real>, c: seq<real>, inv: seq<real>, d: real, q: real)
    requires IsMatrix(s) && IsMatrix(c) && IsMatrix(inv) && d * q == 1.0
    requires inv[4] == c[4] * q && inv[5] == c[5] * q && inv[6] == c[6] * q && inv[7] == c[7] * q
    requires MatMul(s, c)[7] == 0.0
    ensures MatMul(s, inv)[7] == 0.0
  {
    ScaleSum(s[3], s[7], s[11], s[15],
             c[4], c[5], c[6], c[7],
             inv[4], inv[5], inv[6], inv[7], q, MatMul(s, c)[7]);
  }

  lemma InverseRightEntry11(s: seq<real>, c: seq<real>, inv: seq<real>, d: real, q: real)
    requires IsMatrix(s) && IsMatrix(c) && IsMatrix(inv) && d * q == 1.0
    requires inv[8] == c[8] * q && inv[9] == c[9] * q && inv[10] == c[10] * q && inv[11] == c[11] * q
    requires MatMul(s, c)[11] == 0.0
    ensures MatMul(s, inv)[11] == 0.0
  {
    ScaleSum(s[3], s[7], s[11], s[15],
             c[8], c[9], c[10], c[11],
             inv[8], inv[9], inv[10], inv[11], q, MatMul(s, c)[11]);
  }

  lemma InverseRightEntry15(s: seq<real>, c: seq<real>, inv: seq<real>, d: real, q: real)
    requires IsMatrix(s) && IsMatrix(c) && IsMatrix(inv) && d * q == 1.0
    requires inv[12] == c[12] * q && inv[13] == c[13] * q && inv[14] == c[14] * q && inv[15] == c[15] * q
    requires MatMul(s, c)[15] == d
    ensures MatMul(s, inv)[15] == 1.0
  {
    ScaleSum(s[3], s[7], s[11], s[15],
             c[12], c[13], c[14], c[15],
             inv[12], inv[13], inv[14], inv[15], q, MatMul(s, c)[15]);
  }

  /** Column 0 of the product is column 0 of the identity. */
  lemma InverseRightColumn0(s: seq<real>)
    requires IsMatrix(s) && Det(s) != 0.0
    ensures MatMul(s, InverseOf(s))[0] == 1.0 && MatMul(s, InverseOf(s))[1] == 0.0 && MatMul(s, InverseOf(s))[2] == 0.0 && MatMul(s, InverseOf(s))[3] == 0.0
  {
    var c, inv, d := Cofactors(s), InverseOf(s), Det(s);
    var q := 1.0 / d;
    assert d * q == 1.0;
    assert inv[0] == c[0] * q && inv[1] == c[1] * q && inv[2] == c[2] * q && inv[3] == c[3] * q;
    TimesAdjugateEntry0(s);
    InverseRightEntry0(s, c, inv, d, q);
    TimesAdjugateEntry1(s);
    InverseRightEntry1(s, c, inv, d, q);
    TimesAdjugateEntry2(s);
    InverseRightEntry2(s, c, inv, d, q);
    TimesAdjugateEntry3(s);
    InverseRightEntry3(s, c, inv, d, q);
  }

  /** Column 1 of the product is column 1 of the identity. */
  lemma InverseRightColumn1(s: seq<real>)
    requires IsMatrix(s) && Det(s) != 0.0
    ensures MatMul(s, InverseOf(s))[4] == 0.0 && MatMul(s, InverseOf(s))[5] == 1.0 && MatMul(s, InverseOf(s))[6] == 0.0 && MatMul(s, InverseOf(s))[7] == 0.0
  {
    var c, inv, d := Cofactors(s), InverseOf(s), Det(s);
    var q := 1.0 / d;
    assert d * q == 1.0;
    assert inv[4] == c[4] * q && inv[5] == c[5] * q && inv[6] == c[6] * q && inv[7] == c[7] * q;
    TimesAdjugateEntry4(s);
    InverseRightEntry4(s, c, inv, d, q);
    TimesAdjugateEntry5(s);
    InverseRightEntry5(s, c, inv, d, q);
    TimesAdjugateEntry6(s);
    InverseRightEntry6(s, c, inv, d, q);
    TimesAdjugateEntry7(s);
    InverseRightEntry7(s, c, inv, d, q);
  }

  /** Column 2 of the product is column 2 of the identity. */
  lemma InverseRightColumn2(s: seq<real>)
    requires IsMatrix(s) && Det(s) != 0.0
    ensures MatMul(s, InverseOf(s))[8] == 0.0 && MatMul(s, InverseOf(s))[9] == 0.0 && MatMul(s, InverseOf(s))[10] == 1.0 && MatMul(s, InverseOf(s))[11] == 0.0
  {
    var c, inv, d := Cofactors(s), InverseOf(s), Det(s);
    var q := 1.0 / d;
    assert d * q == 1.0;
    assert inv[8] == c[8] * q && inv[9] == c[9] * q && inv[10] == c[10] * q && inv[11] == c[11] * q;
    TimesAdjugateEntry8(s);
    InverseRightEntry8(s, c, inv, d, q);
    TimesAdjugateEntry9(s);
    InverseRightEntry9(s, c, inv, d, q);
    TimesAdjugateEntry10(s);
    InverseRightEntry10(s, c, inv, d, q);
    TimesAdjugateEntry11(s);
    InverseRightEntry11(s, c, inv, d, q);
  }

  /** Column 3 of the product is column 3 of the identity. */
  lemma InverseRightColumn3(s: seq<real>)
    requires IsMatrix(s) && Det(s) != 0.0
    ensures MatMul(s, InverseOf(s))[12] == 0.0 && MatMul(s, InverseOf(s))[13] == 0.0 && MatMul(s, InverseOf(s))[14] == 0.0 && MatMul(s, InverseOf(s))[15] == 1.0
  {
    var c, inv, d := Cofactors(s), InverseOf(s), Det(s);
    var q := 1.0 / d;
    assert d * q == 1.0;
    assert inv[12] == c[12] * q && inv[13] == c[13] * q && inv[14] == c[14] * q && inv[15] == c[15] * q;
    TimesAdjugateEntry12(s);
    InverseRightEntry12(s, c, inv, d, q);
    TimesAdjugateEntry13(s);
    InverseRightEntry13(s, c, inv, d, q);
    TimesAdjugateEntry14(s);
    InverseRightEntry14(s, c, inv, d, q);
    TimesAdjugateEntry15(s);
    InverseRightEntry15(s, c, inv, d, q);
  }

  lemma InverseRight(s: seq<real>)
    requires IsMatrix(s) && Det(s) != 0.0
    ensures MatMul(s, InverseOf(s)) == Identity()
  {
    InverseRightColumn0(s);
    InverseRightColumn1(s);
    InverseRightColumn2(s);
    InverseRightColumn3(s);
    SameEntries(MatMul(s, InverseOf(s)), Identity());
  }

  lemma AdjugateTimesPoly0(x0: real, x1: real, x2: real, x3: real, x4: real, x5: real, x6: real, x7: real, x8: real, x9: real, x10: real, x11: real, x12: real, x13: real, x14: real, x15: real, c0: real, c4: real, c8: real, c12: real)
    requires c0 == x5*x10*x15 - x5*x11*x14 - x9*x6*x15 + x9*x7*x14 + x13*x6*x11 - x13*x7*x10
    requires c4 == -x4*x10*x15 + x4*x11*x14 + x8*x6*x15 - x8*x7*x14 - x12*x6*x11 + x12*x7*x10
    requires c8 == x4*x9*x15 - x4*x11*x13 - x8*x5*x15 + x8*x7*x13 + x12*x5*x11 - x12*x7*x9
    requires c12 == -x4*x9*x14 + x4*x10*x13 + x8*x5*x14 - x8*x6*x13 - x12*x5*x10 + x12*x6*x9
    ensures c0 * x0 + c4 * x1 + c8 * x2 + c12 * x3 == x0 * c0 + x1 * c4 + x2 * c8 + x3 * c12
  {
  }

  lemma AdjugateTimesExpanded0(s: seq<real>, c: seq<real>)
    requires IsMatrix(s) && IsMatrix(c)
    requires c[0] == s[5]*s[10]*s[15] - s[5]*s[11]*s[14] - s[9]*s[6]*s[15] + s[9]*s[7]*s[14] + s[13]*s[6]*s[11] - s[13]*s[7]*s[10]
    requires c[4] == -s[4]*s[10]*s[15] + s[4]*s[11]*s[14] + s[8]*s[6]*s[15] - s[8]*s[7]*s[14] - s[12]*s[6]*s[11] + s[12]*s[7]*s[10]
    requires c[8] == s[4]*s[9]*s[15] - s[4]*s[11]*s[13] - s[8]*s[5]*s[15] + s[8]*s[7]*s[13] + s[12]*s[5]*s[11] - s[12]*s[7]*s[9]
    requires c[12] == -s[4]*s[9]*s[14] + s[4]*s[10]*s[13] + s[8]*s[5]*s[14] - s[8]*s[6]*s[13] - s[12]*s[5]*s[10] + s[12]*s[6]*s[9]
    ensures c[0] * s[0] + c[4] * s[1] + c[8] * s[2] + c[12] * s[3] == s[0] * c[0] + s[1] * c[4] + s[2] * c[8] + s[3] * c[12]
  {
    AdjugateTimesPoly0(s[0], s[1], s[2], s[3], s[4], s[5], s[6], s[7], s[8], s[9], s[10], s[11], s[12], s[13], s[14], s[15],
      c[0], c[4], c[8], c[12]);
  }

  lemma AdjugateTimesEntry0(s: seq<real>)
    requires IsMatrix(s)
    ensures MatMul(Cofactors(s), s)[0] == Det(s)
  {
    var c := Cofactors(s);
    assert MatMul(Cofactors(s), s)[0] == c[0] * s[0] + c[4] * s[1] + c[8] * s[2] + c[12] * s[3];
    assert Det(s) == s[0] * c[0] + s[1] * c[4] + s[2] * c[8] + s[3] * c[12];
    CofactorEntries(s);
    AdjugateTimesExpanded0(s, c);
  }

  lemma AdjugateTimesPoly4(x0: real, x1: real, x2: real, x3: real, x4: real, x5: real, x6: real, x7: real, x8: real, x9: real, x10: real, x11: real, x12: real, x13: real, x14: real, x15: real, c0: real, c4: real, c8: real, c12: real)
    requires c0 == x5*x10*x15 - x5*x11*x14 - x9*x6*x15 + x9*x7*x14 + x13*x6*x11 - x13*x7*x10
    requires c4 == -x4*x10*x15 + x4*x11*x14 + x8*x6*x15 - x8*x7*x14 - x12*x6*x11 + x12*x7*x10
    requires c8 == x4*x9*x15 - x4*x11*x13 - x8*x5*x15 + x8*x7*x13 + x12*x5*x11 - x12*x7*x9
    requires c12 == -x4*x9*x14 + x4*x10*x13 + x8*x5*x14 - x8*x6*x13 - x12*x5*x10 + x12*x6*x9
    ensures c0 * x4 + c4 * x5 + c8 * x6 + c12 * x7 == 0.0
  {
  }

  lemma AdjugateTimesExpanded4(s: seq<real>, c: seq<real>)
    requires IsMatrix(s) && IsMatrix(c)
    requires c[0] == s[5]*s[10]*s[15] - s[5]*s[11]*s[14] - s[9]*s[6]*s[15] + s[9]*s[7]*s[14] + s[13]*s[6]*s[11] - s[13]*s[7]*s[10]
    requires c[4] == -s[4]*s[10]*s[15] + s[4]*s[11]*s[14] + s[8]*s[6]*s[15] - s[8]*s[7]*s[14] - s[12]*s[6]*s[11] + s[12]*s[7]*s[10]
    requires c[8] == s[4]*s[9]*s[15] - s[4]*s[11]*s[13] - s[8]*s[5]*s[15] + s[8]*s[7]*s[13] + s[12]*s[5]*s[11] - s[12]*s[7]*s[9]
    requires c[12] == -s[4]*s[9]*s[14] + s[4]*s[10]*s[13] + s[8]*s[5]*s[14] - s[8]*s[6]*s[13] - s[12]*s[5]*s[10] + s[12]*s[6]*s[9]
    ensures c[0] * s[4] + c[4] * s[5] + c[8] * s[6] + c[12] * s[7] == 0.0
  {
    AdjugateTimesPoly4(s[0], s[1], s[2], s[3], s[4], s[5], s[6], s[7], s[8], s[9], s[10], s[11], s[12], s[13], s[14], s[15],
      c[0], c[4], c[8], c[12]);
  }

  lemma AdjugateTimesEntry4(s: seq<real>)
    requires IsMatrix(s)
    ensures MatMul(Cofactors(s), s)[4] == 0.0
  {
    var c := Cofactors(s);
    assert MatMul(Cofactors(s), s)[4] == c[0] * s[4] + c[4] * s[5] + c[8] * s[6] + c[12] * s[7];
    assert Det(s) == s[0] * c[0] + s[1] * c[4] + s[2] * c[8] + s[3] * c[12];
    CofactorEntries(s);
    AdjugateTimesExpanded4(s, c);
  }

  lemma AdjugateTimesPoly8(x0: real, x1: real, x2: real, x3: real, x4: real, x5: real, x6: real, x7: real, x8: real, x9: real, x10: real, x11: real, x12: real, x13: real, x14: real, x15: real, c0: real, c4: real, c8: real, c12: real)
    requires c0 == x5*x10*x15 - x5*x11*x14 - x9*x6*x15 + x9*x7*x14 + x13*x6*x11 - x13*x7*x10
    requires c4 == -x4*x10*x15 + x4*x11*x14 + x8*x6*x15 - x8*x7*x14 - x12*x6*x11 + x12*x7*x10
    requires c8 == x4*x9*x15 - x4*x11*x13 - x8*x5*x15 + x8*x7*x13 + x12*x5*x11 - x12*x7*x9
    requires c12 == -x4*x9*x14 + x4*x10*x13 + x8*x5*x14 - x8*x6*x13 - x12*x5*x10 + x12*x6*x9
    ensures c0 * x8 + c4 * x9 + c8 * x10 + c12 * x11 == 0.0
  {
  }

  lemma AdjugateTimesExpanded8(s: seq<real>, c: seq<real>)
    requires IsMatrix(s) && IsMatrix(c)
    requires c[0] == s[5]*s[10]*s[15] - s[5]*s[11]*s[14] - s[9]*s[6]*s[15] + s[9]*s[7]*s[14] + s[13]*s[6]*s[11] - s[13]*s[7]*s[10]
    requires c[4] == -s[4]*s[10]*s[15] + s[4]*s[11]*s[14] + s[8]*s[6]*s[15] - s[8]*s[7]*s[14] - s[12]*s[6]*s[11] + s[12]*s[7]*s[10]
    requires c[8] == s[4]*s[9]*s[15] - s[4]*s[11]*s[13] - s[8]*s[5]*s[15] + s[8]*s[7]*s[13] + s[12]*s[5]*s[11] - s[12]*s[7]*s[9]
    requires c[12] == -s[4]*s[9]*s[14] + s[4]*s[10]*s[13] + s[8]*s[5]*s[14] - s[8]*s[6]*s[13] - s[12]*s[5]*s[10] + s[12]*s[6]*s[9]
    ensures c[0] * s[8] + c[4] * s[9] + c[8] * s[10] + c[12] * s[11] == 0.0
  {
    AdjugateTimesPoly8(s[0], s[1], s[2], s[3], s[4], s[5], s[6], s[7], s[8], s[9], s[10], s[11], s[12], s[13], s[14], s[15],
      c[0], c[4], c[8], c[12]);
  }

  lemma AdjugateTimesEntry8(s: seq<real>)
    requires IsMatrix(s)
    ensures MatMul(Cofactors(s), s)[8] == 0.0
  {
    var c := Cofactors(s);
    assert MatMul(Cofactors(s), s)[8] == c[0] * s[8] + c[4] * s[9] + c[8] * s[10] + c[12] * s[11];
    assert Det(s) == s[0] * c[0] + s[1] * c[4] + s[2] * c[8] + s[3] * c[12];
    CofactorEntries(s);
    AdjugateTimesExpanded8(s, c);
  }

  lemma AdjugateTimesPoly12(x0: real, x1: real, x2: real, x3: real, x4: real, x5: real, x6: real, x7: real, x8: real, x9: real, x10: real, x11: real, x12: real, x13: real, x14: real, x15: real, c0: real, c4: real, c8: real, c12: real)
    requires c0 == x5*x10*x15 - x5*x11*x14 - x9*x6*x15 + x9*x7*x14 + x13*x6*x11 - x13*x7*x10
    requires c4 == -x4*x10*x15 + x4*x11*x14 + x8*x6*x15 - x8*x7*x14 - x12*x6*x11 + x12*x7*x10
    requires c8 == x4*x9*x15 - x4*x11*x13 - x8*x5*x15 + x8*x7*x13 + x12*x5*x11 - x12*x7*x9
    requires c12 == -x4*x9*x14 + x4*x10*x13 + x8*x5*x14 - x8*x6*x13 - x12*x5*x10 + x12*x6*x9
    ensures c0 * x12 + c4 * x13 + c8 * x14 + c12 * x15 == 0.0
  {
  }

  lemma AdjugateTimesExpanded12(s: seq<real>, c: seq<real>)
    requires IsMatrix(s) && IsMatrix(c)
    requires c[0] == s[5]*s[10]*s[15] - s[5]*s[11]*s[14] - s[9]*s[6]*s[15] + s[9]*s[7]*s[14] + s[13]*s[6]*s[11] - s[13]*s[7]*s[10]
    requires c[4] == -s[4]*s[10]*s[15] + s[4]*s[11]*s[14] + s[8]*s[6]*s[15] - s[8]*s[7]*s[14] - s[12]*s[6]*s[11] + s[12]*s[7]*s[10]
    requires c[8] == s[4]*s[9]*s[15] - s[4]*s[11]*s[13] - s[8]*s[5]*s[15] + s[8]*s[7]*s[13] + s[12]*s[5]*s[11] - s[12]*s[7]*s[9]
    requires c[12] == -s[4]*s[9]*s[14] + s[4]*s[10]*s[13] + s[8]*s[5]*s[14] - s[8]*s[6]*s[13] - s[12]*s[5]*s[10] + s[12]*s[6]*s[9]
    ensures c[0] * s[12] + c[4] * s[13] + c[8] * s[14] + c[12] * s[15] == 0.0
  {
    AdjugateTimesPoly12(s[0], s[1], s[2], s[3], s[4], s[5], s[6], s[7], s[8], s[9], s[10], s[11], s[12], s[13], s[14], s[15],
      c[0], c[4], c[8], c[12]);
  }

  lemma AdjugateTimesEntry12(s: seq<real>)
    requires IsMatrix(s)
    ensures MatMul(Cofactors(s), s)[12] == 0.0
  {
    var c := Cofactors(s);
    assert MatMul(Cofactors(s), s)[12] == c[0] * s[12] + c[4] * s[13] + c[8] * s[14] + c[12] * s[15];
    assert Det(s) == s[0] * c[0] + s[1] * c[4] + s[2] * c[8] + s[3] * c[12];
    CofactorEntries(s);
    AdjugateTimesExpanded12(s, c);
  }

  lemma AdjugateTimesPoly1(x0: real, x1: real, x2: real, x3: real, x4: real, x5: real, x6: real, x7: real, x8: real, x9: real, x10: real, x11: real, x12: real, x13: real, x14: real, x15: real, c0: real, c1: real, c4: real, c5: real, c8: real, c9: real, c12: real, c13: real)
    requires c0 == x5*x10*x15 - x5*x11*x14 - x9*x6*x15 + x9*x7*x14 + x13*x6*x11 - x13*x7*x10
    requires c1 == -x1*x10*x15 + x1*x11*x14 + x9*x2*x15 - x9*x3*x14 - x13*x2*x11 + x13*x3*x10
    requires c4 == -x4*x10*x15 + x4*x11*x14 + x8*x6*x15 - x8*x7*x14 - x12*x6*x11 + x12*x7*x10
    requires c5 == x0*x10*x15 - x0*x11*x14 - x8*x2*x15 + x8*x3*x14 + x12*x2*x11 - x12*x3*x10
    requires c8 == x4*x9*x15 - x4*x11*x13 - x8*x5*x15 + x8*x7*x13 + x12*x5*x11 - x12*x7*x9
    requires c9 == -x0*x9*x15 + x0*x11*x13 + x8*x1*x15 - x8*x3*x13 - x12*x1*x11 + x12*x3*x9
    requires c12 == -x4*x9*x14 + x4*x10*x13 + x8*x5*x14 - x8*x6*x13 - x12*x5*x10 + x12*x6*x9
    requires c13 == x0*x9*x14 - x0*x10*x13 - x8*x1*x14 + x8*x2*x13 + x12*x1*x10 - x12*x2*x9
    ensures c1 * x0 + c5 * x1 + c9 * x2 + c13 * x3 == 0.0
  {
  }

  lemma AdjugateTimesExpanded1(s: seq<real>, c: seq<real>)
    requires IsMatrix(s) && IsMatrix(c)
    requires c[0] == s[5]*s[10]*s[15] - s[5]*s[11]*s[14] - s[9]*s[6]*s[15] + s[9]*s[7]*s[14] + s[13]*s[6]*s[11] - s[13]*s[7]*s[10]
    requires c[1] == -s[1]*s[10]*s[15] + s[1]*s[11]*s[14] + s[9]*s[2]*s[15] - s[9]*s[3]*s[14] - s[13]*s[2]*s[11] + s[13]*s[3]*s[10]
    requires c[4] == -s[4]*s[10]*s[15] + s[4]*s[11]*s[14] + s[8]*s[6]*s[15] - s[8]*s[7]*s[14] - s[12]*s[6]*s[11] + s[12]*s[7]*s[10]
    requires c[5] == s[0]*s[10]*s[15] - s[0]*s[11]*s[14] - s[8]*s[2]*s[15] + s[8]*s[3]*s[14] + s[12]*s[2]*s[11] - s[12]*s[3]*s[10]
    requires c[8] == s[4]*s[9]*s[15] - s[4]*s[11]*s[13] - s[8]*s[5]*s[15] + s[8]*s[7]*s[13] + s[12]*s[5]*s[11] - s[12]*s[7]*s[9]
    requires c[9] == -s[0]*s[9]*s[15] + s[0]*s[11]*s[13] + s[8]*s[1]*s[15] - s[8]*s[3]*s[13] - s[12]*s[1]*s[11] + s[12]*s[3]*s[9]
    requires c[12] == -s[4]*s[9]*s[14] + s[4]*s[10]*s[13] + s[8]*s[5]*s[14] - s[8]*s[6]*s[13] - s[12]*s[5]*s[10] + s[12]*s[6]*s[9]
    requires c[13] == s[0]*s[9]*s[14] - s[0]*s[10]*s[13] - s[8]*s[1]*s[14] + s[8]*s[2]*s[13] + s[12]*s[1]*s[10] - s[12]*s[2]*s[9]
    ensures c[1] * s[0] + c[5] * s[1] + c[9] * s[2] + c[13] * s[3] == 0.0
  {
    AdjugateTimesPoly1(s[0], s[1], s[2], s[3], s[4], s[5], s[6], s[7], s[8], s[9], s[10], s[11], s[12], s[13], s[14], s[15],
      c[0], c[1], c[4], c[5], c[8], c[9], c[12], c[13]);
  }

  lemma AdjugateTimesEntry1(s: seq<real>)
    requires IsMatrix(s)
    ensures MatMul(Cofactors(s), s)[1] == 0.0
  {
    var c := Cofactors(s);
    assert MatMul(Cofactors(s), s)[1] == c[1] * s[0] + c[5] * s[1] + c[9] * s[2] + c[13] * s[3];
    assert Det(s) == s[0] * c[0] + s[1] * c[4] + s[2] * c[8] + s[3] * c[12];
    CofactorEntries(s);
    AdjugateTimesExpanded1(s, c);
  }

  lemma AdjugateTimesPoly5(x0: real, x1: real, x2: real, x3: real, x4: real, x5: real, x6: real, x7: real, x8: real, x9: real, x10: real, x11: real, x12: real, x13: real, x14: real, x15: real, c0: real, c1: real, c4: real, c5: real, c8: real, c9: real, c12: real, c13: real)
    requires c0 == x5*x10*x15 - x5*x11*x14 - x9*x6*x15 + x9*x7*x14 + x13*x6*x11 - x13*x7*x10
    requires c1 == -x1*x10*x15 + x1*x11*x14 + x9*x2*x15 - x9*x3*x14 - x13*x2*x11 + x13*x3*x10
    requires c4 == -x4*x10*x15 + x4*x11*x14 + x8*x6*x15 - x8*x7*x14 - x12*x6*x11 + x12*x7*x10
    requires c5 == x0*x10*x15 - x0*x11*x14 - x8*x2*x15 + x8*x3*x14 + x12*x2*x11 - x12*x3*x10
    requires c8 == x4*x9*x15 - x4*x11*x13 - x8*x5*x15 + x8*x7*x13 + x12*x5*x11 - x12*x7*x9
    requires c9 == -x0*x9*x15 + x0*x11*x13 + x8*x1*x15 - x8*x3*x13 - x12*x1*x11 + x12*x3*x9
    requires c12 == -x4*x9*x14 + x4*x10*x13 + x8*x5*x14 - x8*x6*x13 - x12*x5*x10 + x12*x6*x9
    requires c13 == x0*x9*x14 - x0*x10*x13 - x8*x1*x14 + x8*x2*x13 + x12*x1*x10 - x12*x2*x9
    ensures c1 * x4 + c5 * x5 + c9 * x6 + c13 * x7 == x0 * c0 + x1 * c4 + x2 * c8 + x3 * c12
  {
  }

  lemma AdjugateTimesExpanded5(s: seq<real>, c: seq<real>)
    requires IsMatrix(s) && IsMatrix(c)
    requires c[0] == s[5]*s[10]*s[15] - s[5]*s[11]*s[14] - s[9]*s[6]*s[15] + s[9]*s[7]*s[14] + s[13]*s[6]*s[11] - s[13]*s[7]*s[10]
    requires c[1] == -s[1]*s[10]*s[15] + s[1]*s[11]*s[14] + s[9]*s[2]*s[15] - s[9]*s[3]*s[14] - s[13]*s[2]*s[11] + s[13]*s[3]*s[10]
    requires c[4] == -s[4]*s[10]*s[15] + s[4]*s[11]*s[14] + s[8]*s[6]*s[15] - s[8]*s[7]*s[14] - s[12]*s[6]*s[11] + s[12]*s[7]*s[10]
    requires c[5] == s[0]*s[10]*s[15] - s[0]*s[11]*s[14] - s[8]*s[2]*s[15] + s[8]*s[3]*s[14] + s[12]*s[2]*s[11] - s[12]*s[3]*s[10]
    requires c[8] == s[4]*s[9]*s[15] - s[4]*s[11]*s[13] - s[8]*s[5]*s[15] + s[8]*s[7]*s[13] + s[12]*s[5]*s[11] - s[12]*s[7]*s[9]
    requires c[9] == -s[0]*s[9]*s[15] + s[0]*s[11]*s[13] + s[8]*s[1]*s[15] - s[8]*s[3]*s[13] - s[12]*s[1]*s[11] + s[12]*s[3]*s[9]
    requires c[12] == -s[4]*s[9]*s[14] + s[4]*s[10]*s[13] + s[8]*s[5]*s[14] - s[8]*s[6]*s[13] - s[12]*s[5]*s[10] + s[12]*s[6]*s[9]
    requires c[13] == s[0]*s[9]*s[14] - s[0]*s[10]*s[13] - s[8]*s[1]*s[14] + s[8]*s[2]*s[13] + s[12]*s[1]*s[10] - s[12]*s[2]*s[9]
    ensures c[1] * s[4] + c[5] * s[5] + c[9] * s[6] + c[13] * s[7] == s[0] * c[0] + s[1] * c[4] + s[2] * c[8] + s[3] * c[12]
  {
    AdjugateTimesPoly5(s[0], s[1], s[2], s[3], s[4], s[5], s[6], s[7], s[8], s[9], s[10], s[11], s[12], s[13], s[14], s[15],
      c[0], c[1], c[4], c[5], c[8], c[9], c[12], c[13]);
  }

  lemma AdjugateTimesEntry5(s: seq<real>)
    requires IsMatrix(s)
    ensures MatMul(Cofactors(s), s)[5] == Det(s)
  {
    var c := Cofactors(s);
    assert MatMul(Cofactors(s), s)[5] == c[1] * s[4] + c[5] * s[5] + c[9] * s[6] + c[13] * s[7];
    assert Det(s) == s[0] * c[0] + s[1] * c[4] + s[2] * c[8] + s[3] * c[12];
    CofactorEntries(s);
    AdjugateTimesExpanded5(s, c);
  }

  lemma AdjugateTimesPoly9(x0: real, x1: real, x2: real, x3: real, x4: real, x5: real, x6: real, x7: real, x8: real, x9: real, x10: real, x11: real, x12: real, x13: real, x14: real, x15: real, c0: real, c1: real, c4: real, c5: real, c8: real, c9: real, c12: real, c13: real)
    requires c0 == x5*x10*x15 - x5*x11*x14 - x9*x6*x15 + x9*x7*x14 + x13*x6*x11 - x13*x7*x10
    requires c1 == -x1*x10*x15 + x1*x11*x14 + x9*x2*x15 - x9*x3*x14 - x13*x2*x11 + x13*x3*x10
    requires c4 == -x4*x10*x15 + x4*x11*x14 + x8*x6*x15 - x8*x7*x14 - x12*x6*x11 + x12*x7*x10
    requires c5 == x0*x10*x15 - x0*x11*x14 - x8*x2*x15 + x8*x3*x14 + x12*x2*x11 - x12*x3*x10
    requires c8 == x4*x9*x15 - x4*x11*x13 - x8*x5*x15 + x8*x7*x13 + x12*x5*x11 - x12*x7*x9
    requires c9 == -x0*x9*x15 + x0*x11*x13 + x8*x1*x15 - x8*x3*x13 - x12*x1*x11 + x12*x3*x9
    requires c12 == -x4*x9*x14 + x4*x10*x13 + x8*x5*x14 - x8*x6*x13 - x12*x5*x10 + x12*x6*x9
    requires c13 == x0*x9*x14 - x0*x10*x13 - x8*x1*x14 + x8*x2*x13 + x12*x1*x10 - x12*x2*x9
    ensures c1 * x8 + c5 * x9 + c9 * x10 + c13 * x11 == 0.0
  {
  }

  lemma AdjugateTimesExpanded9(s: seq<real>, c: seq<real>)
    requires IsMatrix(s) && IsMatrix(c)
    requires c[0] == s[5]*s[10]*s[15] - s[5]*s[11]*s[14] - s[9]*s[6]*s[15] + s[9]*s[7]*s[14] + s[13]*s[6]*s[11] - s[13]*s[7]*s[10]
    requires c[1] == -s[1]*s[10]*s[15] + s[1]*s[11]*s[14] + s[9]*s[2]*s[15] - s[9]*s[3]*s[14] - s[13]*s[2]*s[11] + s[13]*s[3]*s[10]
    requires c[4] == -s[4]*s[10]*s[15] + s[4]*s[11]*s[14] + s[8]*s[6]*s[15] - s[8]*s[7]*s[14] - s[12]*s[6]*s[11] + s[12]*s[7]*s[10]
    requires c[5] == s[0]*s[10]*s[15] - s[0]*s[11]*s[14] - s[8]*s[2]*s[15] + s[8]*s[3]*s[14] + s[12]*s[2]*s[11] - s[12]*s[3]*s[10]
    requires c[8] == s[4]*s[9]*s[15] - s[4]*s[11]*s[13] - s[8]*s[5]*s[15] + s[8]*s[7]*s[13] + s[12]*s[5]*s[11] - s[12]*s[7]*s[9]
    requires c[9] == -s[0]*s[9]*s[15] + s[0]*s[11]*s[13] + s[8]*s[1]*s[15] - s[8]*s[3]*s[13] - s[12]*s[1]*s[11] + s[12]*s[3]*s[9]
    requires c[12] == -s[4]*s[9]*s[14] + s[4]*s[10]*s[13] + s[8]*s[5]*s[14] - s[8]*s[6]*s[13] - s[12]*s[5]*s[10] + s[12]*s[6]*s[9]
    requires c[13] == s[0]*s[9]*s[14] - s[0]*s[10]*s[13] - s[8]*s[1]*s[14] + s[8]*s[2]*s[13] + s[12]*s[1]*s[10] - s[12]*s[2]*s[9]
    ensures c[1] * s[8] + c[5] * s[9] + c[9] * s[10] + c[13] * s[11] == 0.0
  {
    AdjugateTimesPoly9(s[0], s[1], s[2], s[3], s[4], s[5], s[6], s[7], s[8], s[9], s[10], s[11], s[12], s[13], s[14], s[15],
      c[0], c[1], c[4], c[5], c[8], c[9], c[12], c[13]);
  }

  lemma AdjugateTimesEntry9(s: seq<real>)
    requires IsMatrix(s)
    ensures MatMul(Cofactors(s), s)[9] == 0.0
  {
    var c := Cofactors(s);
    assert MatMul(Cofactors(s), s)[9] == c[1] * s[8] + c[5] * s[9] + c[9] * s[10] + c[13] * s[11];
    assert Det(s) == s[0] * c[0] + s[1] * c[4] + s[2] * c[8] + s[3] * c[12];
    CofactorEntries(s);
    AdjugateTimesExpanded9(s, c);
  }

  lemma AdjugateTimesPoly13(x0: real, x1: real, x2: real, x3: real, x4: real, x5: real, x6: real, x7: real, x8: real, x9: real, x10: real, x11: real, x12: real, x13: real, x14: real, x15: real, c0: real, c1: real, c4: real, c5: real, c8: real, c9: real, c12: real, c13: real)
    requires c0 == x5*x10*x15 - x5*x11*x14 - x9*x6*x15 + x9*x7*x14 + x13*x6*x11 - x13*x7*x10
    requires c1 == -x1*x10*x15 + x1*x11*x14 + x9*x2*x15 - x9*x3*x14 - x13*x2*x11 + x13*x3*x10
    requires c4 == -x4*x10*x15 + x4*x11*x14 + x8*x6*x15 - x8*x7*x14 - x12*x6*x11 + x12*x7*x10
    requires c5 == x0*x10*x15 - x0*x11*x14 - x8*x2*x15 + x8*x3*x14 + x12*x2*x11 - x12*x3*x10
    requires c8 == x4*x9*x15 - x4*x11*x13 - x8*x5*x15 + x8*x7*x13 + x12*x5*x11 - x12*x7*x9
    requires c9 == -x0*x9*x15 + x0*x11*x13 + x8*x1*x15 - x8*x3*x13 - x12*x1*x11 + x12*x3*x9
    requires c12 == -x4*x9*x14 + x4*x10*x13 + x8*x5*x14 - x8*x6*x13 - x12*x5*x10 + x12*x6*x9
    requires c13 == x0*x9*x14 - x0*x10*x13 - x8*x1*x14 + x8*x2*x13 + x12*x1*x10 - x12*x2*x9
    ensures c1 * x12 + c5 * x13 + c9 * x14 + c13 * x15 == 0.0
  {
  }

  lemma AdjugateTimesExpanded13(s: seq<real>, c: seq<real>)
    requires IsMatrix(s) && IsMatrix(c)
    requires c[0] == s[5]*s[10]*s[15] - s[5]*s[11]*s[14] - s[9]*s[6]*s[15] + s[9]*s[7]*s[14] + s[13]*s[6]*s[11] - s[13]*s[7]*s[10]
    requires c[1] == -s[1]*s[10]*s[15] + s[1]*s[11]*s[14] + s[9]*s[2]*s[15] - s[9]*s[3]*s[14] - s[13]*s[2]*s[11] + s[13]*s[3]*s[10]
    requires c[4] == -s[4]*s[10]*s[15] + s[4]*s[11]*s[14] + s[8]*s[6]*s[15] - s[8]*s[7]*s[14] - s[12]*s[6]*s[11] + s[12]*s[7]*s[10]
    requires c[5] == s[0]*s[10]*s[15] - s[0]*s[11]*s[14] - s[8]*s[2]*s[15] + s[8]*s[3]*s[14] + s[12]*s[2]*s[11] - s[12]*s[3]*s[10]
    requires c[8] == s[4]*s[9]*s[15] - s[4]*s[11]*s[13] - s[8]*s[5]*s[15] + s[8]*s[7]*s[13] + s[12]*s[5]*s[11] - s[12]*s[7]*s[9]
    requires c[9] == -s[0]*s[9]*s[15] + s[0]*s[11]*s[13] + s[8]*s[1]*s[15] - s[8]*s[3]*s[13] - s[12]*s[1]*s[11] + s[12]*s[3]*s[9]
    requires c[12] == -s[4]*s[9]*s[14] + s[4]*s[10]*s[13] + s[8]*s[5]*s[14] - s[8]*s[6]*s[13] - s[12]*s[5]*s[10] + s[12]*s[6]*s[9]
    requires c[13] == s[0]*s[9]*s[14] - s[0]*s[10]*s[13] - s[8]*s[1]*s[14] + s[8]*s[2]*s[13] + s[12]*s[1]*s[10] - s[12]*s[2]*s[9]
    ensures c[1] * s[12] + c[5] * s[13] + c[9] * s[14] + c[13] * s[15] == 0.0
  {
    AdjugateTimesPoly13(s[0], s[1], s[2], s[3], s[4], s[5], s[6], s[7], s[8], s[9], s[10], s[11], s[12], s[13], s[14], s[15],
      c[0], c[1], c[4], c[5], c[8], c[9], c[12], c[13]);
  }

  lemma AdjugateTimesEntry13(s: seq<real>)
    requires IsMatrix(s)
    ensures MatMul(Cofactors(s), s)[13] == 0.0
  {
    var c := Cofactors(s);
    assert MatMul(Cofactors(s), s)[13] == c[1] * s[12] + c[5] * s[13] + c[9] * s[14] + c[13] * s[15];
    assert Det(s) == s[0] * c[0] + s[1] * c[4] + s[2] * c[8] + s[3] * c[12];
    CofactorEntries(s);
    AdjugateTimesExpanded13(s, c);
  }

  lemma AdjugateTimesPoly2(x0: real, x1: real, x2: real, x3: real, x4: real, x5: real, x6: real, x7: real, x8: real, x9: real, x10: real, x11: real, x12: real, x13: real, x14: real, x15: real, c0: real, c2: real, c4: real, c6: real, c8: real, c10: real, c12: real, c14: real)
    requires c0 == x5*x10*x15 - x5*x11*x14 - x9*x6*x15 + x9*x7*x14 + x13*x6*x11 - x13*x7*x10
    requires c2 == x1*x6*x15 - x1*x7*x14 - x5*x2*x15 + x5*x3*x14 + x13*x2*x7 - x13*x3*x6
    requires c4 == -x4*x10*x15 + x4*x11*x14 + x8*x6*x15 - x8*x7*x14 - x12*x6*x11 + x12*x7*x10
    requires c6 == -x0*x6*x15 + x0*x7*x14 + x4*x2*x15 - x4*x3*x14 - x12*x2*x7 + x12*x3*x6
    requires c8 == x4*x9*x15 - x4*x11*x13 - x8*x5*x15 + x8*x7*x13 + x12*x5*x11 - x12*x7*x9
    requires c10 == x0*x5*x15 - x0*x7*x13 - x4*x1*x15 + x4*x3*x13 + x12*x1*x7 - x12*x3*x5
    requires c12 == -x4*x9*x14 + x4*x10*x13 + x8*x5*x14 - x8*x6*x13 - x12*x5*x10 + x12*x6*x9
    requires c14 == -x0*x5*x14 + x0*x6*x13 + x4*x1*x14 - x4*x2*x13 - x12*x1*x6 + x12*x2*x5
    ensures c2 * x0 + c6 * x1 + c10 * x2 + c14 * x3 == 0.0
  {
  }

  lemma AdjugateTimesExpanded2(s: seq<real>, c: seq<real>)
    requires IsMatrix(s) && IsMatrix(c)
    requires c[0] == s[5]*s[10]*s[15] - s[5]*s[11]*s[14] - s[9]*s[6]*s[15] + s[9]*s[7]*s[14] + s[13]*s[6]*s[11] - s[13]*s[7]*s[10]
    requires c[2] == s[1]*s[6]*s[15] - s[1]*s[7]*s[14] - s[5]*s[2]*s[15] + s[5]*s[3]*s[14] + s[13]*s[2]*s[7] - s[13]*s[3]*s[6]
    requires c[4] == -s[4]*s[10]*s[15] + s[4]*s[11]*s[14] + s[8]*s[6]*s[15] - s[8]*s[7]*s[14] - s[12]*s[6]*s[11] + s[12]*s[7]*s[10]
    requires c[6] == -s[0]*s[6]*s[15] + s[0]*s[7]*s[14] + s[4]*s[2]*s[15] - s[4]*s[3]*s[14] - s[12]*s[2]*s[7] + s[12]*s[3]*s[6]
    requires c[8] == s[4]*s[9]*s[15] - s[4]*s[11]*s[13] - s[8]*s[5]*s[15] + s[8]*s[7]*s[13] + s[12]*s[5]*s[11] - s[12]*s[7]*s[9]
    requires c[10] == s[0]*s[5]*s[15] - s[0]*s[7]*s[13] - s[4]*s[1]*s[15] + s[4]*s[3]*s[13] + s[12]*s[1]*s[7] - s[12]*s[3]*s[5]
    requires c[12] == -s[4]*s[9]*s[14] + s[4]*s[10]*s[13] + s[8]*s[5]*s[14] - s[8]*s[6]*s[13] - s[12]*s[5]*s[10] + s[12]*s[6]*s[9]
    requires c[14] == -s[0]*s[5]*s[14] + s[0]*s[6]*s[13] + s[4]*s[1]*s[14] - s[4]*s[2]*s[13] - s[12]*s[1]*s[6] + s[12]*s[2]*s[5]
    ensures c[2] * s[0] + c[6] * s[1] + c[10] * s[2] + c[14] * s[3] == 0.0
  {
    AdjugateTimesPoly2(s[0], s[1], s[2], s[3], s[4], s[5], s[6], s[7], s[8], s[9], s[10], s[11], s[12], s[13], s[14], s[15],
      c[0], c[2], c[4], c[6], c[8], c[10], c[12], c[14]);
  }

  lemma AdjugateTimesEntry2(s: seq<real>)
    requires IsMatrix(s)
    ensures MatMul(Cofactors(s), s)[2] == 0.0
  {
    var c := Cofactors(s);
    assert MatMul(Cofactors(s), s)[2] == c[2] * s[0] + c[6] * s[1] + c[10] * s[2] + c[14] * s[3];
    assert Det(s) == s[0] * c[0] + s[1] * c[4] + s[2] * c[8] + s[3] * c[12];
    CofactorEntries(s);
    AdjugateTimesExpanded2(s, c);
  }

  lemma AdjugateTimesPoly6(x0: real, x1: real, x2: real, x3: real, x4: real, x5: real, x6: real, x7: real, x8: real, x9: real, x10: real, x11: real, x12: real, x13: real, x14: real, x15: real, c0: real, c2: real, c4: real, c6: real, c8: real, c10: real, c12: real, c14: real)
    requires c0 == x5*x10*x15 - x5*x11*x14 - x9*x6*x15 + x9*x7*x14 + x13*x6*x11 - x13*x7*x10
    requires c2 == x1*x6*x15 - x1*x7*x14 - x5*x2*x15 + x5*x3*x14 + x13*x2*x7 - x13*x3*x6
    requires c4 == -x4*x10*x15 + x4*x11*x14 + x8*x6*x15 - x8*x7*x14 - x12*x6*x11 + x12*x7*x10
    requires c6 == -x0*x6*x15 + x0*x7*x14 + x4*x2*x15 - x4*x3*x14 - x12*x2*x7 + x12*x3*x6
    requires c8 == x4*x9*x15 - x4*x11*x13 - x8*x5*x15 + x8*x7*x13 + x12*x5*x11 - x12*x7*x9
    requires c10 == x0*x5*x15 - x0*x7*x13 - x4*x1*x15 + x4*x3*x13 + x12*x1*x7 - x12*x3*x5
    requires c12 == -x4*x9*x14 + x4*x10*x13 + x8*x5*x14 - x8*x6*x13 - x12*x5*x10 + x12*x6*x9
    requires c14 == -x0*x5*x14 + x0*x6*x13 + x4*x1*x14 - x4*x2*x13 - x12*x1*x6 + x12*x2*x5
    ensures c2 * x4 + c6 * x5 + c10 * x6 + c14 * x7 == 0.0
  {
  }

  lemma AdjugateTimesExpanded6(s: seq<real>, c: seq<real>)
    requires IsMatrix(s) && IsMatrix(c)
    requires c[0] == s[5]*s[10]*s[15] - s[5]*s[11]*s[14] - s[9]*s[6]*s[15] + s[9]*s[7]*s[14] + s[13]*s[6]*s[11] - s[13]*s[7]*s[10]
    requires c[2] == s[1]*s[6]*s[15] - s[1]*s[7]*s[14] - s[5]*s[2]*s[15] + s[5]*s[3]*s[14] + s[13]*s[2]*s[7] - s[13]*s[3]*s[6]
    requires c[4] == -s[4]*s[10]*s[15] + s[4]*s[11]*s[14] + s[8]*s[6]*s[15] - s[8]*s[7]*s[14] - s[12]*s[6]*s[11] + s[12]*s[7]*s[10]
    requires c[6] == -s[0]*s[6]*s[15] + s[0]*s[7]*s[14] + s[4]*s[2]*s[15] - s[4]*s[3]*s[14] - s[12]*s[2]*s[7] + s[12]*s[3]*s[6]
    requires c[8] == s[4]*s[9]*s[15] - s[4]*s[11]*s[13] - s[8]*s[5]*s[15] + s[8]*s[7]*s[13] + s[12]*s[5]*s[11] - s[12]*s[7]*s[9]
    requires c[10] == s[0]*s[5]*s[15] - s[0]*s[7]*s[13] - s[4]*s[1]*s[15] + s[4]*s[3]*s[13] + s[12]*s[1]*s[7] - s[12]*s[3]*s[5]
    requires c[12] == -s[4]*s[9]*s[14] + s[4]*s[10]*s[13] + s[8]*s[5]*s[14] - s[8]*s[6]*s[13] - s[12]*s[5]*s[10] + s[12]*s[6]*s[9]
    requires c[14] == -s[0]*s[5]*s[14] + s[0]*s[6]*s[13] + s[4]*s[1]*s[14] - s[4]*s[2]*s[13] - s[12]*s[1]*s[6] + s[12]*s[2]*s[5]
    ensures c[2] * s[4] + c[6] * s[5] + c[10] * s[6] + c[14] * s[7] == 0.0
  {
    AdjugateTimesPoly6(s[0], s[1], s[2], s[3], s[4], s[5], s[6], s[7], s[8], s[9], s[10], s[11], s[12], s[13], s[14], s[15],
      c[0], c[2], c[4], c[6], c[8], c[10], c[12], c[14]);
  }

  lemma AdjugateTimesEntry6(s: seq<real>)
    requires IsMatrix(s)
    ensures MatMul(Cofactors(s), s)[6] == 0.0
  {
    var c := Cofactors(s);
    assert MatMul(Cofactors(s), s)[6] == c[2] * s[4] + c[6] * s[5] + c[10] * s[6] + c[14] * s[7];
    assert Det(s) == s[0] * c[0] + s[1] * c[4] + s[2] * c[8] + s[3] * c[12];
    CofactorEntries(s);
    AdjugateTimesExpanded6(s, c);
  }

  lemma AdjugateTimesPoly10(x0: real, x1: real, x2: real, x3: real, x4: real, x5: real, x6: real, x7: real, x8: real, x9: real, x10: real, x11: real, x12: real, x13: real, x14: real, x15: real, c0: real, c2: real, c4: real, c6: real, c8: real, c10: real, c12: real, c14: real)
    requires c0 == x5*x10*x15 - x5*x11*x14 - x9*x6*x15 + x9*x7*x14 + x13*x6*x11 - x13*x7*x10
    requires c2 == x1*x6*x15 - x1*x7*x14 - x5*x2*x15 + x5*x3*x14 + x13*x2*x7 - x13*x3*x6
    requires c4 == -x4*x10*x15 + x4*x11*x14 + x8*x6*x15 - x8*x7*x14 - x12*x6*x11 + x12*x7*x10
    requires c6 == -x0*x6*x15 + x0*x7*x14 + x4*x2*x15 - x4*x3*x14 - x12*x2*x7 + x12*x3*x6
    requires c8 == x4*x9*x15 - x4*x11*x13 - x8*x5*x15 + x8*x7*x13 + x12*x5*x11 - x12*x7*x9
    requires c10 == x0*x5*x15 - x0*x7*x13 - x4*x1*x15 + x4*x3*x13 + x12*x1*x7 - x12*x3*x5
    requires c12 == -x4*x9*x14 + x4*x10*x13 + x8*x5*x14 - x8*x6*x13 - x12*x5*x10 + x12*x6*x9
    requires c14 == -x0*x5*x14 + x0*x6*x13 + x4*x1*x14 - x4*x2*x13 - x12*x1*x6 + x12*x2*x5
    ensures c2 * x8 + c6 * x9 + c10 * x10 + c14 * x11 == x0 * c0 + x1 * c4 + x2 * c8 + x3 * c12
  {
  }

  lemma AdjugateTimesExpanded10(s: seq<real>, c: seq<real>)
    requires IsMatrix(s) && IsMatrix(c)
    requires c[0] == s[5]*s[10]*s[15] - s[5]*s[11]*s[14] - s[9]*s[6]*s[15] + s[9]*s[7]*s[14] + s[13]*s[6]*s[11] - s[13]*s[7]*s[10]
    requires c[2] == s[1]*s[6]*s[15] - s[1]*s[7]*s[14] - s[5]*s[2]*s[15] + s[5]*s[3]*s[14] + s[13]*s[2]*s[7] - s[13]*s[3]*s[6]
    requires c[4] == -s[4]*s[10]*s[15] + s[4]*s[11]*s[14] + s[8]*s[6]*s[15] - s[8]*s[7]*s[14] - s[12]*s[6]*s[11] + s[12]*s[7]*s[10]
    requires c[6] == -s[0]*s[6]*s[15] + s[0]*s[7]*s[14] + s[4]*s[2]*s[15] - s[4]*s[3]*s[14] - s[12]*s[2]*s[7] + s[12]*s[3]*s[6]
    requires c[8] == s[4]*s[9]*s[15] - s[4]*s[11]*s[13] - s[8]*s[5]*s[15] + s[8]*s[7]*s[13] + s[12]*s[5]*s[11] - s[12]*s[7]*s[9]
    requires c[10] == s[0]*s[5]*s[15] - s[0]*s[7]*s[13] - s[4]*s[1]*s[15] + s[4]*s[3]*s[13] + s[12]*s[1]*s[7] - s[12]*s[3]*s[5]
    requires c[12] == -s[4]*s[9]*s[14] + s[4]*s[10]*s[13] + s[8]*s[5]*s[14] - s[8]*s[6]*s[13] - s[12]*s[5]*s[10] + s[12]*s[6]*s[9]
    requires c[14] == -s[0]*s[5]*s[14] + s[0]*s[6]*s[13] + s[4]*s[1]*s[14] - s[4]*s[2]*s[13] - s[12]*s[1]*s[6] + s[12]*s[2]*s[5]
    ensures c[2] * s[8] + c[6] * s[9] + c[10] * s[10] + c[14] * s[11] == s[0] * c[0] + s[1] * c[4] + s[2] * c[8] + s[3] * c[12]
  {
    AdjugateTimesPoly10(s[0], s[1], s[2], s[3], s[4], s[5], s[6], s[7], s[8], s[9], s[10], s[11], s[12], s[13], s[14], s[15],
      c[0], c[2], c[4], c[6], c[8], c[10], c[12], c[14]);
  }

  lemma AdjugateTimesEntry10(s: seq<real>)
    requires IsMatrix(s)
    ensures MatMul(Cofactors(s), s)[10] == Det(s)
  {
    var c := Cofactors(s);
    assert MatMul(Cofactors(s), s)[10] == c[2] * s[8] + c[6] * s[9] + c[10] * s[10] + c[14] * s[11];
    assert Det(s) == s[0] * c[0] + s[1] * c[4] + s[2] * c[8] + s[3] * c[12];
    CofactorEntries(s);
    AdjugateTimesExpanded10(s, c);
  }

  lemma AdjugateTimesPoly14(x0: real, x1: real, x2: real, x3: real, x4: real, x5: real, x6: real, x7: real, x8: real, x9: real, x10: real, x11: real, x12: real, x13: real, x14: real, x15: real, c0: real, c2: real, c4: real, c6: real, c8: real, c10: real, c12: real, c14: real)
    requires c0 == x5*x10*x15 - x5*x11*x14 - x9*x6*x15 + x9*x7*x14 + x13*x6*x11 - x13*x7*x10
    requires c2 == x1*x6*x15 - x1*x7*x14 - x5*x2*x15 + x5*x3*x14 + x13*x2*x7 - x13*x3*x6
    requires c4 == -x4*x10*x15 + x4*x11*x14 + x8*x6*x15 - x8*x7*x14 - x12*x6*x11 + x12*x7*x10
    requires c6 == -x0*x6*x15 + x0*x7*x14 + x4*x2*x15 - x4*x3*x14 - x12*x2*x7 + x12*x3*x6
    requires c8 == x4*x9*x15 - x4*x11*x13 - x8*x5*x15 + x8*x7*x13 + x12*x5*x11 - x12*x7*x9
    requires c10 == x0*x5*x15 - x0*x7*x13 - x4*x1*x15 + x4*x3*x13 + x12*x1*x7 - x12*x3*x5
    requires c12 == -x4*x9*x14 + x4*x10*x13 + x8*x5*x14 - x8*x6*x13 - x12*x5*x10 + x12*x6*x9
    requires c14 == -x0*x5*x14 + x0*x6*x13 + x4*x1*x14 - x4*x2*x13 - x12*x1*x6 + x12*x2*x5
    ensures c2 * x12 + c6 * x13 + c10 * x14 + c14 * x15 == 0.0
  {
  }

  lemma AdjugateTimesExpanded14(s: seq<real>, c: seq<real>)
    requires IsMatrix(s) && IsMatrix(c)
    requires c[0] == s[5]*s[10]*s[15] - s[5]*s[11]*s[14] - s[9]*s[6]*s[15] + s[9]*s[7]*s[14] + s[13]*s[6]*s[11] - s[13]*s[7]*s[10]
    requires c[2] == s[1]*s[6]*s[15] - s[1]*s[7]*s[14] - s[5]*s[2]*s[15] + s[5]*s[3]*s[14] + s[13]*s[2]*s[7] - s[13]*s[3]*s[6]
    requires c[4] == -s[4]*s[10]*s[15] + s[4]*s[11]*s[14] + s[8]*s[6]*s[15] - s[8]*s[7]*s[14] - s[12]*s[6]*s[11] + s[12]*s[7]*s[10]
    requires c[6] == -s[0]*s[6]*s[15] + s[0]*s[7]*s[14] + s[4]*s[2]*s[15] - s[4]*s[3]*s[14] - s[12]*s[2]*s[7] + s[12]*s[3]*s[6]
    requires c[8] == s[4]*s[9]*s[15] - s[4]*s[11]*s[13] - s[8]*s[5]*s[15] + s[8]*s[7]*s[13] + s[12]*s[5]*s[11] - s[12]*s[7]*s[9]
    requires c[10] == s[0]*s[5]*s[15] - s[0]*s[7]*s[13] - s[4]*s[1]*s[15] + s[4]*s[3]*s[13] + s[12]*s[1]*s[7] - s[12]*s[3]*s[5]
    requires c[12] == -s[4]*s[9]*s[14] + s[4]*s[10]*s[13] + s[8]*s[5]*s[14] - s[8]*s[6]*s[13] - s[12]*s[5]*s[10] + s[12]*s[6]*s[9]
    requires c[14] == -s[0]*s[5]*s[14] + s[0]*s[6]*s[13] + s[4]*s[1]*s[14] - s[4]*s[2]*s[13] - s[12]*s[1]*s[6] + s[12]*s[2]*s[5]
    ensures c[2] * s[12] + c[6] * s[13] + c[10] * s[14] + c[14] * s[15] == 0.0
  {
    AdjugateTimesPoly14(s[0], s[1], s[2], s[3], s[4], s[5], s[6], s[7], s[8], s[9], s[10], s[11], s[12], s[13], s[14], s[15],
      c[0], c[2], c[4], c[6], c[8], c[10], c[12], c[14]);
  }

  lemma AdjugateTimesEntry14(s: seq<real>)
    requires IsMatrix(s)
    ensures MatMul(Cofactors(s), s)[14] == 0.0
  {
    var c := Cofactors(s);
    assert MatMul(Cofactors(s), s)[14] == c[2] * s[12] + c[6] * s[13] + c[10] * s[14] + c[14] * s[15];
    assert Det(s) == s[0] * c[0] + s[1] * c[4] + s[2] * c[8] + s[3] * c[12];
    CofactorEntries(s);
    AdjugateTimesExpanded14(s, c);
  }

  lemma AdjugateTimesPoly3(x0: real, x1: real, x2: real, x3: real, x4: real, x5: real, x6: real, x7: real, x8: real, x9: real, x10: real, x11: real, x12: real, x13: real, x14: real, x15: real, c0: real, c3: real, c4: real, c7: real, c8: real, c11: real, c12: real, c15: real)
    requires c0 == x5*x10*x15 - x5*x11*x14 - x9*x6*x15 + x9*x7*x14 + x13*x6*x11 - x13*x7*x10
    requires c3 == -x1*x6*x11 + x1*x7*x10 + x5*x2*x11 - x5*x3*x10 - x9*x2*x7 + x9*x3*x6
    requires c4 == -x4*x10*x15 + x4*x11*x14 + x8*x6*x15 - x8*x7*x14 - x12*x6*x11 + x12*x7*x10
    requires c7 == x0*x6*x11 - x0*x7*x10 - x4*x2*x11 + x4*x3*x10 + x8*x2*x7 - x8*x3*x6
    requires c8 == x4*x9*x15 - x4*x11*x13 - x8*x5*x15 + x8*x7*x13 + x12*x5*x11 - x12*x7*x9
    requires c11 == -x0*x5*x11 + x0*x7*x9 + x4*x1*x11 - x4*x3*x9 - x8*x1*x7 + x8*x3*x5
    requires c12 == -x4*x9*x14 + x4*x10*x13 + x8*x5*x14 - x8*x6*x13 - x12*x5*x10 + x12*x6*x9
    requires c15 == x0*x5*x10 - x0*x6*x9 - x4*x1*x10 + x4*x2*x9 + x8*x1*x6 - x8*x2*x5
    ensures c3 * x0 + c7 * x1 + c11 * x2 + c15 * x3 == 0.0
  {
  }

  lemma AdjugateTimesExpanded3(s: seq<real>, c: seq<real>)
    requires IsMatrix(s) && IsMatrix(c)
    requires c[0] == s[5]*s[10]*s[15] - s[5]*s[11]*s[14] - s[9]*s[6]*s[15] + s[9]*s[7]*s[14] + s[13]*s[6]*s[11] - s[13]*s[7]*s[10]
    requires c[3] == -s[1]*s[6]*s[11] + s[1]*s[7]*s[10] + s[5]*s[2]*s[11] - s[5]*s[3]*s[10] - s[9]*s[2]*s[7] + s[9]*s[3]*s[6]
    requires c[4] == -s[4]*s[10]*s[15] + s[4]*s[11]*s[14] + s[8]*s[6]*s[15] - s[8]*s[7]*s[14] - s[12]*s[6]*s[11] + s[12]*s[7]*s[10]
    requires c[7] == s[0]*s[6]*s[11] - s[0]*s[7]*s[10] - s[4]*s[2]*s[11] + s[4]*s[3]*s[10] + s[8]*s[2]*s[7] - s[8]*s[3]*s[6]
    requires c[8] == s[4]*s[9]*s[15] - s[4]*s[11]*s[13] - s[8]*s[5]*s[15] + s[8]*s[7]*s[13] + s[12]*s[5]*s[11] - s[12]*s[7]*s[9]
    requires c[11] == -s[0]*s[5]*s[11] + s[0]*s[7]*s[9] + s[4]*s[1]*s[11] - s[4]*s[3]*s[9] - s[8]*s[1]*s[7] + s[8]*s[3]*s[5]
    requires c[12] == -s[4]*s[9]*s[14] + s[4]*s[10]*s[13] + s[8]*s[5]*s[14] - s[8]*s[6]*s[13] - s[12]*s[5]*s[10] + s[12]*s[6]*s[9]
    requires c[15] == s[0]*s[5]*s[10] - s[0]*s[6]*s[9] - s[4]*s[1]*s[10] + s[4]*s[2]*s[9] + s[8]*s[1]*s[6] - s[8]*s[2]*s[5]
    ensures c[3] * s[0] + c[7] * s[1] + c[11] * s[2] + c[15] * s[3] == 0.0
  {
    AdjugateTimesPoly3(s[0], s[1], s[2], s[3], s[4], s[5], s[6], s[7], s[8], s[9], s[10], s[11], s[12], s[13], s[14], s[15],
      c[0], c[3], c[4], c[7], c[8], c[11], c[12], c[15]);
  }

  lemma AdjugateTimesEntry3(s: seq<real>)
    requires IsMatrix(s)
    ensures MatMul(Cofactors(s), s)[3] == 0.0
  {
    var c := Cofactors(s);
    assert MatMul(Cofactors(s), s)[3] == c[3] * s[0] + c[7] * s[1] + c[11] * s[2] + c[15] * s[3];
    assert Det(s) == s[0] * c[0] + s[1] * c[4] + s[2] * c[8] + s[3] * c[12];
    CofactorEntries(s);
    AdjugateTimesExpanded3(s, c);
  }

  lemma AdjugateTimesPoly7(x0: real, x1: real, x2: real, x3: real, x4: real, x5: real, x6: real, x7: real, x8: real, x9: real, x10: real, x11: real, x12: real, x13: real, x14: real, x15: real, c0: real, c3: real, c4: real, c7: real, c8: real, c11: real, c12: real, c15: real)
    requires c0 == x5*x10*x15 - x5*x11*x14 - x9*x6*x15 + x9*x7*x14 + x13*x6*x11 - x13*x7*x10
    requires c3 == -x1*x6*x11 + x1*x7*x10 + x5*x2*x11 - x5*x3*x10 - x9*x2*x7 + x9*x3*x6
    requires c4 == -x4*x10*x15 + x4*x11*x14 + x8*x6*x15 - x8*x7*x14 - x12*x6*x11 + x12*x7*x10
    requires c7 == x0*x6*x11 - x0*x7*x10 - x4*x2*x11 + x4*x3*x10 + x8*x2*x7 - x8*x3*x6
    requires c8 == x4*x9*x15 - x4*x11*x13 - x8*x5*x15 + x8*x7*x13 + x12*x5*x11 - x12*x7*x9
    requires c11 == -x0*x5*x11 + x0*x7*x9 + x4*x1*x11 - x4*x3*x9 - x8*x1*x7 + x8*x3*x5
    requires c12 == -x4*x9*x14 + x4*x10*x13 + x8*x5*x14 - x8*x6*x13 - x12*x5*x10 + x12*x6*x9
    requires c15 == x0*x5*x10 - x0*x6*x9 - x4*x1*x10 + x4*x2*x9 + x8*x1*x6 - x8*x2*x5
    ensures c3 * x4 + c7 * x5 + c11 * x6 + c15 * x7 == 0.0
  {
  }

  lemma AdjugateTimesExpanded7(s: seq<real>, c: seq<real>)
    requires IsMatrix(s) && IsMatrix(c)
    requires c[0] == s[5]*s[10]*s[15] - s[5]*s[11]*s[14] - s[9]*s[6]*s[15] + s[9]*s[7]*s[14] + s[13]*s[6]*s[11] - s[13]*s[7]*s[10]
    requires c[3] == -s[1]*s[6]*s[11] + s[1]*s[7]*s[10] + s[5]*s[2]*s[11] - s[5]*s[3]*s[10] - s[9]*s[2]*s[7] + s[9]*s[3]*s[6]
    requires c[4] == -s[4]*s[10]*s[15] + s[4]*s[11]*s[14] + s[8]*s[6]*s[15] - s[8]*s[7]*s[14] - s[12]*s[6]*s[11] + s[12]*s[7]*s[10]
    requires c[7] == s[0]*s[6]*s[11] - s[0]*s[7]*s[10] - s[4]*s[2]*s[11] + s[4]*s[3]*s[10] + s[8]*s[2]*s[7] - s[8]*s[3]*s[6]
    requires c[8] == s[4]*s[9]*s[15] - s[4]*s[11]*s[13] - s[8]*s[5]*s[15] + s[8]*s[7]*s[13] + s[12]*s[5]*s[11] - s[12]*s[7]*s[9]
    requires c[11] == -s[0]*s[5]*s[11] + s[0]*s[7]*s[9] + s[4]*s[1]*s[11] - s[4]*s[3]*s[9] - s[8]*s[1]*s[7] + s[8]*s[3]*s[5]
    requires c[12] == -s[4]*s[9]*s[14] + s[4]*s[10]*s[13] + s[8]*s[5]*s[14] - s[8]*s[6]*s[13] - s[12]*s[5]*s[10] + s[12]*s[6]*s[9]
    requires c[15] == s[0]*s[5]*s[10] - s[0]*s[6]*s[9] - s[4]*s[1]*s[10] + s[4]*s[2]*s[9] + s[8]*s[1]*s[6] - s[8]*s[2]*s[5]
    ensures c[3] * s[4] + c[7] * s[5] + c[11] * s[6] + c[15] * s[7] == 0.0
  {
    AdjugateTimesPoly7(s[0], s[1], s[2], s[3], s[4], s[5], s[6], s[7], s[8], s[9], s[10], s[11], s[12], s[13], s[14], s[15],
      c[0], c[3], c[4], c[7], c[8], c[11], c[12], c[15]);
  }

  lemma AdjugateTimesEntry7(s: seq<real>)
    requires IsMatrix(s)
    ensures MatMul(Cofactors(s), s)[7] == 0.0
  {
    var c := Cofactors(s);
    assert MatMul(Cofactors(s), s)[7] == c[3] * s[4] + c[7] * s[5] + c[11] * s[6] + c[15] * s[7];
    assert Det(s) == s[0] * c[0] + s[1] * c[4] + s[2] * c[8] + s[3] * c[12];
    CofactorEntries(s);
    AdjugateTimesExpanded7(s, c);
  }

  lemma AdjugateTimesPoly11(x0: real, x1: real, x2: real, x3: real, x4: real, x5: real, x6: real, x7: real, x8: real, x9: real, x10: real, x11: real, x12: real, x13: real, x14: real, x15: real, c0: real, c3: real, c4: real, c7: real, c8: real, c11: real, c12: real, c15: real)
    requires c0 == x5*x10*x15 - x5*x11*x14 - x9*x6*x15 + x9*x7*x14 + x13*x6*x11 - x13*x7*x10
    requires c3 == -x1*x6*x11 + x1*x7*x10 + x5*x2*x11 - x5*x3*x10 - x9*x2*x7 + x9*x3*x6
    requires c4 == -x4*x10*x15 + x4*x11*x14 + x8*x6*x15 - x8*x7*x14 - x12*x6*x11 + x12*x7*x10
    requires c7 == x0*x6*x11 - x0*x7*x10 - x4*x2*x11 + x4*x3*x10 + x8*x2*x7 - x8*x3*x6
    requires c8 == x4*x9*x15 - x4*x11*x13 - x8*x5*x15 + x8*x7*x13 + x12*x5*x11 - x12*x7*x9
    requires c11 == -x0*x5*x11 + x0*x7*x9 + x4*x1*x11 - x4*x3*x9 - x8*x1*x7 + x8*x3*x5
    requires c12 == -x4*x9*x14 + x4*x10*x13 + x8*x5*x14 - x8*x6*x13 - x12*x5*x10 + x12*x6*x9
    requires c15 == x0*x5*x10 - x0*x6*x9 - x4*x1*x10 + x4*x2*x9 + x8*x1*x6 - x8*x2*x5
    ensures c3 * x8 + c7 * x9 + c11 * x10 + c15 * x11 == 0.0
  {
  }

  lemma AdjugateTimesExpanded11(s: seq<real>, c: seq<real>)
    requires IsMatrix(s) && IsMatrix(c)
    requires c[0] == s[5]*s[10]*s[15] - s[5]*s[11]*s[14] - s[9]*s[6]*s[15] + s[9]*s[7]*s[14] + s[13]*s[6]*s[11] - s[13]*s[7]*s[10]
    requires c[3] == -s[1]*s[6]*s[11] + s[1]*s[7]*s[10] + s[5]*s[2]*s[11] - s[5]*s[3]*s[10] - s[9]*s[2]*s[7] + s[9]*s[3]*s[6]
    requires c[4] == -s[4]*s[10]*s[15] + s[4]*s[11]*s[14] + s[8]*s[6]*s[15] - s[8]*s[7]*s[14] - s[12]*s[6]*s[11] + s[12]*s[7]*s[10]
    requires c[7] == s[0]*s[6]*s[11] - s[0]*s[7]*s[10] - s[4]*s[2]*s[11] + s[4]*s[3]*s[10] + s[8]*s[2]*s[7] - s[8]*s[3]*s[6]
    requires c[8] == s[4]*s[9]*s[15] - s[4]*s[11]*s[13] - s[8]*s[5]*s[15] + s[8]*s[7]*s[13] + s[12]*s[5]*s[11] - s[12]*s[7]*s[9]
    requires c[11] == -s[0]*s[5]*s[11] + s[0]*s[7]*s[9] + s[4]*s[1]*s[11] - s[4]*s[3]*s[9] - s[8]*s[1]*s[7] + s[8]*s[3]*s[5]
    requires c[12] == -s[4]*s[9]*s[14] + s[4]*s[10]*s[13] + s[8]*s[5]*s[14] - s[8]*s[6]*s[13] - s[12]*s[5]*s[10] + s[12]*s[6]*s[9]
    requires c[15] == s[0]*s[5]*s[10] - s[0]*s[6]*s[9] - s[4]*s[1]*s[10] + s[4]*s[2]*s[9] + s[8]*s[1]*s[6] - s[8]*s[2]*s[5]
    ensures c[3] * s[8] + c[7] * s[9] + c[11] * s[10] + c[15] * s[11] == 0.0
  {
    AdjugateTimesPoly11(s[0], s[1], s[2], s[3], s[4], s[5], s[6], s[7], s[8], s[9], s[10], s[11], s[12], s[13], s[14], s[15],
      c[0], c[3], c[4], c[7], c[8], c[11], c[12], c[15]);
  }

  lemma AdjugateTimesEntry11(s: seq<real>)
    requires IsMatrix(s)
    ensures MatMul(Cofactors(s), s)[11] == 0.0
  {
    var c := Cofactors(s);
    assert MatMul(Cofactors(s), s)[11] == c[3] * s[8] + c[7] * s[9] + c[11] * s[10] + c[15] * s[11];
    assert Det(s) == s[0] * c[0] + s[1] * c[4] + s[2] * c[8] + s[3] * c[12];
    CofactorEntries(s);
    AdjugateTimesExpanded11(s, c);
  }

  lemma AdjugateTimesPoly15(x0: real, x1: real, x2: real, x3: real, x4: real, x5: real, x6: real, x7: real, x8: real, x9: real, x10: real, x11: real, x12: real, x13: real, x14: real, x15: real, c0: real, c3: real, c4: real, c7: real, c8: real, c11: real, c12: real, c15: real)
    requires c0 == x5*x10*x15 - x5*x11*x14 - x9*x6*x15 + x9*x7*x14 + x13*x6*x11 - x13*x7*x10
    requires c3 == -x1*x6*x11 + x1*x7*x10 + x5*x2*x11 - x5*x3*x10 - x9*x2*x7 + x9*x3*x6
    requires c4 == -x4*x10*x15 + x4*x11*x14 + x8*x6*x15 - x8*x7*x14 - x12*x6*x11 + x12*x7*x10
    requires c7 == x0*x6*x11 - x0*x7*x10 - x4*x2*x11 + x4*x3*x10 + x8*x2*x7 - x8*x3*x6
    requires c8 == x4*x9*x15 - x4*x11*x13 - x8*x5*x15 + x8*x7*x13 + x12*x5*x11 - x12*x7*x9
    requires c11 == -x0*x5*x11 + x0*x7*x9 + x4*x1*x11 - x4*x3*x9 - x8*x1*x7 + x8*x3*x5
    requires c12 == -x4*x9*x14 + x4*x10*x13 + x8*x5*x14 - x8*x6*x13 - x12*x5*x10 + x12*x6*x9
    requires c15 == x0*x5*x10 - x0*x6*x9 - x4*x1*x10 + x4*x2*x9 + x8*x1*x6 - x8*x2*x5
    ensures c3 * x12 + c7 * x13 + c11 * x14 + c15 * x15 == x0 * c0 + x1 * c4 + x2 * c8 + x3 * c12
  {
  }

  lemma AdjugateTimesExpanded15(s: seq<real>, c: seq<real>)
    requires IsMatrix(s) && IsMatrix(c)
    requires c[0] == s[5]*s[10]*s[15] - s[5]*s[11]*s[14] - s[9]*s[6]*s[15] + s[9]*s[7]*s[14] + s[13]*s[6]*s[11] - s[13]*s[7]*s[10]
    requires c[3] == -s[1]*s[6]*s[11] + s[1]*s[7]*s[10] + s[5]*s[2]*s[11] - s[5]*s[3]*s[10] - s[9]*s[2]*s[7] + s[9]*s[3]*s[6]
    requires c[4] == -s[4]*s[10]*s[15] + s[4]*s[11]*s[14] + s[8]*s[6]*s[15] - s[8]*s[7]*s[14] - s[12]*s[6]*s[11] + s[12]*s[7]*s[10]
    requires c[7] == s[0]*s[6]*s[11] - s[0]*s[7]*s[10] - s[4]*s[2]*s[11] + s[4]*s[3]*s[10] + s[8]*s[2]*s[7] - s[8]*s[3]*s[6]
    requires c[8] == s[4]*s[9]*s[15] - s[4]*s[11]*s[13] - s[8]*s[5]*s[15] + s[8]*s[7]*s[13] + s[12]*s[5]*s[11] - s[12]*s[7]*s[9]
    requires c[11] == -s[0]*s[5]*s[11] + s[0]*s[7]*s[9] + s[4]*s[1]*s[11] - s[4]*s[3]*s[9] - s[8]*s[1]*s[7] + s[8]*s[3]*s[5]
    requires c[12] == -s[4]*s[9]*s[14] + s[4]*s[10]*s[13] + s[8]*s[5]*s[14] - s[8]*s[6]*s[13] - s[12]*s[5]*s[10] + s[12]*s[6]*s[9]
    requires c[15] == s[0]*s[5]*s[10] - s[0]*s[6]*s[9] - s[4]*s[1]*s[10] + s[4]*s[2]*s[9] + s[8]*s[1]*s[6] - s[8]*s[2]*s[5]
    ensures c[3] * s[12] + c[7] * s[13] + c[11] * s[14] + c[15] * s[15] == s[0] * c[0] + s[1] * c[4] + s[2] * c[8] + s[3] * c[12]
  {
    AdjugateTimesPoly15(s[0], s[1], s[2], s[3], s[4], s[5], s[6], s[7], s[8], s[9], s[10], s[11], s[12], s[13], s[14], s[15],
      c[0], c[3], c[4], c[7], c[8], c[11], c[12], c[15]);
  }

  lemma AdjugateTimesEntry15(s: seq<real>)
    requires IsMatrix(s)
    ensures MatMul(Cofactors(s), s)[15] == Det(s)
  {
    var c := Cofactors(s);
    assert MatMul(Cofactors(s), s)[15] == c[3] * s[12] + c[7] * s[13] + c[11] * s[14] + c[15] * s[15];
    assert Det(s) == s[0] * c[0] + s[1] * c[4] + s[2] * c[8] + s[3] * c[12];
    CofactorEntries(s);
    AdjugateTimesExpanded15(s, c);
  }

  lemma InverseLeftEntry0(s: seq<real>, c: seq<real>, inv: seq<real>, d: real, q: real)
    requires IsMatrix(s) && IsMatrix(c) && IsMatrix(inv) && d * q == 1.0
    requires inv[0] == c[0] * q && inv[4] == c[4] * q && inv[8] == c[8] * q && inv[12] == c[12] * q
    requires MatMul(c, s)[0] == d
    ensures MatMul(inv, s)[0] == 1.0
  {
    ScaleSum(s[0], s[1], s[2], s[3],
             c[0], c[4], c[8], c[12],
             inv[0], inv[4], inv[8], inv[12], q, MatMul(c, s)[0]);
  }

  lemma InverseLeftEntry4(s: seq<real>, c: seq<real>, inv: seq<real>, d: real, q: real)
    requires IsMatrix(s) && IsMatrix(c) && IsMatrix(inv) && d * q == 1.0
    requires inv[0] == c[0] * q && inv[4] == c[4] * q && inv[8] == c[8] * q && inv[12] == c[12] * q
    requires MatMul(c, s)[4] == 0.0
    ensures MatMul(inv, s)[4] == 0.0
  {
    ScaleSum(s[4], s[5], s[6], s[7],
             c[0], c[4], c[8], c[12],
             inv[0], inv[4], inv[8], inv[12], q, MatMul(c, s)[4]);
  }

  lemma InverseLeftEntry8(s: seq<real>, c: seq<real>, inv: seq<real>, d: real, q: real)
    requires IsMatrix(s) && IsMatrix(c) && IsMatrix(inv) && d * q == 1.0
    requires inv[0] == c[0] * q && inv[4] == c[4] * q && inv[8] == c[8] * q && inv[12] == c[12] * q
    requires MatMul(c, s)[8] == 0.0
    ensures MatMul(inv, s)[8] == 0.0
  {
    ScaleSum(s[8], s[9], s[10], s[11],
             c[0], c[4], c[8], c[12],
             inv[0], inv[4], inv[8], inv[12], q, MatMul(c, s)[8]);
  }

  lemma InverseLeftEntry12(s: seq<real>, c: seq<real>, inv: seq<real>, d: real, q: real)
    requires IsMatrix(s) && IsMatrix(c) && IsMatrix(inv) && d * q == 1.0
    requires inv[0] == c[0] * q && inv[4] == c[4] * q && inv[8] == c[8] * q && inv[12] == c[12] * q
    requires MatMul(c, s)[12] == 0.0
    ensures MatMul(inv, s)[12] == 0.0
  {
    ScaleSum(s[12], s[13], s[14], s[15],
             c[0], c[4], c[8], c[12],
             inv[0], inv[4], inv[8], inv[12], q, MatMul(c, s)[12]);
  }

  lemma InverseLeftEntry1(s: seq<real>, c: seq<real>, inv: seq<real>, d: real, q: real)
    requires IsMatrix(s) && IsMatrix(c) && IsMatrix(inv) && d * q == 1.0
    requires inv[1] == c[1] * q && inv[5] == c[5] * q && inv[9] == c[9] * q && inv[13] == c[13] * q
    requires MatMul(c, s)[1] == 0.0
    ensures MatMul(inv, s)[1] == 0.0
  {
    ScaleSum(s[0], s[1], s[2], s[3],
             c[1], c[5], c[9], c[13],
             inv[1], inv[5], inv[9], inv[13], q, MatMul(c, s)[1]);
  }

  lemma InverseLeftEntry5(s: seq<real>, c: seq<real>, inv: seq<real>, d: real, q: real)
    requires IsMatrix(s) && IsMatrix(c) && IsMatrix(inv) && d * q == 1.0
    requires inv[1] == c[1] * q && inv[5] == c[5] * q && inv[9] == c[9] * q && inv[13] == c[13] * q
    requires MatMul(c, s)[5] == d
    ensures MatMul(inv, s)[5] == 1.0
  {
    ScaleSum(s[4], s[5], s[6], s[7],
             c[1], c[5], c[9], c[13],
             inv[1], inv[5], inv[9], inv[13], q, MatMul(c, s)[5]);
  }

  lemma InverseLeftEntry9(s: seq<real>, c: seq<real>, inv: seq<real>, d: real, q: real)
    requires IsMatrix(s) && IsMatrix(c) && IsMatrix(inv) && d * q == 1.0
    requires inv[1] == c[1] * q && inv[5] == c[5] * q && inv[9] == c[9] * q && inv[13] == c[13] * q
    requires MatMul(c, s)[9] == 0.0
    ensures MatMul(inv, s)[9] == 0.0
  {
    ScaleSum(s[8], s[9], s[10], s[11],
             c[1], c[5], c[9], c[13],
             inv[1], inv[5], inv[9], inv[13], q, MatMul(c, s)[9]);
  }

  lemma InverseLeftEntry13(s: seq<real>, c: seq<real>, inv: seq<real>, d: real, q: real)
    requires IsMatrix(s) && IsMatrix(c) && IsMatrix(inv) && d * q == 1.0
    requires inv[1] == c[1] * q && inv[5] == c[5] * q && inv[9] == c[9] * q && inv[13] == c[13] * q
    requires MatMul(c, s)[13] == 0.0
    ensures MatMul(inv, s)[13] == 0.0
  {
    ScaleSum(s[12], s[13], s[14], s[15],
             c[1], c[5], c[9], c[13],
             inv[1], inv[5], inv[9], inv[13], q, MatMul(c, s)[13]);
  }

  lemma InverseLeftEntry2(s: seq<real>, c: seq<real>, inv: seq<real>, d: real, q: real)
    requires IsMatrix(s) && IsMatrix(c) && IsMatrix(inv) && d * q == 1.0
    requires inv[2] == c[2] * q && inv[6] == c[6] * q && inv[10] == c[10] * q && inv[14] == c[14] * q
    requires MatMul(c, s)[2] == 0.0
    ensures MatMul(inv, s)[2] == 0.0
  {
    ScaleSum(s[0], s[1], s[2], s[3],
             c[2], c[6], c[10], c[14],
             inv[2], inv[6], inv[10], inv[14], q, MatMul(c, s)[2]);
  }

  lemma InverseLeftEntry6(s: seq<real>, c: seq<real>, inv: seq<real>, d: real, q: real)
    requires IsMatrix(s) && IsMatrix(c) && IsMatrix(inv) && d * q == 1.0
    requires inv[2] == c[2] * q && inv[6] == c[6] * q && inv[10] == c[10] * q && inv[14] == c[14] * q
    requires MatMul(c, s)[6] == 0.0
    ensures MatMul(inv, s)[6] == 0.0
  {
    ScaleSum(s[4], s[5], s[6], s[7],
             c[2], c[6], c[10], c[14],
             inv[2], inv[6], inv[10], inv[14], q, MatMul(c, s)[6]);
  }

  lemma InverseLeftEntry10(s: seq<real>, c: seq<real>, inv: seq<real>, d: real, q: real)
    requires IsMatrix(s) && IsMatrix(c) && IsMatrix(inv) && d * q == 1.0
    requires inv[2] == c[2] * q && inv[6] == c[6] * q && inv[10] == c[10] * q && inv[14] == c[14] * q
    requires MatMul(c, s)[10] == d
    ensures MatMul(inv, s)[10] == 1.0
  {
    ScaleSum(s[8], s[9], s[10], s[11],
             c[2], c[6], c[10], c[14],
             inv[2], inv[6], inv[10], inv[14], q, MatMul(c, s)[10]);
  }

  lemma InverseLeftEntry14(s: seq<real>, c: seq<real>, inv: seq<real>, d: real, q: real)
    requires IsMatrix(s) && IsMatrix(c) && IsMatrix(inv) && d * q == 1.0
    requires inv[2] == c[2] * q && inv[6] == c[6] * q && inv[10] == c[10] * q && inv[14] == c[14] * q
    requires MatMul(c, s)[14] == 0.0
    ensures MatMul(inv, s)[14] == 0.0
  {
    ScaleSum(s[12], s[13], s[14], s[15],
             c[2], c[6], c[10], c[14],
             inv[2], inv[6], inv[10], inv[14], q, MatMul(c, s)[14]);
  }

  lemma InverseLeftEntry3(s: seq<real>, c: seq<real>, inv: seq<real>, d: real, q: real)
    requires IsMatrix(s) && IsMatrix(c) && IsMatrix(inv) && d * q == 1.0
    requires inv[3] == c[3] * q && inv[7] == c[7] * q && inv[11] == c[11] * q && inv[15] == c[15] * q
    requires MatMul(c, s)[3] == 0.0
    ensures MatMul(inv, s)[3] == 0.0
  {
    ScaleSum(s[0], s[1], s[2], s[3],
             c[3], c[7], c[11], c[15],
             inv[3], inv[7], inv[11], inv[15], q, MatMul(c, s)[3]);
  }

  lemma InverseLeftEntry7(s: seq<real>, c: seq<real>, inv: seq<real>, d: real, q: real)
    requires IsMatrix(s) && IsMatrix(c) && IsMatrix(inv) && d * q == 1.0
    requires inv[3] == c[3] * q && inv[7] == c[7] * q && inv[11] == c[11] * q && inv[15] == c[15] * q
    requires MatMul(c, s)[7] == 0.0
    ensures MatMul(inv, s)[7] == 0.0
  {
    ScaleSum(s[4], s[5], s[6], s[7],
             c[3], c[7], c[11], c[15],
             inv[3], inv[7], inv[11], inv[15], q, MatMul(c, s)[7]);
  }

  lemma InverseLeftEntry11(s: seq<real>, c: seq<real>, inv: seq<real>, d: real, q: real)
    requires IsMatrix(s) && IsMatrix(c) && IsMatrix(inv) && d * q == 1.0
    requires inv[3] == c[3] * q && inv[7] == c[7] * q && inv[11] == c[11] * q && inv[15] == c[15] * q
    requires MatMul(c, s)[11] == 0.0
    ensures MatMul(inv, s)[11] == 0.0
  {
    ScaleSum(s[8], s[9], s[10], s[11],
             c[3], c[7], c[11], c[15],
             inv[3], inv[7], inv[11], inv[15], q, MatMul(c, s)[11]);
  }

  lemma InverseLeftEntry15(s: seq<real>, c: seq<real>, inv: seq<real>, d: real, q: real)
    requires IsMatrix(s) && IsMatrix(c) && IsMatrix(inv) && d * q == 1.0
    requires inv[3] == c[3] * q && inv[7] == c[7] * q && inv[11] == c[11] * q && inv[15] == c[15] * q
    requires MatMul(c, s)[15] == d
    ensures MatMul(inv, s)[15] == 1.0
  {
    ScaleSum(s[12], s[13], s[14], s[15],
             c[3], c[7], c[11], c[15],
             inv[3], inv[7], inv[11], inv[15], q, MatMul(c, s)[15]);
  }

  /** Row 0 of the product is row 0 of the identity. */
  lemma InverseLeftRow0(s: seq<real>)
    requires IsMatrix(s) && Det(s) != 0.0
    ensures MatMul(InverseOf(s), s)[0] == 1.0 && MatMul(InverseOf(s), s)[4] == 0.0 && MatMul(InverseOf(s), s)[8] == 0.0 && MatMul(InverseOf(s), s)[12] == 0.0
  {
    var c, inv, d := Cofactors(s), InverseOf(s), Det(s);
    var q := 1.0 / d;
    assert d * q == 1.0;
    assert inv[0] == c[0] * q && inv[4] == c[4] * q && inv[8] == c[8] * q && inv[12] == c[12] * q;
    AdjugateTimesEntry0(s);
    InverseLeftEntry0(s, c, inv, d, q);
    AdjugateTimesEntry4(s);
    InverseLeftEntry4(s, c, inv, d, q);
    AdjugateTimesEntry8(s);
    InverseLeftEntry8(s, c, inv, d, q);
    AdjugateTimesEntry12(s);
    InverseLeftEntry12(s, c, inv, d, q);
  }

  /** Row 1 of the product is row 1 of the identity. */
  lemma InverseLeftRow1(s: seq<real>)
    requires IsMatrix(s) && Det(s) != 0.0
    ensures MatMul(InverseOf(s), s)[1] == 0.0 && MatMul(InverseOf(s), s)[5] == 1.0 && MatMul(InverseOf(s), s)[9] == 0.0 && MatMul(InverseOf(s), s)[13] == 0.0
  {
    var c, inv, d := Cofactors(s), InverseOf(s), Det(s);
    var q := 1.0 / d;
    assert d * q == 1.0;
    assert inv[1] == c[1] * q && inv[5] == c[5] * q && inv[9] == c[9] * q && inv[13] == c[13] * q;
    AdjugateTimesEntry1(s);
    InverseLeftEntry1(s, c, inv, d, q);
    AdjugateTimesEntry5(s);
    InverseLeftEntry5(s, c, inv, d, q);
    AdjugateTimesEntry9(s);
    InverseLeftEntry9(s, c, inv, d, q);
    AdjugateTimesEntry13(s);
    InverseLeftEntry13(s, c, inv, d, q);
  }

  /** Row 2 of the product is row 2 of the identity. */
  lemma InverseLeftRow2(s: seq<real>)
    requires IsMatrix(s) && Det(s) != 0.0
    ensures MatMul(InverseOf(s), s)[2] == 0.0 && MatMul(InverseOf(s), s)[6] == 0.0 && MatMul(InverseOf(s), s)[10] == 1.0 && MatMul(InverseOf(s), s)[14] == 0.0
  {
    var c, inv, d := Cofactors(s), InverseOf(s), Det(s);
    var q := 1.0 / d;
    assert d * q == 1.0;
    assert inv[2] == c[2] * q && inv[6] == c[6] * q && inv[10] == c[10] * q && inv[14] == c[14] * q;
    AdjugateTimesEntry2(s);
    InverseLeftEntry2(s, c, inv, d, q);
    AdjugateTimesEntry6(s);
    InverseLeftEntry6(s, c, inv, d, q);
    AdjugateTimesEntry10(s);
    InverseLeftEntry10(s, c, inv, d, q);
    AdjugateTimesEntry14(s);
    InverseLeftEntry14(s, c, inv, d, q);
  }

  /** Row 3 of the product is row 3 of the identity. */
  lemma InverseLeftRow3(s: seq<real>)
    requires IsMatrix(s) && Det(s) != 0.0
    ensures MatMul(InverseOf(s), s)[3] == 0.0 && MatMul(InverseOf(s), s)[7] == 0.0 && MatMul(InverseOf(s), s)[11] == 0.0 && MatMul(InverseOf(s), s)[15] == 1.0
  {
    var c, inv, d := Cofactors(s), InverseOf(s), Det(s);
    var q := 1.0 / d;
    assert d * q == 1.0;
    assert inv[3] == c[3] * q && inv[7] == c[7] * q && inv[11] == c[11] * q && inv[15] == c[15] * q;
    AdjugateTimesEntry3(s);
    InverseLeftEntry3(s, c, inv, d, q);
    AdjugateTimesEntry7(s);
    InverseLeftEntry7(s, c, inv, d, q);
    AdjugateTimesEntry11(s);
    InverseLeftEntry11(s, c, inv, d, q);
    AdjugateTimesEntry15(s);
    InverseLeftEntry15(s, c, inv, d, q);
  }

  lemma InverseLeft(s: seq<real>)
    requires IsMatrix(s) && Det(s) != 0.0
    ensures MatMul(InverseOf(s), s) == Identity()
  {
    InverseLeftRow0(s);
    InverseLeftRow1(s);
    InverseLeftRow2(s);
    InverseLeftRow3(s);
    SameEntries(MatMul(InverseOf(s), s), Identity());
  }

  lemma ScaleSum(a0: real, a1: real, a2: real, a3: real, c0: real, c1: real, c2: real, c3: real,
                 i0: real, i1: real, i2: real, i3: real, q: real, e: real)
    requires i0 == c0 * q && i1 == c1 * q && i2 == c2 * q && i3 == c3 * q
    requires e == a0 * c0 + a1 * c1 + a2 * c2 + a3 * c3
    ensures a0 * i0 + a1 * i1 + a2 * i2 + a3 * i3 == e * q
    ensures i0 * a0 + i1 * a1 + i2 * a2 + i3 * a3 == e * q
  {
  }

  /**
   * When the determinant is not zero, the matrix `setInverseOf` writes is a
   * two-sided inverse of its argument.
   */
  lemma InverseIsTwoSided(s: seq<real>)
    requires IsMatrix(s) && Det(s) != 0.0
    ensures MatMul(s, InverseOf(s)) == Identity()
    ensures MatMul(InverseOf(s), s) == Identity()
  {
    InverseRight(s);
    InverseLeft(s);
  }
}
