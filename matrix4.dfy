// The `Matrix4` class of the block world: sixteen elements in a column-major
// array, changed in place by its methods.  Each method is proved against the
// function of MatrixMath that gives the new elements from the old ones; what
// those functions mean (identity, translation, scaling, pre-multiplication,
// transpose, inverse) is proved in MatrixMath and MatrixInverse.

module Matrices {
  import opened MatrixMath
  import opened MatrixInverse

  class Matrix4 {
    var elements: array<real>

    ghost predicate Valid()
      reads this
    {
      elements.Length == 16
    }

    /** A new matrix is the identity. */
    constructor()
      ensures Valid() && fresh(elements)
      ensures elements[..] == Identity()
    {
      elements := new real[16];
      new;
      SetIdentity();
    }

    /** Ones on the diagonal (elements 0, 5, 10, 15), zeros elsewhere. */
    method SetIdentity()
      requires Valid()
      modifies elements
      ensures elements[..] == Identity()
    {
      var e := elements;
      forall k | 0 <= k < 16 {
        e[k] := if k % 5 == 0 then 1.0 else 0.0;
      }
      TranslationFrom(e[..], 0.0, 0.0, 0.0);
      TranslationOfIdentity(0.0, 0.0, 0.0);
      TranslateZero(Identity());
    }

    method SetTranslate(x: real, y: real, z: real)
      requires Valid()
      modifies elements
      ensures elements[..] == Translation(x, y, z)
    {
      var e := elements;
      forall k | 0 <= k < 16 {
        e[k] := if k == 12 then x else if k == 13 then y else if k == 14 then z
                else if k % 5 == 0 then 1.0 else 0.0;
      }
      TranslationFrom(e[..], x, y, z);
    }

    method Translate(x: real, y: real, z: real)
      requires Valid()
      modifies elements
      ensures elements[..] == Translated(old(elements[..]), x, y, z)
    {
      var e := elements;
      ghost var m := e[..];
      e[12] := e[12] + (e[0] * x + e[4] * y + e[8] * z);
      e[13] := e[13] + (e[1] * x + e[5] * y + e[9] * z);
      e[14] := e[14] + (e[2] * x + e[6] * y + e[10] * z);
      e[15] := e[15] + (e[3] * x + e[7] * y + e[11] * z);
      TranslatedFrom(m, e[..], x, y, z);
    }

    /** Columns 0, 1 and 2 are multiplied by x, y and z; column 3 stays. */
    method Scale(x: real, y: real, z: real)
      requires Valid()
      modifies elements
      ensures elements[..] == Scaled(old(elements[..]), x, y, z)
    {
      var e := elements;
      ghost var m := e[..];
      forall k | 0 <= k < 12 {
        e[k] := e[k] * (if k < 4 then x else if k < 8 then y else z);
      }
      ScaledFrom(m, e[..], x, y, z);
    }

    /**
     * Replaces the elements by a fresh array holding the loop's products.
     * Read column-major this is other × this; `other` keeps its array unless
     * it is this matrix itself.
     */
    method Multiply(other: Matrix4)
      requires Valid() && other.Valid()
      modifies this
      ensures Valid() && fresh(elements)
      ensures elements[..] == Product(old(elements[..]), old(other.elements[..]))
      ensures other != this ==> other.elements == old(other.elements)
    {
      var a, b := elements, other.elements;
      var c := new real[16];
      for i := 0 to 4
        invariant forall ii, jj | 0 <= ii < i && 0 <= jj < 4 :: c[ii * 4 + jj] == ProductEntry(a[..], b[..], ii, jj)
      {
        for j := 0 to 4
          invariant forall ii, jj | 0 <= ii < i && 0 <= jj < 4 :: c[ii * 4 + jj] == ProductEntry(a[..], b[..], ii, jj)
          invariant forall jj | 0 <= jj < j :: c[i * 4 + jj] == ProductEntry(a[..], b[..], i, jj)
        {
          c[i * 4 + j] := a[i * 4] * b[j] + a[i * 4 + 1] * b[4 + j] + a[i * 4 + 2] * b[8 + j] + a[i * 4 + 3] * b[12 + j];
        }
      }
      elements := c;
      ProductFrom(a[..], b[..], c[..]);
    }

    /** Copies the first sixteen numbers of `src`, which may be this matrix's own array. */
    method Set(src: array<real>)
      requires Valid() && src.Length >= 16
      modifies elements
      ensures elements[..] == old(src[..16])
    {
      for i := 0 to 16
        invariant forall k | 0 <= k < i :: elements[k] == old(src[k])
        invariant forall k | i <= k < src.Length :: src[k] == old(src[k])
      {
        elements[i] := src[i];
      }
    }

    /**
     * Writes the inverse of `other` into this matrix, or leaves this matrix
     * untouched when the determinant is exactly zero.  The sixteen cofactor
     * assignments are the function Cofactors and the determinant expansion
     * along the first column (elements 0 to 3) is Det; both are complete before the first write,
     * so `other` may be this matrix itself.
     */
    method SetInverseOf(other: Matrix4)
      requires Valid() && other.Valid()
      modifies elements
      ensures var s := old(other.elements[..]);
        if Det(s) == 0.0 then elements[..] == old(elements[..]) else elements[..] == InverseOf(s)
    {
      var s := other.elements;
      var d := elements;
      var before := s[..];
      var inv := Cofactors(before);
      var det := Det(before);
      if det == 0.0 {
        return;
      }
      var invDet := 1.0 / det;
      forall i | 0 <= i < 16 {
        d[i] := inv[i] * invDet;
      }
      InverseFrom(before, d[..], inv, invDet);
    }

    /** Swaps element [i*4 + j] with [j*4 + i]: the six swaps done at once. */
    method Transpose()
      requires Valid()
      modifies elements
      ensures elements[..] == Transposed(old(elements[..]))
    {
      var e := elements;
      ghost var m := e[..];
      forall k | 0 <= k < 16 {
        e[k] := e[k % 4 * 4 + k / 4];
      }
      TransposedFrom(m, e[..]);
    }
  }

  // Entry-by-entry descriptions of the arrays the methods leave behind,
  // turned into equalities with the MatrixMath functions.

  lemma TranslationFrom(r: seq<real>, x: real, y: real, z: real)
    requires IsMatrix(r)
    requires forall k | 0 <= k < 16 :: r[k] == if k == 12 then x else if k == 13 then y else if k == 14 then z
                                               else if k % 5 == 0 then 1.0 else 0.0
    ensures r == Translation(x, y, z)
  {
    SameEntries(r, Translation(x, y, z));
  }

  lemma TranslatedFrom(m: seq<real>, r: seq<real>, x: real, y: real, z: real)
    requires IsMatrix(m) && IsMatrix(r)
    requires forall k | 0 <= k < 12 :: r[k] == m[k]
    requires r[12] == m[12] + (m[0] * x + m[4] * y + m[8] * z)
    requires r[13] == m[13] + (m[1] * x + m[5] * y + m[9] * z)
    requires r[14] == m[14] + (m[2] * x + m[6] * y + m[10] * z)
    requires r[15] == m[15] + (m[3] * x + m[7] * y + m[11] * z)
    ensures r == Translated(m, x, y, z)
  {
    SameEntries(r, Translated(m, x, y, z));
  }

  lemma ScaledFrom(m: seq<real>, r: seq<real>, x: real, y: real, z: real)
    requires IsMatrix(m) && IsMatrix(r)
    requires forall k | 0 <= k < 12 :: r[k] == m[k] * (if k < 4 then x else if k < 8 then y else z)
    requires forall k | 12 <= k < 16 :: r[k] == m[k]
    ensures r == Scaled(m, x, y, z)
  {
    SameEntries(r, Scaled(m, x, y, z));
  }

  lemma TransposedFrom(m: seq<real>, r: seq<real>)
    requires IsMatrix(m) && IsMatrix(r)
    requires forall k | 0 <= k < 16 :: r[k] == m[k % 4 * 4 + k / 4]
    ensures r == Transposed(m)
  {
    SameEntries(r, Transposed(m));
  }

  lemma ProductFrom(a: seq<real>, b: seq<real>, c: seq<real>)
    requires IsMatrix(a) && IsMatrix(b) && IsMatrix(c)
    requires forall i, j | 0 <= i < 4 && 0 <= j < 4 :: c[i * 4 + j] == ProductEntry(a, b, i, j)
    ensures c == Product(a, b)
  {
    SameEntries(c, Product(a, b));
  }

  lemma InverseFrom(s: seq<real>, r: seq<real>, inv: seq<real>, invDet: real)
    requires IsMatrix(s) && IsMatrix(r) && Det(s) != 0.0
    requires inv == Cofactors(s) && invDet == 1.0 / Det(s)
    requires forall k | 0 <= k < 16 :: r[k] == inv[k] * invDet
    ensures r == InverseOf(s)
  {
    assert forall k | 0 <= k < 16 :: InverseOf(s)[k] == inv[k] * invDet;
  }
}
