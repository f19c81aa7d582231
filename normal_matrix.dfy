// The normal matrix the lit shapes send with each draw: `setInverseOf` of
// the model matrix followed by `transpose`.  When the model matrix is
// singular `setInverseOf` leaves the normal matrix alone, so the transpose
// then works on whatever the previous draw left there.

module Shading {
  import opened MatrixMath
  import opened MatrixInverse
  import opened Matrices

  /** The normal matrix after one draw, given the one before and the model matrix. */
  function NextNormal(normal: seq<real>, model: seq<real>): (r: seq<real>)
    requires IsMatrix(normal) && IsMatrix(model)
    ensures IsMatrix(r)
    ensures Det(model) != 0.0 ==>
      MatMul(Transposed(r), model) == Identity() && MatMul(model, Transposed(r)) == Identity()
    ensures Det(model) == 0.0 ==> Transposed(r) == normal
  {
    if Det(model) == 0.0 then
      TransposeTwice(normal);
      Transposed(normal)
    else
      InverseIsTwoSided(model);
      TransposeTwice(InverseOf(model));
      Transposed(InverseOf(model))
  }

  /** With a singular model matrix two draws leave the normal matrix as it was. */
  lemma SingularTwiceRestores(normal: seq<real>, model: seq<real>)
    requires IsMatrix(normal) && IsMatrix(model) && Det(model) == 0.0
    ensures NextNormal(NextNormal(normal, model), model) == normal
  {
    TransposeTwice(normal);
  }

  /** With an invertible model matrix the normal matrix no longer depends on the previous one. */
  lemma InvertibleForgetsPrevious(normal: seq<real>, other: seq<real>, model: seq<real>)
    requires IsMatrix(normal) && IsMatrix(other) && IsMatrix(model) && Det(model) != 0.0
    ensures NextNormal(normal, model) == NextNormal(other, model)
  {
  }

  /**
   * `normalMatrix.setInverseOf(matrix); normalMatrix.transpose()`: the
   * normal matrix is rewritten in place, the model matrix is only read.
   */
  method UpdateNormalMatrix(normal: Matrix4, model: Matrix4)
    requires normal.Valid() && model.Valid() && normal.elements != model.elements
    modifies normal.elements
    ensures normal.elements[..] == NextNormal(old(normal.elements[..]), model.elements[..])
    ensures model.elements[..] == old(model.elements[..])
  {
    normal.SetInverseOf(model);
    normal.Transpose();
    if Det(model.elements[..]) == 0.0 {
      TransposeTwice(old(normal.elements[..]));
    }
  }
}
