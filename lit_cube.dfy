// The lit cube of the lighting scene: colour, texture selector, a model
// matrix and a normal matrix.  A draw sends the texture, the colour, the
// model matrix and the recomputed normal matrix, and reads 36 vertices from
// the shared buffer through three interleaved attributes of eight floats.

module LitCube {
  import opened Colors
  import opened MatrixMath
  import opened Matrices
  import opened Shading

  /** One vertex attribute: its number of floats, the stride and its offset, in floats. */
  datatype Attribute = Attribute(size: nat, stride: nat, offset: nat)

  /** Position (3 floats at 0), texture coordinate (2 at 3), normal (3 at 5), stride 8. */
  const Layout: seq<Attribute> := [Attribute(3, 8, 0), Attribute(2, 8, 3), Attribute(3, 8, 5)]

  /** The attributes sit side by side from offset 0 and exactly fill each stride. */
  predicate TilesStride(attrs: seq<Attribute>) {
    |attrs| > 0 && attrs[0].offset == 0 &&
    (forall i | 0 <= i < |attrs| :: attrs[i].stride == attrs[0].stride) &&
    (forall i | 0 <= i < |attrs| - 1 :: attrs[i + 1].offset == attrs[i].offset + attrs[i].size) &&
    attrs[|attrs| - 1].offset + attrs[|attrs| - 1].size == attrs[0].stride
  }

  lemma LayoutTilesStride()
    ensures TilesStride(Layout)
  {
  }

  /** What one draw sends. */
  datatype LitDraw = LitDraw(texture: int, color: Rgba, model: seq<real>, normal: seq<real>,
                             layout: seq<Attribute>, count: nat)

  class Cube {
    var color: Rgba
    const matrix: Matrix4
    const normalMatrix: Matrix4
    var textureNum: int

    ghost predicate Valid()
      reads this, matrix, normalMatrix
    {
      matrix.Valid() && normalMatrix.Valid() && matrix.elements != normalMatrix.elements
    }

    /** White, texture -2, identity model and normal matrices. */
    constructor()
      ensures Valid() && fresh(matrix) && fresh(matrix.elements)
      ensures fresh(normalMatrix) && fresh(normalMatrix.elements)
      ensures color == White && textureNum == -2
      ensures matrix.elements[..] == Identity() && normalMatrix.elements[..] == Identity()
    {
      color := White;
      matrix := new Matrix4();
      normalMatrix := new Matrix4();
      textureNum := -2;
    }

    /**
     * `render`: the normal matrix becomes the transposed inverse of the
     * model matrix (or the transpose of its old self when there is no
     * inverse); colour and model matrix are only read.
     */
    method Render() returns (d: LitDraw)
      requires Valid()
      modifies normalMatrix.elements
      ensures Valid() && matrix.elements[..] == old(matrix.elements[..])
      ensures normalMatrix.elements[..] == NextNormal(old(normalMatrix.elements[..]), matrix.elements[..])
      ensures d == LitDraw(textureNum, color, matrix.elements[..], normalMatrix.elements[..], Layout, 36)
    {
      UpdateNormalMatrix(normalMatrix, matrix);
      d := LitDraw(textureNum, color, matrix.elements[..], normalMatrix.elements[..], Layout, 36);
    }

    /** `renderfast` only calls `render`. */
    method RenderFast() returns (d: LitDraw)
      requires Valid()
      modifies normalMatrix.elements
      ensures Valid() && matrix.elements[..] == old(matrix.elements[..])
      ensures normalMatrix.elements[..] == NextNormal(old(normalMatrix.elements[..]), matrix.elements[..])
      ensures d == LitDraw(textureNum, color, matrix.elements[..], normalMatrix.elements[..], Layout, 36)
    {
      d := Render();
    }

    /** `renderfaster` only calls `render`. */
    method RenderFaster() returns (d: LitDraw)
      requires Valid()
      modifies normalMatrix.elements
      ensures Valid() && matrix.elements[..] == old(matrix.elements[..])
      ensures normalMatrix.elements[..] == NextNormal(old(normalMatrix.elements[..]), matrix.elements[..])
      ensures d == LitDraw(textureNum, color, matrix.elements[..], normalMatrix.elements[..], Layout, 36)
    {
      d := Render();
    }
  }
}
