// The textured cube of the maze: a fixed table of 36 vertices (12
// triangles, two per face of the unit cube), and three ways to draw it.
// A draw is modelled by the `DrawCall` it issues: the texture selector
// sent (if any), the colour and model matrix sent, where the vertices come
// from and how many are drawn.

module MazeCube {
  import opened Colors
  import opened MatrixMath
  import opened Matrices
  import opened Scenery

  /** The vertex table, as written one triangle (three x, y, z corners) per line. */
  const CubeRows: seq<seq<real>> := [
    [0.0,0.0,0.0, 1.0,1.0,0.0, 1.0,0.0,0.0],
    [0.0,0.0,0.0, 0.0,1.0,0.0, 1.0,1.0,0.0],
    [0.0,1.0,0.0, 0.0,1.0,1.0, 1.0,1.0,1.0],
    [0.0,1.0,0.0, 1.0,1.0,1.0, 1.0,1.0,0.0],
    [1.0,1.0,0.0, 1.0,1.0,1.0, 1.0,0.0,1.0],
    [1.0,1.0,0.0, 1.0,0.0,1.0, 1.0,0.0,0.0],
    [0.0,1.0,0.0, 0.0,1.0,1.0, 0.0,0.0,0.0],
    [0.0,0.0,0.0, 0.0,1.0,1.0, 0.0,0.0,1.0],
    [0.0,0.0,0.0, 0.0,0.0,1.0, 1.0,0.0,1.0],
    [0.0,0.0,0.0, 1.0,0.0,1.0, 1.0,0.0,0.0],
    [0.0,0.0,1.0, 1.0,1.0,1.0, 1.0,0.0,1.0],
    [0.0,0.0,1.0, 0.0,1.0,1.0, 1.0,1.0,1.0]
  ]

  /** `cubeVerts`: the 108 numbers of the table in order. */
  const CubeVerts: seq<real> := Flatten(CubeRows)

  /** The twelve triangles `renderfast` concatenates, in its order. */
  const FastTriangles: seq<seq<real>> := [
    [0.0,0.0,0.0, 1.0,1.0,0.0, 1.0,0.0,0.0],
    [0.0,0.0,0.0, 0.0,1.0,0.0, 1.0,1.0,0.0],
    [0.0,1.0,0.0, 0.0,1.0,1.0, 1.0,1.0,1.0],
    [0.0,1.0,0.0, 1.0,1.0,1.0, 1.0,1.0,0.0],
    [1.0,1.0,0.0, 1.0,1.0,1.0, 1.0,0.0,0.0],
    [1.0,0.0,0.0, 1.0,1.0,1.0, 1.0,0.0,1.0],
    [0.0,1.0,0.0, 0.0,1.0,1.0, 0.0,0.0,0.0],
    [0.0,0.0,0.0, 0.0,1.0,1.0, 0.0,0.0,1.0],
    [0.0,0.0,0.0, 0.0,0.0,1.0, 1.0,0.0,1.0],
    [0.0,0.0,0.0, 1.0,0.0,1.0, 1.0,0.0,0.0],
    [0.0,0.0,1.0, 1.0,1.0,1.0, 1.0,0.0,1.0],
    [0.0,0.0,1.0, 0.0,1.0,1.0, 1.0,1.0,1.0]
  ]

  predicate IsTriangle(tri: seq<real>) {
    |tri| == 9
  }

  /** The three corners agree on coordinate `axis` (0 = x, 1 = y, 2 = z). */
  predicate Flat(tri: seq<real>, axis: nat)
    requires IsTriangle(tri) && axis < 3
  {
    tri[axis] == tri[3 + axis] == tri[6 + axis]
  }

  /** The triangle lies in the face of the unit cube where coordinate `axis` is `side`. */
  predicate OnFace(tri: seq<real>, axis: nat, side: real)
    requires IsTriangle(tri) && axis < 3
  {
    Flat(tri, axis) && tri[axis] == side
  }

  predicate AllTriangles(ts: seq<seq<real>>) {
    forall t | 0 <= t < |ts| :: IsTriangle(ts[t])
  }

  /** How many triangles of the list, from index `i` on, lie in the given face. */
  function FaceCount(ts: seq<seq<real>>, i: nat, axis: nat, side: real): nat
    requires AllTriangles(ts) && axis < 3 && i <= |ts|
    decreases |ts| - i
  {
    if i == |ts| then 0
    else (if OnFace(ts[i], axis, side) then 1 else 0) + FaceCount(ts, i + 1, axis, side)
  }

  function Bit(tri: seq<real>, axis: nat, side: real): nat
    requires IsTriangle(tri) && axis < 3
  {
    if OnFace(tri, axis, side) then 1 else 0
  }

  /** The triangles of a list, flattened into one coordinate list. */
  function Flatten(ts: seq<seq<real>>): (vs: seq<real>)
    ensures AllTriangles(ts) ==> |vs| == 9 * |ts|
  {
    if |ts| == 0 then [] else Flatten(ts[..|ts| - 1]) + ts[|ts| - 1]
  }

  /** Twelve triangles, each flat on some axis, two in each of the six faces. */
  predicate TilesCube(ts: seq<seq<real>>) {
    |ts| == 12 && AllTriangles(ts) &&
    (forall t | 0 <= t < 12 :: Flat(ts[t], 0) || Flat(ts[t], 1) || Flat(ts[t], 2)) &&
    FaceCount(ts, 0, 0, 0.0) == 2 && FaceCount(ts, 0, 0, 1.0) == 2 &&
    FaceCount(ts, 0, 1, 0.0) == 2 && FaceCount(ts, 0, 1, 1.0) == 2 &&
    FaceCount(ts, 0, 2, 0.0) == 2 && FaceCount(ts, 0, 2, 1.0) == 2
  }

  datatype Source = SharedBuffer | Uploaded(coords: seq<real>)

  /** What one render call sends: texture selector, colour, model matrix, vertices. */
  datatype DrawCall = DrawCall(texture: Option<int>, color: Rgba, model: seq<real>, source: Source, count: nat)

  class Cube {
    var color: Rgba
    const matrix: Matrix4
    var textureNum: int
    const cubeVerts32: array<real>
    var cubeVerts: seq<real>

    ghost predicate Valid()
      reads this, matrix
    {
      matrix.Valid() && cubeVerts32.Length == 108 && cubeVerts32 != matrix.elements
    }

    /** White, texture 0, the identity transform and the vertex table twice. */
    constructor()
      ensures Valid() && fresh(matrix) && fresh(matrix.elements) && fresh(cubeVerts32)
      ensures color == White && textureNum == 0 && matrix.elements[..] == Identity()
      ensures cubeVerts32[..] == CubeVerts && cubeVerts == CubeVerts
    {
      color := White;
      matrix := new Matrix4();
      textureNum := 0;
      CubeVertsLength();
      cubeVerts32 := new real[108](i requires 0 <= i < 108 => CubeVerts[i]);
      cubeVerts := CubeVerts;
    }

    /** `render`: this texture and colour, 36 vertices of the shared buffer. */
    method Render() returns (d: DrawCall)
      requires Valid()
      ensures d == DrawCall(Some(textureNum), color, matrix.elements[..], SharedBuffer, 36)
    {
      d := DrawCall(Some(textureNum), color, matrix.elements[..], SharedBuffer, 36);
    }

    /**
     * `renderfast` as written: the first six results are built from the
     * empty `alrverts` and each replaces the last, so only the sixth
     * triangle and the six after it reach the draw.  No texture is sent.
     */
    method RenderFast() returns (d: DrawCall)
      requires Valid()
      ensures d.texture == None && d.color == color && d.model == matrix.elements[..]
      ensures d.source == Uploaded(Flatten(FastTriangles[5..])) && |d.source.coords| == 63
      ensures d.count == 21
    {
      var alrverts: seq<real> := [];
      var allverts := alrverts + FastTriangles[0];
      allverts := alrverts + FastTriangles[1];
      allverts := alrverts + FastTriangles[2];
      allverts := alrverts + FastTriangles[3];
      allverts := alrverts + FastTriangles[4];
      allverts := alrverts + FastTriangles[5];
      ghost var drawn := [FastTriangles[5]];
      FlattenAppend([], FastTriangles[5]);
      FlattenAppend(drawn, FastTriangles[6]);
      allverts, drawn := allverts + FastTriangles[6], drawn + [FastTriangles[6]];
      FlattenAppend(drawn, FastTriangles[7]);
      allverts, drawn := allverts + FastTriangles[7], drawn + [FastTriangles[7]];
      FlattenAppend(drawn, FastTriangles[8]);
      allverts, drawn := allverts + FastTriangles[8], drawn + [FastTriangles[8]];
      FlattenAppend(drawn, FastTriangles[9]);
      allverts, drawn := allverts + FastTriangles[9], drawn + [FastTriangles[9]];
      FlattenAppend(drawn, FastTriangles[10]);
      allverts, drawn := allverts + FastTriangles[10], drawn + [FastTriangles[10]];
      FlattenAppend(drawn, FastTriangles[11]);
      allverts, drawn := allverts + FastTriangles[11], drawn + [FastTriangles[11]];
      assert drawn == FastTriangles[5..];
      d := DrawCall(None, color, matrix.elements[..], Uploaded(allverts), |allverts| / 3);
    }

    /** `renderfast` as evidently intended: every concat extends `allverts`. */
    method RenderFastCorrected() returns (d: DrawCall)
      requires Valid()
      ensures d.texture == None && d.color == color && d.model == matrix.elements[..]
      ensures d.source == Uploaded(Flatten(FastTriangles)) && |d.source.coords| == 108
      ensures d.count == 36 && TilesCube(FastTriangles)
    {
      var allverts: seq<real> := [];
      for t := 0 to 12
        invariant allverts == Flatten(FastTriangles[..t])
      {
        assert FastTriangles[..t + 1][..t] == FastTriangles[..t];
        allverts := allverts + FastTriangles[t];
      }
      assert FastTriangles[..12] == FastTriangles;
      FastTilesCube();
      d := DrawCall(None, color, matrix.elements[..], Uploaded(allverts), |allverts| / 3);
    }

    /** `renderfaster`: uploads the 36-vertex table but always sends texture -2. */
    method RenderFaster() returns (d: DrawCall)
      requires Valid()
      ensures d == DrawCall(Some(-2), color, matrix.elements[..], Uploaded(cubeVerts32[..]), 36)
    {
      d := DrawCall(Some(-2), color, matrix.elements[..], Uploaded(cubeVerts32[..]), 36);
    }
  }

  lemma FlattenAppend(ts: seq<seq<real>>, tri: seq<real>)
    ensures Flatten(ts + [tri]) == Flatten(ts) + tri
  {
    assert (ts + [tri])[..|ts|] == ts;
  }

  /** Entry `k` of triangle `t` sits at position `9 * t + k` of the flattened list. */
  lemma {:induction false} FlattenIndex(ts: seq<seq<real>>, t: nat, k: nat)
    requires AllTriangles(ts) && t < |ts| && k < 9
    ensures 9 * t + k < |Flatten(ts)| && Flatten(ts)[9 * t + k] == ts[t][k]
  {
    var init := ts[..|ts| - 1];
    assert AllTriangles(init);
    if t < |ts| - 1 {
      FlattenIndex(init, t, k);
    }
  }

  /** Every one of the 108 numbers of `cubeVerts` is 0 or 1. */
  lemma CubeVertsBinary()
    ensures |CubeVerts| == 108
    ensures forall i | 0 <= i < |CubeVerts| :: CubeVerts[i] == 0.0 || CubeVerts[i] == 1.0
  {
    CubeVertsLength();
    assert forall t, k | 0 <= t < 12 && 0 <= k < 9 :: CubeRows[t][k] == 0.0 || CubeRows[t][k] == 1.0;
    forall i | 0 <= i < |CubeVerts|
      ensures CubeVerts[i] == 0.0 || CubeVerts[i] == 1.0
    {
      FlattenIndex(CubeRows, i / 9, i % 9);
    }
  }

  /** Unrolls the face count of a twelve-triangle list into one term per triangle. */
  lemma {:induction false} FaceCountTwelve(ts: seq<seq<real>>, axis: nat, side: real)
    requires |ts| == 12 && AllTriangles(ts) && axis < 3
    ensures FaceCount(ts, 0, axis, side) ==
      Bit(ts[0], axis, side) + Bit(ts[1], axis, side) + Bit(ts[2], axis, side) +
      Bit(ts[3], axis, side) + Bit(ts[4], axis, side) + Bit(ts[5], axis, side) +
      Bit(ts[6], axis, side) + Bit(ts[7], axis, side) + Bit(ts[8], axis, side) +
      Bit(ts[9], axis, side) + Bit(ts[10], axis, side) + Bit(ts[11], axis, side)
  {
    assert FaceCount(ts, 12, axis, side) == 0;
    assert FaceCount(ts, 11, axis, side) == Bit(ts[11], axis, side);
    assert FaceCount(ts, 10, axis, side) == Bit(ts[10], axis, side) + FaceCount(ts, 11, axis, side);
    assert FaceCount(ts, 9, axis, side) == Bit(ts[9], axis, side) + FaceCount(ts, 10, axis, side);
    assert FaceCount(ts, 8, axis, side) == Bit(ts[8], axis, side) + FaceCount(ts, 9, axis, side);
    assert FaceCount(ts, 7, axis, side) == Bit(ts[7], axis, side) + FaceCount(ts, 8, axis, side);
    assert FaceCount(ts, 6, axis, side) == Bit(ts[6], axis, side) + FaceCount(ts, 7, axis, side);
    assert FaceCount(ts, 5, axis, side) == Bit(ts[5], axis, side) + FaceCount(ts, 6, axis, side);
    assert FaceCount(ts, 4, axis, side) == Bit(ts[4], axis, side) + FaceCount(ts, 5, axis, side);
    assert FaceCount(ts, 3, axis, side) == Bit(ts[3], axis, side) + FaceCount(ts, 4, axis, side);
    assert FaceCount(ts, 2, axis, side) == Bit(ts[2], axis, side) + FaceCount(ts, 3, axis, side);
    assert FaceCount(ts, 1, axis, side) == Bit(ts[1], axis, side) + FaceCount(ts, 2, axis, side);
  }

  lemma CubeVertsLength()
    ensures |CubeVerts| == 108
  {
    assert AllTriangles(CubeRows);
  }

  /** The vertex table tiles the unit cube: two flat triangles per face. */
  lemma CubeTableTilesCube()
    ensures TilesCube(CubeRows)
  {
    assert AllTriangles(CubeRows);
    CubeRowsFlat();
    CubeRowsXFaces();
    CubeRowsYFaces();
    CubeRowsZFaces();
  }

  /** The twelve triangles `renderfast` lists tile the unit cube as well. */
  lemma FastTilesCube()
    ensures TilesCube(FastTriangles)
  {
    assert AllTriangles(FastTriangles);
    FastTrianglesFlat();
    FastTrianglesXFaces();
    FastTrianglesYFaces();
    FastTrianglesZFaces();
  }

  lemma CubeRowsFlat()
    ensures AllTriangles(CubeRows)
    ensures forall t | 0 <= t < 12 :: Flat(CubeRows[t], 0) || Flat(CubeRows[t], 1) || Flat(CubeRows[t], 2)
  {
  }

  lemma CubeRowsXFaces()
    ensures AllTriangles(CubeRows)
    ensures FaceCount(CubeRows, 0, 0, 0.0) == 2 && FaceCount(CubeRows, 0, 0, 1.0) == 2
  {
    assert AllTriangles(CubeRows);
    FaceCountTwelve(CubeRows, 0, 0.0);
    FaceCountTwelve(CubeRows, 0, 1.0);
  }

  lemma CubeRowsYFaces()
    ensures AllTriangles(CubeRows)
    ensures FaceCount(CubeRows, 0, 1, 0.0) == 2 && FaceCount(CubeRows, 0, 1, 1.0) == 2
  {
    assert AllTriangles(CubeRows);
    FaceCountTwelve(CubeRows, 1, 0.0);
    FaceCountTwelve(CubeRows, 1, 1.0);
  }

  lemma CubeRowsZFaces()
    ensures AllTriangles(CubeRows)
    ensures FaceCount(CubeRows, 0, 2, 0.0) == 2 && FaceCount(CubeRows, 0, 2, 1.0) == 2
  {
    assert AllTriangles(CubeRows);
    FaceCountTwelve(CubeRows, 2, 0.0);
    FaceCountTwelve(CubeRows, 2, 1.0);
  }

  lemma FastTrianglesFlat()
    ensures AllTriangles(FastTriangles)
    ensures forall t | 0 <= t < 12 :: Flat(FastTriangles[t], 0) || Flat(FastTriangles[t], 1) || Flat(FastTriangles[t], 2)
  {
  }

  lemma FastTrianglesXFaces()
    ensures AllTriangles(FastTriangles)
    ensures FaceCount(FastTriangles, 0, 0, 0.0) == 2 && FaceCount(FastTriangles, 0, 0, 1.0) == 2
  {
    assert AllTriangles(FastTriangles);
    FaceCountTwelve(FastTriangles, 0, 0.0);
    FaceCountTwelve(FastTriangles, 0, 1.0);
  }

  lemma FastTrianglesYFaces()
    ensures AllTriangles(FastTriangles)
    ensures FaceCount(FastTriangles, 0, 1, 0.0) == 2 && FaceCount(FastTriangles, 0, 1, 1.0) == 2
  {
    assert AllTriangles(FastTriangles);
    FaceCountTwelve(FastTriangles, 1, 0.0);
    FaceCountTwelve(FastTriangles, 1, 1.0);
  }

  lemma FastTrianglesZFaces()
    ensures AllTriangles(FastTriangles)
    ensures FaceCount(FastTriangles, 0, 2, 0.0) == 2 && FaceCount(FastTriangles, 0, 2, 1.0) == 2
  {
    assert AllTriangles(FastTriangles);
    FaceCountTwelve(FastTriangles, 2, 0.0);
    FaceCountTwelve(FastTriangles, 2, 1.0);
  }

  /** None of the triangles `renderfast` draws lies in the front (z = 0) or top (y = 1) face. */
  lemma RenderFastMissesFaces()
    ensures forall t | 5 <= t < 12 ::
              IsTriangle(FastTriangles[t]) &&
              !OnFace(FastTriangles[t], 2, 0.0) && !OnFace(FastTriangles[t], 1, 1.0)
  {
  }
}
