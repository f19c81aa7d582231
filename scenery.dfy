// What the two block worlds share: the Pac-Man character grid, the cubes
// they place (a texture selector, a colour and a model matrix), and the
// row-major walk over the grid that both `buildWorld`s and `buildPellets`
// perform.

module Scenery {
  import opened Colors
  import opened MatrixMath
  import opened Matrices

  /** A placed cube: the fields of a `Cube` object the worlds set and read. */
  datatype Cube = Cube(textureNum: int, color: Rgba, matrix: seq<real>)

  predicate Placed(c: Cube) {
    IsMatrix(c.matrix)
  }

  datatype Option<T> = None | Some(value: T)

  /** The x and z of a cube's translation, `matrix.elements[12]` and `[14]`. */
  function X(c: Cube): real
    requires Placed(c)
  {
    c.matrix[12]
  }

  function Z(c: Cube): real
    requires Placed(c)
  {
    c.matrix[14]
  }

  /** The worlds' tolerance test: both coordinates strictly within 0.001. */
  predicate NearCell(c: Cube, x0: real, z0: real)
    requires Placed(c)
  {
    -0.001 < X(c) - x0 < 0.001 && -0.001 < Z(c) - z0 < 0.001
  }

  const PacmanMap: seq<string> := [
    "########################",
    "#........#......#......#",
    "#.####.#.#.####.#.####.#",
    "#.#  #.#.#.#  #.#.#  #.#",
    "#.####.#.#.####.#.####.#",
    "#......................#",
    "########################"
  ]

  /** Top of the ground plane, -0.75 + 0.1. */
  const GroundTop: real := -0.65
  /** Height of a pellet, -0.75 + 0.2. */
  const PelletY: real := -0.55
  const PelletScale: real := 0.1

  /** A white wall cube translated to (x, GroundTop, z). */
  function WallCube(textureNum: int, x: real, z: real): (c: Cube)
    ensures Placed(c) && X(c) == x && Z(c) == z
    ensures c.matrix[13] == GroundTop
  {
    Cube(textureNum, White, Translation(x, GroundTop, z))
  }

  /** A yellow untextured pellet: the identity, translated, then scaled by 0.1. */
  function PelletCube(x: real, z: real): (c: Cube)
    ensures Placed(c) && X(c) == x && Z(c) == z
    ensures c.textureNum == -2 && c.color == Yellow
  {
    var moved := Translated(Identity(), x, PelletY, z);
    Cube(-2, Yellow, Scaled(moved, PelletScale, PelletScale, PelletScale))
  }

  /**
   * `grid[z][x] === ch`, with the character read past the end of a row
   * being JavaScript's `undefined`, which equals no character.
   */
  predicate Holds(grid: seq<string>, z: int, x: int, ch: char) {
    0 <= z < |grid| && 0 <= x < |grid[z]| && grid[z][x] == ch
  }

  /** The cells (z, x) of row z, columns [0, x), that hold `ch`, left to right. */
  function RowCells(grid: seq<string>, ch: char, z: nat, x: nat): seq<(nat, nat)>
  {
    if x == 0 then []
    else RowCells(grid, ch, z, x - 1) + (if Holds(grid, z, x - 1, ch) then [(z, x - 1)] else [])
  }

  /** The cells of rows [0, z), columns [0, cols), that hold `ch`, in row-major order. */
  function GridCells(grid: seq<string>, ch: char, cols: nat, z: nat): seq<(nat, nat)>
  {
    if z == 0 then [] else GridCells(grid, ch, cols, z - 1) + RowCells(grid, ch, z - 1, cols)
  }

  /** Row-major order on cells. */
  predicate Before(p: (nat, nat), q: (nat, nat)) {
    p.0 < q.0 || (p.0 == q.0 && p.1 < q.1)
  }

  lemma {:induction false} RowCellsExact(grid: seq<string>, ch: char, z: nat, x: nat)
    ensures forall c :: c in RowCells(grid, ch, z, x) <==> c.0 == z && c.1 < x && Holds(grid, z, c.1, ch)
    ensures forall i, j | 0 <= i < j < |RowCells(grid, ch, z, x)| ::
      Before(RowCells(grid, ch, z, x)[i], RowCells(grid, ch, z, x)[j])
  {
    if x > 0 {
      RowCellsExact(grid, ch, z, x - 1);
    }
  }

  /**
   * The row-major walk finds exactly the cells holding `ch`, each once, in
   * row-major order.
   */
  lemma {:induction false} GridCellsExact(grid: seq<string>, ch: char, cols: nat, z: nat)
    ensures forall c :: c in GridCells(grid, ch, cols, z) <==> c.0 < z && c.1 < cols && Holds(grid, c.0, c.1, ch)
    ensures forall i, j | 0 <= i < j < |GridCells(grid, ch, cols, z)| ::
      Before(GridCells(grid, ch, cols, z)[i], GridCells(grid, ch, cols, z)[j])
  {
    if z > 0 {
      GridCellsExact(grid, ch, cols, z - 1);
      RowCellsExact(grid, ch, z - 1, cols);
      var a := GridCells(grid, ch, cols, z - 1);
      var b := RowCells(grid, ch, z - 1, cols);
      forall i, j | 0 <= i < j < |a + b|
        ensures Before((a + b)[i], (a + b)[j])
      {
        if j >= |a| && i < |a| {
          assert a[i] in a && b[j - |a|] in b;
        }
      }
    }
  }

  /** The world coordinate a grid cell is centred on: (x - cols/2, z - rows/2). */
  function CellX(c: (nat, nat), cols: nat): real {
    c.1 as real - cols as real / 2.0
  }

  function CellZ(c: (nat, nat), rows: nat): real {
    c.0 as real - rows as real / 2.0
  }

  /** One brick wall (texture 0) per cell, at the cell's centre. */
  function WallsAt(cells: seq<(nat, nat)>, rows: nat, cols: nat): (ws: seq<Cube>)
    ensures |ws| == |cells|
    ensures forall i | 0 <= i < |ws| :: ws[i] == WallCube(0, CellX(cells[i], cols), CellZ(cells[i], rows))
  {
    seq(|cells|, i requires 0 <= i < |cells| => WallCube(0, CellX(cells[i], cols), CellZ(cells[i], rows)))
  }

  /** One pellet per cell, half a unit further on both axes. */
  function PelletsAt(cells: seq<(nat, nat)>, rows: nat, cols: nat): (ps: seq<Cube>)
    ensures |ps| == |cells|
    ensures forall i | 0 <= i < |ps| :: ps[i] == PelletCube(CellX(cells[i], cols) + 0.5, CellZ(cells[i], rows) + 0.5)
  {
    seq(|cells|, i requires 0 <= i < |cells| => PelletCube(CellX(cells[i], cols) + 0.5, CellZ(cells[i], rows) + 0.5))
  }

  /** What `buildWorld` leaves in `g_walls` for a grid. */
  function BuiltWalls(grid: seq<string>): seq<Cube>
    requires |grid| > 0
  {
    WallsAt(GridCells(grid, '#', |grid[0]|, |grid|), |grid|, |grid[0]|)
  }

  /** What `buildPellets` leaves in `g_pellets` for a grid. */
  function BuiltPellets(grid: seq<string>): seq<Cube>
    requires |grid| > 0
  {
    PelletsAt(GridCells(grid, '.', |grid[0]|, |grid|), |grid|, |grid[0]|)
  }

  /** There is one wall per '#' of the grid, at that cell's centre. */
  lemma WallsMatchGrid(grid: seq<string>, z: nat, x: nat)
    requires |grid| > 0
    ensures Holds(grid, z, x, '#') && x < |grid[0]| <==>
      exists i :: 0 <= i < |BuiltWalls(grid)| &&
        BuiltWalls(grid)[i] == WallCube(0, CellX((z, x), |grid[0]|), CellZ((z, x), |grid|))
  {
    var cells := GridCells(grid, '#', |grid[0]|, |grid|);
    GridCellsExact(grid, '#', |grid[0]|, |grid|);
    if Holds(grid, z, x, '#') && x < |grid[0]| {
      var i :| 0 <= i < |cells| && cells[i] == (z, x);
      assert BuiltWalls(grid)[i] == WallCube(0, CellX((z, x), |grid[0]|), CellZ((z, x), |grid|));
    } else {
      forall i | 0 <= i < |cells|
        ensures BuiltWalls(grid)[i] != WallCube(0, CellX((z, x), |grid[0]|), CellZ((z, x), |grid|))
      {
        assert cells[i] in cells;
        var target := WallCube(0, CellX((z, x), |grid[0]|), CellZ((z, x), |grid|));
        if BuiltWalls(grid)[i] == target {
          assert X(BuiltWalls(grid)[i]) == X(target) && Z(BuiltWalls(grid)[i]) == Z(target);
          CellCentreInjective(cells[i], (z, x), |grid|, |grid[0]|);
        }
      }
    }
  }

  lemma CellCentreInjective(c: (nat, nat), d: (nat, nat), rows: nat, cols: nat)
    requires CellX(c, cols) == CellX(d, cols) && CellZ(c, rows) == CellZ(d, rows)
    ensures c == d
  {
  }

  /** Walls are laid out in row-major order: z never decreases, x increases within a row. */
  lemma WallsRowMajor(grid: seq<string>)
    requires |grid| > 0
    ensures forall i, j | 0 <= i < j < |BuiltWalls(grid)| ::
      var a := BuiltWalls(grid)[i];
      var b := BuiltWalls(grid)[j];
      Z(a) < Z(b) || (Z(a) == Z(b) && X(a) < X(b))
  {
    var cells := GridCells(grid, '#', |grid[0]|, |grid|);
    GridCellsExact(grid, '#', |grid[0]|, |grid|);
    forall i, j | 0 <= i < j < |BuiltWalls(grid)|
      ensures var a := BuiltWalls(grid)[i];
              var b := BuiltWalls(grid)[j];
              Z(a) < Z(b) || (Z(a) == Z(b) && X(a) < X(b))
    {
      assert Before(cells[i], cells[j]);
    }
  }

  lemma PacmanMapShape()
    ensures |PacmanMap| == 7
    ensures forall z | 0 <= z < 7 :: |PacmanMap[z]| == 24
  {
  }

  predicate AllPlaced(ws: seq<Cube>) {
    forall i | 0 <= i < |ws| :: Placed(ws[i])
  }

  /** `g_walls.some(...)`: some cube lies within the tolerance of (x0, z0). */
  predicate AnyNear(ws: seq<Cube>, x0: real, z0: real)
    requires AllPlaced(ws)
  {
    exists i | 0 <= i < |ws| :: NearCell(ws[i], x0, z0)
  }

  /** The index the backward search stops at: the last cube near (x0, z0). */
  function LastNear(ws: seq<Cube>, x0: real, z0: real): (r: Option<nat>)
    requires AllPlaced(ws)
    ensures r.Some? ==> r.value < |ws| && NearCell(ws[r.value], x0, z0)
    ensures r.Some? ==> forall j | r.value < j < |ws| :: !NearCell(ws[j], x0, z0)
    ensures r.None? <==> !AnyNear(ws, x0, z0)
  {
    if |ws| == 0 then None
    else if NearCell(ws[|ws| - 1], x0, z0) then Some(|ws| - 1)
    else LastNear(ws[..|ws| - 1], x0, z0)
  }

  /** `ws.splice(i, 1)`. */
  function Removed(ws: seq<Cube>, i: nat): (r: seq<Cube>)
    requires i < |ws|
    ensures |r| == |ws| - 1
    ensures forall j | 0 <= j < i :: r[j] == ws[j]
    ensures forall j | i <= j < |r| :: r[j] == ws[j + 1]
  {
    ws[..i] + ws[i + 1..]
  }

  /** The wall list after the deleting loop: the last near cube removed, if any. */
  function DeleteLast(ws: seq<Cube>, x0: real, z0: real): (r: seq<Cube>)
    requires AllPlaced(ws)
    ensures AllPlaced(r)
    ensures |r| == if AnyNear(ws, x0, z0) then |ws| - 1 else |ws|
    ensures !AnyNear(ws, x0, z0) ==> r == ws
    ensures AnyNear(ws, x0, z0) ==>
      exists i | 0 <= i < |ws| ::
        NearCell(ws[i], x0, z0) && (forall j | i < j < |ws| :: !NearCell(ws[j], x0, z0)) &&
        r == ws[..i] + ws[i + 1..]
  {
    match LastNear(ws, x0, z0)
    case None => ws
    case Some(i) =>
      assert NearCell(ws[i], x0, z0) && forall j | i < j < |ws| :: !NearCell(ws[j], x0, z0);
      Removed(ws, i)
  }

  /** Where the backward search stops, at the last near cube, is the cube removed. */
  lemma DeleteLastAt(ws: seq<Cube>, x0: real, z0: real, i: nat)
    requires AllPlaced(ws) && i < |ws| && NearCell(ws[i], x0, z0)
    requires forall j | i < j < |ws| :: !NearCell(ws[j], x0, z0)
    ensures DeleteLast(ws, x0, z0) == ws[..i] + ws[i + 1..]
  {
    assert AnyNear(ws, x0, z0);
    var k := LastNear(ws, x0, z0).value;
    assert k == i;
  }

  /** A cube appended at the target is the one the next deletion removes. */
  lemma DeleteAfterAppend(ws: seq<Cube>, c: Cube, x0: real, z0: real)
    requires AllPlaced(ws) && Placed(c) && NearCell(c, x0, z0)
    ensures AllPlaced(ws + [c])
    ensures DeleteLast(ws + [c], x0, z0) == ws
  {
    assert (ws + [c])[..|ws|] == ws;
  }

  /** Deletion never reaches past cubes that are away from the target. */
  lemma {:induction false} DeleteSkipsFarPrefix(a: seq<Cube>, b: seq<Cube>, x0: real, z0: real)
    requires AllPlaced(a) && AllPlaced(b)
    requires forall i | 0 <= i < |a| :: !NearCell(a[i], x0, z0)
    ensures AllPlaced(a + b)
    ensures DeleteLast(a + b, x0, z0) == a + DeleteLast(b, x0, z0)
  {
    var ab := a + b;
    assert AllPlaced(ab) by {
      forall i | 0 <= i < |ab| ensures Placed(ab[i]) {
        if i >= |a| { assert ab[i] == b[i - |a|]; }
      }
    }
    match LastNear(b, x0, z0)
    case None =>
      forall i | 0 <= i < |ab| ensures !NearCell(ab[i], x0, z0) {
        if i >= |a| { assert ab[i] == b[i - |a|]; }
      }
      assert LastNear(ab, x0, z0).None?;
    case Some(k) =>
      assert ab[|a| + k] == b[k];
      forall j | |a| + k < j < |ab| ensures !NearCell(ab[j], x0, z0) {
        assert ab[j] == b[j - |a|];
      }
      assert LastNear(ab, x0, z0) == Some(|a| + k);
      assert Removed(ab, |a| + k) == a + Removed(b, k);
  }

  /**
   * The loops of `buildWorld`: walk the grid row by row and push a brick
   * cube, placed by a fresh transform, for every '#'.
   */
  method LayWalls(grid: seq<string>) returns (walls: seq<Cube>)
    requires |grid| > 0
    ensures walls == BuiltWalls(grid)
  {
    walls := [];
    var rows := |grid|;
    var cols := |grid[0]|;
    ghost var cells: seq<(nat, nat)> := [];
    for z := 0 to rows
      invariant cells == GridCells(grid, '#', cols, z)
      invariant walls == WallsAt(cells, rows, cols)
    {
      for x := 0 to cols
        invariant cells == GridCells(grid, '#', cols, z) + RowCells(grid, '#', z, x)
        invariant walls == WallsAt(cells, rows, cols)
      {
        if Holds(grid, z, x, '#') {
          var m := new Matrix4();
          m.SetTranslate(CellX((z, x), cols), GroundTop, CellZ((z, x), rows));
          WallsAtAppend(cells, (z, x), rows, cols);
          walls := walls + [Cube(0, White, m.elements[..])];
          cells := cells + [(z, x)];
        }
      }
    }
  }

  /** The loops of `buildPellets`: a scaled yellow cube for every '.'. */
  method LayPellets(grid: seq<string>) returns (pellets: seq<Cube>)
    requires |grid| > 0
    ensures pellets == BuiltPellets(grid)
  {
    pellets := [];
    var rows := |grid|;
    var cols := |grid[0]|;
    ghost var cells: seq<(nat, nat)> := [];
    for z := 0 to rows
      invariant cells == GridCells(grid, '.', cols, z)
      invariant pellets == PelletsAt(cells, rows, cols)
    {
      for x := 0 to cols
        invariant cells == GridCells(grid, '.', cols, z) + RowCells(grid, '.', z, x)
        invariant pellets == PelletsAt(cells, rows, cols)
      {
        if Holds(grid, z, x, '.') {
          var p := NewPellet(CellX((z, x), cols) + 0.5, CellZ((z, x), rows) + 0.5);
          PelletsAtAppend(cells, (z, x), rows, cols);
          pellets := pellets + [p];
          cells := cells + [(z, x)];
        }
      }
    }
  }

  /** A new pellet cube: its transform set to the identity, translated, scaled. */
  method NewPellet(x: real, z: real) returns (p: Cube)
    ensures p == PelletCube(x, z)
  {
    var m := new Matrix4();
    m.SetIdentity();
    m.Translate(x, PelletY, z);
    m.Scale(PelletScale, PelletScale, PelletScale);
    p := Cube(-2, Yellow, m.elements[..]);
  }

  lemma WallsAtAppend(cells: seq<(nat, nat)>, c: (nat, nat), rows: nat, cols: nat)
    ensures WallsAt(cells + [c], rows, cols) == WallsAt(cells, rows, cols) + [WallCube(0, CellX(c, cols), CellZ(c, rows))]
  {
    assert (cells + [c])[|cells|] == c;
  }

  lemma PelletsAtAppend(cells: seq<(nat, nat)>, c: (nat, nat), rows: nat, cols: nat)
    ensures PelletsAt(cells + [c], rows, cols) == PelletsAt(cells, rows, cols) + [PelletCube(CellX(c, cols) + 0.5, CellZ(c, rows) + 0.5)]
  {
    assert (cells + [c])[|cells|] == c;
  }
}
