// The editable block world of the lit scene: brick walls built from a
// mutable copy of the Pac-Man grid, and blocks added or deleted one cell in
// front of the camera, with the grid kept in step.  Unlike the maze world
// it targets cells of the grid itself (centred on the origin, so z falls on
// half-integers like the built walls), adds without checking for an
// existing block, and rewrites the grid character on every edit.

module BlockWorld {
  import opened Colors
  import opened MatrixMath
  import opened Matrices
  import opened Vectors
  import opened Poses
  import opened FlyCamera
  import opened Scenery
  import opened Keys

  /** Every row as long as the first, as `pacmanMap[0].length` presumes. */
  predicate Rectangular(grid: seq<string>) {
    |grid| > 0 && forall z | 0 <= z < |grid| :: |grid[z]| == |grid[0]|
  }

  /** The grid and the wall list, the state `modifyBlockInFront` edits. */
  datatype Layout = Layout(grid: seq<string>, walls: seq<Cube>)

  predicate InGrid(grid: seq<string>, mapX: int, mapZ: int)
    requires |grid| > 0
  {
    0 <= mapZ < |grid| && 0 <= mapX < |grid[0]|
  }

  /** The row split into characters, one replaced, and joined again. */
  function SetCell(grid: seq<string>, z: int, x: int, ch: char): (r: seq<string>)
    requires 0 <= z < |grid| && 0 <= x < |grid[z]|
    ensures |r| == |grid| && |r[z]| == |grid[z]| && r[z][x] == ch
    ensures forall i | 0 <= i < |grid| && i != z :: r[i] == grid[i]
    ensures forall j | 0 <= j < |grid[z]| && j != x :: r[z][j] == grid[z][j]
  {
    grid[z := grid[z][x := ch]]
  }

  /**
   * `modifyBlockInFront` on the grid and the walls, for the rounded target
   * cell (mapX, mapZ): adding appends a brick and marks the cell '#';
   * deleting removes the last wall at the cell, if any, and marks it '.'.
   */
  function Modify(l: Layout, isAdding: bool, mapX: int, mapZ: int): (r: Layout)
    requires Rectangular(l.grid) && AllPlaced(l.walls)
    ensures Rectangular(r.grid) && AllPlaced(r.walls)
    ensures !InGrid(l.grid, mapX, mapZ) ==> r == l
    ensures InGrid(l.grid, mapX, mapZ) ==> r.grid == SetCell(l.grid, mapZ, mapX, if isAdding then '#' else '.')
    ensures InGrid(l.grid, mapX, mapZ) && isAdding ==> |r.walls| == |l.walls| + 1 && r.walls[..|l.walls|] == l.walls
    ensures !isAdding ==> |l.walls| - 1 <= |r.walls| <= |l.walls|
    ensures InGrid(l.grid, mapX, mapZ) ==>
      var x0, z0 := CellX((mapZ, mapX), |l.grid[0]|), CellZ((mapZ, mapX), |l.grid|);
      (isAdding ==> r.walls == l.walls + [WallCube(0, x0, z0)]) &&
      (!isAdding ==> r.walls == DeleteLast(l.walls, x0, z0))
  {
    if !InGrid(l.grid, mapX, mapZ) then l
    else
      var rows := |l.grid|;
      var cols := |l.grid[0]|;
      var x0 := CellX((mapZ, mapX), cols);
      var z0 := CellZ((mapZ, mapX), rows);
      if isAdding then
        Layout(SetCell(l.grid, mapZ, mapX, '#'), l.walls + [WallCube(0, x0, z0)])
      else
        Layout(SetCell(l.grid, mapZ, mapX, '.'), DeleteLast(l.walls, x0, z0))
  }

  /** There is no duplicate check: adding twice at a cell leaves two blocks there. */
  lemma AddTwiceStacks(l: Layout, mapX: int, mapZ: int)
    requires Rectangular(l.grid) && AllPlaced(l.walls) && InGrid(l.grid, mapX, mapZ)
    ensures var twice := Modify(Modify(l, true, mapX, mapZ), true, mapX, mapZ);
            |twice.walls| == |l.walls| + 2 &&
            twice.walls[|l.walls|] == twice.walls[|l.walls| + 1]
  {
  }

  /** Adding then deleting at one cell restores the walls; the cell is left '.'. */
  lemma AddThenDeleteRestores(l: Layout, mapX: int, mapZ: int)
    requires Rectangular(l.grid) && AllPlaced(l.walls)
    ensures Modify(Modify(l, true, mapX, mapZ), false, mapX, mapZ).walls == l.walls
    ensures InGrid(l.grid, mapX, mapZ) ==>
      Modify(Modify(l, true, mapX, mapZ), false, mapX, mapZ).grid == SetCell(l.grid, mapZ, mapX, '.')
  {
    if InGrid(l.grid, mapX, mapZ) {
      var x0 := CellX((mapZ, mapX), |l.grid[0]|);
      var z0 := CellZ((mapZ, mapX), |l.grid|);
      DeleteAfterAppend(l.walls, WallCube(0, x0, z0), x0, z0);
      var once := SetCell(l.grid, mapZ, mapX, '#');
      assert once[mapZ][mapX := '.'] == l.grid[mapZ][mapX := '.'];
      assert SetCell(once, mapZ, mapX, '.') == SetCell(l.grid, mapZ, mapX, '.');
    }
  }

  /** Deleting where no wall stands still rewrites the cell to '.'. */
  lemma DeleteMarksEmptyCell(l: Layout, mapX: int, mapZ: int)
    requires Rectangular(l.grid) && AllPlaced(l.walls) && InGrid(l.grid, mapX, mapZ)
    requires !AnyNear(l.walls, CellX((mapZ, mapX), |l.grid[0]|), CellZ((mapZ, mapX), |l.grid|))
    ensures Modify(l, false, mapX, mapZ).walls == l.walls
    ensures Modify(l, false, mapX, mapZ).grid[mapZ][mapX] == '.'
  {
  }

  /**
   * The grid stays in step with an addition: rebuilding the walls from the
   * edited grid places a brick identical to the one just added.
   */
  lemma AddedBlockSurvivesRebuild(l: Layout, mapX: int, mapZ: int)
    requires Rectangular(l.grid) && AllPlaced(l.walls) && InGrid(l.grid, mapX, mapZ)
    ensures var r := Modify(l, true, mapX, mapZ);
            exists i :: 0 <= i < |BuiltWalls(r.grid)| && BuiltWalls(r.grid)[i] == r.walls[|l.walls|]
  {
    var r := Modify(l, true, mapX, mapZ);
    WallsMatchGrid(r.grid, mapZ, mapX);
  }

  /** The key bindings of this world: arrows move, a adds, d deletes. */
  function KeyAction(key: string): Action {
    var k := Lower(key);
    if k == "arrowright" then StepRight
    else if k == "arrowleft" then StepLeft
    else if k == "arrowup" then StepForward
    else if k == "arrowdown" then StepBack
    else if k == "a" then AddBlock
    else if k == "d" then DeleteBlock
    else Ignore
  }

  class World {
    var grid: seq<string>
    var walls: seq<Cube>
    const camera: Camera

    ghost predicate Valid()
      reads this
    {
      Rectangular(grid) && AllPlaced(walls)
    }

    function Current(): Layout
      reads this
    {
      Layout(grid, walls)
    }

    /** The flat look vector has a length to divide by. */
    predicate CanAim()
      reads this, camera
    {
      camera.at.x - camera.eye.x != 0.0 || camera.at.z - camera.eye.z != 0.0
    }

    constructor(norm: Vec3 -> real, rotate: (real, Vec3, Vec3) -> Vec3)
      ensures Valid() && fresh(camera)
      ensures grid == PacmanMap && walls == []
      ensures camera.Current() == Initial && camera.norm == norm && camera.rotate == rotate
    {
      grid := PacmanMap;
      walls := [];
      camera := new Camera(norm, rotate);
      PacmanMapShape();
    }

    /** `buildWorld`: the walls are cleared and rebuilt from the current grid. */
    method BuildWorld()
      requires Valid()
      modifies this
      ensures Valid()
      ensures walls == BuiltWalls(grid) && grid == old(grid)
    {
      walls := LayWalls(grid);
      BuiltWallsPlaced(grid);
    }

    /**
     * `modifyBlockInFront`: (mapX, mapZ) is the cell the rounded look point
     * falls in.  The source divides by the look vector's length without a
     * check, so the camera must not look straight up or down.
     */
    method ModifyBlockInFront(isAdding: bool, mapX: int, mapZ: int)
      requires Valid() && CanAim()
      modifies this
      ensures Valid()
      ensures Current() == Modify(old(Current()), isAdding, mapX, mapZ)
    {
      var rows := |grid|;
      var cols := |grid[0]|;
      if mapZ < 0 || mapZ >= rows || mapX < 0 || mapX >= cols {
        return;
      }
      var x0 := mapX as real - cols as real / 2.0;
      var z0 := mapZ as real - rows as real / 2.0;
      assert x0 == CellX((mapZ, mapX), cols) && z0 == CellZ((mapZ, mapX), rows);
      if isAdding {
        var m := new Matrix4();
        m.SetTranslate(x0, GroundTop, z0);
        walls := walls + [Cube(0, White, m.elements[..])];
        var row := grid[mapZ];
        row := row[mapX := '#'];
        grid := grid[mapZ := row];
      } else {
        DeleteLastNear(x0, z0);
        var row := grid[mapZ];
        row := row[mapX := '.'];
        grid := grid[mapZ := row];
      }
    }

    /** The backward loop of the deleting branch: the last wall at the cell is spliced out. */
    method DeleteLastNear(x0: real, z0: real)
      requires Valid()
      modifies this
      ensures Valid()
      ensures walls == DeleteLast(old(walls), x0, z0) && grid == old(grid)
    {
      var i := |walls|;
      while i > 0
        invariant 0 <= i <= |walls|
        invariant walls == old(walls)
        invariant forall j | i <= j < |walls| :: !NearCell(walls[j], x0, z0)
      {
        i := i - 1;
        if NearCell(walls[i], x0, z0) {
          DeleteLastAt(walls, x0, z0, i);
          walls := walls[..i] + walls[i + 1..];
          return;
        }
      }
      assert !AnyNear(walls, x0, z0);
    }

    /** `keydown`: camera moves for the arrows, block edits for a and d. */
    method KeyDown(key: string, mapX: int, mapZ: int)
      requires Valid()
      requires KeyAction(key) in {AddBlock, DeleteBlock} ==> CanAim()
      modifies this, camera
      ensures Valid()
      ensures KeyAction(key) in {AddBlock, DeleteBlock} ==>
        camera.Current() == old(camera.Current()) &&
        Current() == Modify(old(Current()), KeyAction(key) == AddBlock, mapX, mapZ)
      ensures KeyAction(key) !in {AddBlock, DeleteBlock} ==> Current() == old(Current())
      ensures KeyAction(key) in {Ignore, TurnLeft, TurnRight} ==> camera.Current() == old(camera.Current())
      ensures KeyAction(key) == StepRight ==> camera.Current() == RightPose(camera.norm, old(camera.Current()))
      ensures KeyAction(key) == StepLeft ==> camera.Current() == LeftPose(camera.norm, old(camera.Current()))
      ensures KeyAction(key) == StepForward ==> camera.Current() == ForwardPose(camera.norm, old(camera.Current()))
      ensures KeyAction(key) == StepBack ==> camera.Current() == BackPose(camera.norm, old(camera.Current()))
    {
      match KeyAction(key)
      case StepRight => camera.Right();
      case StepLeft => camera.Left();
      case StepForward => camera.Forward();
      case StepBack => camera.Back();
      case AddBlock => ModifyBlockInFront(true, mapX, mapZ);
      case DeleteBlock => ModifyBlockInFront(false, mapX, mapZ);
      case _ =>
    }

    /**
     * One key press.  The page installs the handler both as a window
     * `keydown` listener and as `document.onkeydown`, so it runs twice.  An
     * edit leaves the camera where it is, so both runs aim at the same cell.
     */
    method KeyPress(key: string, mapX: int, mapZ: int)
      requires Valid()
      requires KeyAction(key) in {AddBlock, DeleteBlock} ==> CanAim()
      modifies this, camera
      ensures Valid()
      ensures KeyAction(key) in {AddBlock, DeleteBlock} ==>
        var isAdding := KeyAction(key) == AddBlock;
        camera.Current() == old(camera.Current()) &&
        Current() == Modify(Modify(old(Current()), isAdding, mapX, mapZ), isAdding, mapX, mapZ)
      ensures KeyAction(key) !in {AddBlock, DeleteBlock} ==> Current() == old(Current())
      ensures KeyAction(key) in {Ignore, TurnLeft, TurnRight} ==> camera.Current() == old(camera.Current())
      ensures KeyAction(key) == StepRight ==>
        camera.Current() == RightPose(camera.norm, RightPose(camera.norm, old(camera.Current())))
      ensures KeyAction(key) == StepLeft ==>
        camera.Current() == LeftPose(camera.norm, LeftPose(camera.norm, old(camera.Current())))
      ensures KeyAction(key) == StepForward ==>
        camera.Current() == ForwardPose(camera.norm, ForwardPose(camera.norm, old(camera.Current())))
      ensures KeyAction(key) == StepBack ==>
        camera.Current() == BackPose(camera.norm, BackPose(camera.norm, old(camera.Current())))
    {
      KeyDown(key, mapX, mapZ);
      KeyDown(key, mapX, mapZ);
    }
  }

  lemma BuiltWallsPlaced(grid: seq<string>)
    requires |grid| > 0
    ensures AllPlaced(BuiltWalls(grid))
  {
  }
}
