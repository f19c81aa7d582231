// Pac-Man in the maze world: an integer position on the 32 x 32 number map
// `g_map`, moved one guarded step at a time, and drawn as a yellow untextured
// cube standing on its cell.

module PacmanGame {
  import opened Colors
  import opened MatrixMath
  import opened Matrices
  import opened Scenery
  import opened MazeCube
  import MazeWorld

  /**
   * `g_map`: 3 on the border, 2 along row 16 and column 16 inside the
   * border, 0 everywhere else.  The 32 literal rows follow this rule, so the
   * map is written as the rule.
   */
  function CellValue(z: int, x: int): int {
    if z == 0 || z == 31 || x == 0 || x == 31 then 3
    else if z == 16 || x == 16 then 2
    else 0
  }

  function GMap(): seq<seq<int>> {
    seq(32, z requires 0 <= z < 32 => seq(32, x requires 0 <= x < 32 => CellValue(z, x)))
  }

  lemma GMapShape()
    ensures |GMap()| == 32 && forall z | 0 <= z < 32 :: |GMap()[z]| == 32
    ensures forall z, x | 0 <= z < 32 && 0 <= x < 32 :: GMap()[z][x] == CellValue(z, x)
  {
  }

  /** The cell `(z, x)` lies inside `g_map` and holds 0: the only cells Pac-Man may enter. */
  predicate Open(z: int, x: int) {
    0 <= z < |GMap()| && 0 <= x < |GMap()[0]| && GMap()[z][x] == 0
  }

  /** A position `[x, y, z]`. */
  datatype Position = Position(x: int, y: int, z: int)

  /** Where `move(dx, dz)` leaves Pac-Man: the target if it is open, else where he was. */
  function Moved(p: Position, dx: int, dz: int): (r: Position)
    ensures r.y == p.y
    ensures r == p || (Open(r.z, r.x) && r.x - p.x == dx && r.z - p.z == dz)
  {
    if Open(p.z + dz, p.x + dx) then Position(p.x + dx, p.y, p.z + dz) else p
  }

  const Start: Position := Position(1, 0, 1)

  /** The start position (1, 0, 1) is an open cell. */
  lemma StartIsOpen()
    ensures Open(Start.z, Start.x)
  {
    GMapShape();
    assert GMap()[1][1] == CellValue(1, 1);
  }

  /** A target outside the map, or on a wall, leaves the position unchanged. */
  lemma BlockedMoveIsNoop(p: Position, dx: int, dz: int)
    requires !(0 <= p.z + dz < 32 && 0 <= p.x + dx < 32) || CellValue(p.z + dz, p.x + dx) != 0
    ensures Moved(p, dx, dz) == p
  {
    GMapShape();
  }

  /** Standing on an open cell, every move ends on an open cell. */
  lemma MoveKeepsOpen(p: Position, dx: int, dz: int)
    requires Open(p.z, p.x)
    ensures Open(Moved(p, dx, dz).z, Moved(p, dx, dz).x)
  {
  }

  /** The quarter of the map, cut by the walls on row 16 and column 16, that holds a cell. */
  function Room(z: int, x: int): (bool, bool) {
    (z < 16, x < 16)
  }

  /**
   * The inner walls split the open cells into four rooms: a step of at most
   * one cell in each direction never leaves the room Pac-Man stands in.
   */
  lemma UnitMoveStaysInRoom(p: Position, dx: int, dz: int)
    requires Open(p.z, p.x) && -1 <= dx <= 1 && -1 <= dz <= 1
    ensures Room(Moved(p, dx, dz).z, Moved(p, dx, dz).x) == Room(p.z, p.x)
  {
    GMapShape();
    var r := Moved(p, dx, dz);
    if r != p {
      assert GMap()[r.z][r.x] == CellValue(r.z, r.x) == 0;
      assert GMap()[p.z][p.x] == CellValue(p.z, p.x) == 0;
    }
  }

  class Pacman {
    const position: array<int>
    var color: Rgba
    const model: MazeCube.Cube

    /** Pac-Man's position has three entries and names an open cell. */
    ghost predicate Valid()
      reads this, position, model, model.matrix
    {
      position.Length == 3 && model.Valid() && Open(position[2], position[0])
    }

    function Pose(): Position
      reads this, position
      requires position.Length == 3
    {
      Position(position[0], position[1], position[2])
    }

    /** Starts at (1, 0, 1), yellow, with a fresh cube as its model. */
    constructor()
      ensures Valid() && fresh(position) && fresh(model)
      ensures Pose() == Start && color == Yellow
    {
      position := new int[3] [1, 0, 1];
      color := Yellow;
      model := new MazeCube.Cube();
      StartIsOpen();
    }

    /** `move(dx, dz)`: step to the target only when it is inside the map and holds 0. */
    method Move(dx: int, dz: int)
      requires Valid()
      modifies position
      ensures Valid() && Pose() == Moved(old(Pose()), dx, dz)
    {
      var x, y, z := position[0], position[1], position[2];
      var newX, newZ := x + dx, z + dz;
      if 0 <= newZ < |GMap()| && 0 <= newX < |GMap()[0]| && GMap()[newZ][newX] == 0 {
        position[0] := newX;
        position[2] := newZ;
      }
    }

    /**
     * `render`: the model takes Pac-Man's colour and texture -2 and stands at
     * (x - WORLD_SIZE / 2, 0, z - WORLD_SIZE / 2); scaling by 1 keeps that.
     */
    method Render() returns (d: DrawCall)
      requires Valid()
      modifies model, model.matrix.elements
      ensures Valid() && model.color == color && model.textureNum == -2
      ensures d == DrawCall(Some(-2), color,
        Translation((position[0] - MazeWorld.Half) as real, 0.0, (position[2] - MazeWorld.Half) as real),
        SharedBuffer, 36)
    {
      model.color := color;
      model.textureNum := -2;
      model.matrix.SetTranslate((position[0] - MazeWorld.Half) as real, 0.0, (position[2] - MazeWorld.Half) as real);
      model.matrix.Scale(1.0, 1.0, 1.0);
      ScaleOne(Translation((position[0] - MazeWorld.Half) as real, 0.0, (position[2] - MazeWorld.Half) as real));
      d := model.Render();
    }
  }
}
