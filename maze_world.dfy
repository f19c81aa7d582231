// The Pac-Man maze world: the wall and pellet lists built from the character
// grid, pellets eaten by walking over them, blocks added and deleted one grid
// cell in front of the camera, and the keyboard dispatch.  The world grid
// used for block editing is 32 x 32 cells centred on the origin, while the
// maze itself is 24 x 7, so built walls sit on half-integer z and editing
// targets on integer z.

module MazeWorld {
  import opened Colors
  import opened MatrixMath
  import opened Matrices
  import opened Vectors
  import opened Poses
  import opened MazeCamera
  import opened Scenery
  import opened Keys

  const WorldSize: int := 32
  const Half: int := 16
  /** Pellets within this horizontal distance of the eye are eaten. */
  const Reach: real := 0.5

  /** The wall list together with the two block counters. */
  datatype Tally = Tally(walls: seq<Cube>, added: int, deleted: int)

  predicate InWorld(mapX: int, mapZ: int) {
    0 <= mapX < WorldSize && 0 <= mapZ < WorldSize
  }

  /**
   * `modifyBlockInFront` on the walls and counters.  `dx`, `dz` is the flat
   * look vector; `mapX`, `mapZ` is the cell one unit ahead of the eye after
   * rounding.  Adding places a wood cube (texture 3) unless one is already
   * there; deleting removes the last wall at the cell.
   */
  function Modify(t: Tally, isAdding: bool, dx: real, dz: real, mapX: int, mapZ: int): (r: Tally)
    requires AllPlaced(t.walls)
    ensures AllPlaced(r.walls)
    ensures (dx == 0.0 && dz == 0.0) || !InWorld(mapX, mapZ) ==> r == t
    ensures 0 <= r.added - t.added <= 1 && 0 <= r.deleted - t.deleted <= 1
    ensures |r.walls| - |t.walls| == (r.added - t.added) - (r.deleted - t.deleted)
    ensures isAdding ==> r.deleted == t.deleted && r.walls[..|t.walls|] == t.walls
    ensures !isAdding ==> r.added == t.added
    ensures var x0, z0 := (mapX - Half) as real, (mapZ - Half) as real;
      (dx != 0.0 || dz != 0.0) && InWorld(mapX, mapZ) ==>
        (isAdding ==> (r.added == t.added + 1 <==> !AnyNear(t.walls, x0, z0))) &&
        (isAdding && AnyNear(t.walls, x0, z0) ==> r == t) &&
        (isAdding && !AnyNear(t.walls, x0, z0) ==> r.walls == t.walls + [WallCube(3, x0, z0)]) &&
        (!isAdding ==> r.walls == DeleteLast(t.walls, x0, z0))
  {
    if (dx == 0.0 && dz == 0.0) || !InWorld(mapX, mapZ) then t
    else
      var x0 := (mapX - Half) as real;
      var z0 := (mapZ - Half) as real;
      if isAdding then
        if AnyNear(t.walls, x0, z0) then t
        else Tally(t.walls + [WallCube(3, x0, z0)], t.added + 1, t.deleted)
      else
        var ws := DeleteLast(t.walls, x0, z0);
        Tally(ws, t.added, t.deleted + (|t.walls| - |ws|))
  }

  /** Adding twice at one cell adds one block. */
  lemma AddIsIdempotent(t: Tally, dx: real, dz: real, mapX: int, mapZ: int)
    requires AllPlaced(t.walls)
    ensures Modify(Modify(t, true, dx, dz, mapX, mapZ), true, dx, dz, mapX, mapZ) == Modify(t, true, dx, dz, mapX, mapZ)
  {
    var once := Modify(t, true, dx, dz, mapX, mapZ);
    if once != t {
      var x0 := (mapX - Half) as real;
      var z0 := (mapZ - Half) as real;
      assert NearCell(once.walls[|t.walls|], x0, z0);
    }
  }

  /** A block added where there was none is exactly what the next delete removes. */
  lemma AddThenDeleteRestores(t: Tally, dx: real, dz: real, mapX: int, mapZ: int)
    requires AllPlaced(t.walls)
    requires !AnyNear(t.walls, (mapX - Half) as real, (mapZ - Half) as real)
    ensures Modify(Modify(t, true, dx, dz, mapX, mapZ), false, dx, dz, mapX, mapZ).walls == t.walls
  {
    if !((dx == 0.0 && dz == 0.0) || !InWorld(mapX, mapZ)) {
      var x0 := (mapX - Half) as real;
      var z0 := (mapZ - Half) as real;
      DeleteAfterAppend(t.walls, WallCube(3, x0, z0), x0, z0);
    }
  }

  /**
   * A wall built from the maze is never within the tolerance of an editing
   * target: its z is a whole number minus 3.5, the target's a whole number.
   */
  lemma BuiltWallsAreFar(mapX: int, mapZ: int)
    ensures AllPlaced(BuiltWalls(PacmanMap))
    ensures forall i | 0 <= i < |BuiltWalls(PacmanMap)| ::
      !NearCell(BuiltWalls(PacmanMap)[i], (mapX - Half) as real, (mapZ - Half) as real)
  {
    var ws := BuiltWalls(PacmanMap);
    var cells := GridCells(PacmanMap, '#', 24, 7);
    forall i | 0 <= i < |ws|
      ensures !NearCell(ws[i], (mapX - Half) as real, (mapZ - Half) as real)
    {
      HalfIsFar(cells[i].0 - mapZ + Half);
      assert Z(ws[i]) - (mapZ - Half) as real == (cells[i].0 - mapZ + Half) as real - 3.5;
    }
  }

  lemma HalfIsFar(k: int)
    ensures !(-0.001 < k as real - 3.5 < 0.001)
  {
    if k <= 3 {
      assert k as real <= 3.0;
    } else {
      assert k as real >= 4.0;
    }
  }

  /** So deleting only ever removes blocks that adding created. */
  lemma DeleteSparesBuiltWalls(extra: seq<Cube>, mapX: int, mapZ: int)
    requires AllPlaced(extra)
    ensures AllPlaced(BuiltWalls(PacmanMap) + extra)
    ensures var x0 := (mapX - Half) as real;
            var z0 := (mapZ - Half) as real;
            DeleteLast(BuiltWalls(PacmanMap) + extra, x0, z0) == BuiltWalls(PacmanMap) + DeleteLast(extra, x0, z0)
  {
    BuiltWallsAreFar(mapX, mapZ);
    DeleteSkipsFarPrefix(BuiltWalls(PacmanMap), extra, (mapX - Half) as real, (mapZ - Half) as real);
  }

  /** A pellet is eaten when its horizontal distance to (px, pz) is below 0.5. */
  predicate Eaten(p: Cube, px: real, pz: real)
    requires Placed(p)
  {
    (X(p) - px) * (X(p) - px) + (Z(p) - pz) * (Z(p) - pz) < Reach * Reach
  }

  /** The pellets that survive `eatPellets`, in their original order. */
  function Uneaten(ps: seq<Cube>, px: real, pz: real): (r: seq<Cube>)
    requires AllPlaced(ps)
    ensures AllPlaced(r) && |r| <= |ps|
  {
    if |ps| == 0 then []
    else (if Eaten(ps[0], px, pz) then [] else [ps[0]]) + Uneaten(ps[1..], px, pz)
  }

  /** A pellet survives exactly when it was there and is out of reach. */
  lemma {:induction false} UneatenExact(ps: seq<Cube>, px: real, pz: real)
    requires AllPlaced(ps)
    ensures forall p :: p in Uneaten(ps, px, pz) <==> p in ps && Placed(p) && !Eaten(p, px, pz)
  {
    if |ps| > 0 {
      UneatenExact(ps[1..], px, pz);
      assert ps == [ps[0]] + ps[1..];
    }
  }

  /** Eating keeps the survivors' order: it distributes over concatenation. */
  lemma {:induction false} UneatenAppend(a: seq<Cube>, b: seq<Cube>, px: real, pz: real)
    requires AllPlaced(a) && AllPlaced(b)
    ensures AllPlaced(a + b)
    ensures Uneaten(a + b, px, pz) == Uneaten(a, px, pz) + Uneaten(b, px, pz)
  {
    assert AllPlaced(a + b) by {
      forall i | 0 <= i < |a + b| ensures Placed((a + b)[i]) {
        if i >= |a| { assert (a + b)[i] == b[i - |a|]; }
      }
    }
    if |a| > 0 {
      assert (a + b)[1..] == a[1..] + b;
      UneatenAppend(a[1..], b, px, pz);
    } else {
      assert a + b == b;
    }
  }

  /** Standing still, a second call eats nothing more. */
  lemma {:induction false} UneatenIdempotent(ps: seq<Cube>, px: real, pz: real)
    requires AllPlaced(ps)
    ensures Uneaten(Uneaten(ps, px, pz), px, pz) == Uneaten(ps, px, pz)
  {
    if |ps| > 0 {
      UneatenIdempotent(ps[1..], px, pz);
      var rest := Uneaten(ps[1..], px, pz);
      if !Eaten(ps[0], px, pz) {
        var once := [ps[0]] + rest;
        assert once[0] == ps[0] && once[1..] == rest;
        assert Uneaten(once, px, pz) == [ps[0]] + Uneaten(rest, px, pz);
      } else {
        assert Uneaten(ps, px, pz) == [] + rest;
        assert [] + rest == rest;
      }
    }
  }

  lemma UneatenStep(ps: seq<Cube>, i: nat, px: real, pz: real)
    requires AllPlaced(ps) && 0 < i <= |ps|
    ensures Uneaten(ps[i - 1..], px, pz) ==
      (if Eaten(ps[i - 1], px, pz) then [] else [ps[i - 1]]) + Uneaten(ps[i..], px, pz)
  {
    assert ps[i - 1..][1..] == ps[i..];
  }

  /** The key bindings of the maze: arrows move, q/e pan, b adds, d deletes. */
  function KeyAction(key: string): Action {
    var k := Lower(key);
    if k == "arrowright" then StepRight
    else if k == "arrowleft" then StepLeft
    else if k == "arrowup" then StepForward
    else if k == "arrowdown" then StepBack
    else if k == "q" then TurnLeft
    else if k == "e" then TurnRight
    else if k == "b" then AddBlock
    else if k == "d" then DeleteBlock
    else Ignore
  }

  class World {
    var walls: seq<Cube>
    var pellets: seq<Cube>
    var blocksAdded: int
    var blocksDeleted: int
    var pelletsEaten: int
    var initialPelletCount: int
    const camera: Camera

    /** Every cube has a matrix, and every pellet is either left or eaten. */
    ghost predicate Valid()
      reads this
    {
      AllPlaced(walls) && AllPlaced(pellets) && pelletsEaten + |pellets| == initialPelletCount
    }

    function Blocks(): Tally
      reads this
    {
      Tally(walls, blocksAdded, blocksDeleted)
    }

    constructor(norm: Vec3 -> real)
      ensures Valid() && fresh(camera)
      ensures walls == [] && pellets == []
      ensures blocksAdded == 0 && blocksDeleted == 0 && pelletsEaten == 0 && initialPelletCount == 0
      ensures camera.Current() == Initial && camera.norm == norm
    {
      walls := [];
      pellets := [];
      blocksAdded := 0;
      blocksDeleted := 0;
      pelletsEaten := 0;
      initialPelletCount := 0;
      camera := new Camera(norm);
    }

    /** `buildWorld`: the walls are cleared and rebuilt from the maze. */
    method BuildWorld()
      requires Valid()
      modifies this
      ensures Valid()
      ensures walls == BuiltWalls(PacmanMap)
      ensures pellets == old(pellets) && blocksAdded == old(blocksAdded) && blocksDeleted == old(blocksDeleted)
      ensures pelletsEaten == old(pelletsEaten) && initialPelletCount == old(initialPelletCount)
    {
      walls := LayWalls(PacmanMap);
    }

    /** `buildPellets`: one pellet per '.', then the counters restart. */
    method BuildPellets()
      requires Valid()
      modifies this
      ensures Valid()
      ensures pellets == BuiltPellets(PacmanMap)
      ensures initialPelletCount == |pellets| && pelletsEaten == 0
      ensures walls == old(walls) && blocksAdded == old(blocksAdded) && blocksDeleted == old(blocksDeleted)
    {
      pellets := LayPellets(PacmanMap);
      initialPelletCount := |pellets|;
      pelletsEaten := 0;
    }

    /** `eatPellets`: walk the list backwards, removing pellets within reach of the eye. */
    method EatPellets()
      requires Valid()
      modifies this
      ensures Valid()
      ensures pellets == Uneaten(old(pellets), camera.eye.x, camera.eye.z)
      ensures pelletsEaten == old(pelletsEaten) + (|old(pellets)| - |pellets|)
      ensures walls == old(walls) && blocksAdded == old(blocksAdded) && blocksDeleted == old(blocksDeleted)
      ensures initialPelletCount == old(initialPelletCount)
    {
      var px := camera.eye.x;
      var pz := camera.eye.z;
      ghost var start := pellets;
      var i := |pellets|;
      while i > 0
        invariant 0 <= i <= |start|
        invariant pellets == start[..i] + Uneaten(start[i..], px, pz)
        invariant pelletsEaten + |pellets| == old(pelletsEaten) + |start|
        invariant Valid()
        invariant walls == old(walls) && blocksAdded == old(blocksAdded) && blocksDeleted == old(blocksDeleted)
        invariant initialPelletCount == old(initialPelletCount)
      {
        i := i - 1;
        assert pellets[i] == start[i];
        UneatenStep(start, i + 1, px, pz);
        if Eaten(pellets[i], px, pz) {
          pellets := pellets[..i] + pellets[i + 1..];
          pelletsEaten := pelletsEaten + 1;
        }
        assert start[..i + 1] == start[..i] + [start[i]];
      }
      assert start[..0] + Uneaten(start[0..], px, pz) == Uneaten(start, px, pz) by {
        assert start[0..] == start;
      }
    }

    /** `modifyBlockInFront`: the cell is the one the rounded look point falls in. */
    method ModifyBlockInFront(isAdding: bool, mapX: int, mapZ: int)
      requires Valid()
      modifies this
      ensures Valid()
      ensures Blocks() == Modify(old(Blocks()), isAdding, camera.at.x - camera.eye.x, camera.at.z - camera.eye.z, mapX, mapZ)
      ensures pellets == old(pellets) && pelletsEaten == old(pelletsEaten) && initialPelletCount == old(initialPelletCount)
    {
      var dx := camera.at.x - camera.eye.x;
      var dz := camera.at.z - camera.eye.z;
      if dx == 0.0 && dz == 0.0 {
        return;
      }
      if mapX < 0 || mapX >= WorldSize || mapZ < 0 || mapZ >= WorldSize {
        return;
      }
      var x0 := (mapX - Half) as real;
      var z0 := (mapZ - Half) as real;
      if isAdding {
        AddUnlessNear(x0, z0);
      } else {
        DeleteLastNear(x0, z0);
      }
    }

    /** The adding branch: search the walls for one at the cell, push a wall cube when none is. */
    method AddUnlessNear(x0: real, z0: real)
      requires Valid()
      modifies this
      ensures Valid()
      ensures AnyNear(old(walls), x0, z0) ==> Blocks() == old(Blocks())
      ensures !AnyNear(old(walls), x0, z0) ==>
        Blocks() == Tally(old(walls) + [WallCube(3, x0, z0)], old(blocksAdded) + 1, old(blocksDeleted))
      ensures pellets == old(pellets) && pelletsEaten == old(pelletsEaten) && initialPelletCount == old(initialPelletCount)
    {
      var found := false;
      var k := 0;
      while k < |walls| && !found
        invariant 0 <= k <= |walls|
        invariant found <==> exists j | 0 <= j < k :: NearCell(walls[j], x0, z0)
      {
        found := NearCell(walls[k], x0, z0);
        k := k + 1;
      }
      if !found {
        var m := new Matrix4();
        m.SetTranslate(x0, GroundTop, z0);
        walls := walls + [Cube(3, White, m.elements[..])];
        blocksAdded := blocksAdded + 1;
      }
    }

    /** The deleting branch: walk the walls backwards and splice out the first one at the cell. */
    method DeleteLastNear(x0: real, z0: real)
      requires Valid()
      modifies this
      ensures Valid()
      ensures walls == DeleteLast(old(walls), x0, z0) && blocksAdded == old(blocksAdded)
      ensures blocksDeleted == old(blocksDeleted) + (|old(walls)| - |walls|)
      ensures pellets == old(pellets) && pelletsEaten == old(pelletsEaten) && initialPelletCount == old(initialPelletCount)
    {
      var i := |walls|;
      while i > 0
        invariant 0 <= i <= |walls|
        invariant walls == old(walls) && blocksDeleted == old(blocksDeleted)
        invariant forall j | i <= j < |walls| :: !NearCell(walls[j], x0, z0)
      {
        i := i - 1;
        if NearCell(walls[i], x0, z0) {
          DeleteLastAt(walls, x0, z0, i);
          walls := walls[..i] + walls[i + 1..];
          blocksDeleted := blocksDeleted + 1;
          return;
        }
      }
      assert !AnyNear(walls, x0, z0);
    }

    /**
     * `keydown`.  The camera of this world has no pans, so 'q' and 'e' throw
     * (reported as `threw`) and change nothing.
     */
    method KeyDown(key: string, mapX: int, mapZ: int) returns (threw: bool)
      requires Valid()
      modifies this, camera
      ensures Valid()
      ensures threw <==> KeyAction(key) in {TurnLeft, TurnRight}
      ensures pellets == old(pellets) && pelletsEaten == old(pelletsEaten) && initialPelletCount == old(initialPelletCount)
      ensures KeyAction(key) in {AddBlock, DeleteBlock} ==>
        camera.Current() == old(camera.Current()) &&
        Blocks() == Modify(old(Blocks()), KeyAction(key) == AddBlock,
                           camera.at.x - camera.eye.x, camera.at.z - camera.eye.z, mapX, mapZ)
      ensures KeyAction(key) !in {AddBlock, DeleteBlock} ==> Blocks() == old(Blocks())
      ensures KeyAction(key) in {Ignore, TurnLeft, TurnRight} ==> camera.Current() == old(camera.Current())
      ensures KeyAction(key) == StepRight ==> camera.Current() == RightPose(camera.norm, old(camera.Current()))
      ensures KeyAction(key) == StepLeft ==> camera.Current() == LeftPose(camera.norm, old(camera.Current()))
      ensures KeyAction(key) == StepForward ==> camera.Current() == ForwardPose(camera.norm, old(camera.Current()))
      ensures KeyAction(key) == StepBack ==> camera.Current() == BackPose(camera.norm, old(camera.Current()))
    {
      threw := false;
      match KeyAction(key)
      case StepRight => camera.Right();
      case StepLeft => camera.Left();
      case StepForward => camera.Forward();
      case StepBack => camera.Back();
      case TurnLeft => threw := true;
      case TurnRight => threw := true;
      case AddBlock => ModifyBlockInFront(true, mapX, mapZ);
      case DeleteBlock => ModifyBlockInFront(false, mapX, mapZ);
      case Ignore =>
    }

    /**
     * One key press.  The page installs the handler both as a window
     * `keydown` listener and as `document.onkeydown`, so it runs twice, and
     * a throw in the first run does not stop the second.  An edit leaves the
     * camera where it is, so both runs aim at the same cell.
     */
    method KeyPress(key: string, mapX: int, mapZ: int) returns (threw: bool)
      requires Valid()
      modifies this, camera
      ensures Valid()
      ensures threw <==> KeyAction(key) in {TurnLeft, TurnRight}
      ensures pellets == old(pellets) && pelletsEaten == old(pelletsEaten) && initialPelletCount == old(initialPelletCount)
      ensures KeyAction(key) in {AddBlock, DeleteBlock} ==>
        var isAdding, dx, dz := KeyAction(key) == AddBlock, camera.at.x - camera.eye.x, camera.at.z - camera.eye.z;
        camera.Current() == old(camera.Current()) &&
        Blocks() == Modify(Modify(old(Blocks()), isAdding, dx, dz, mapX, mapZ), isAdding, dx, dz, mapX, mapZ)
      ensures KeyAction(key) !in {AddBlock, DeleteBlock} ==> Blocks() == old(Blocks())
      ensures KeyAction(key) in {Ignore, TurnLeft, TurnRight} ==> camera.Current() == old(camera.Current())
      ensures KeyAction(key) == StepRight ==>
        camera.Current() == RightPose(camera.norm, RightPose(camera.norm, old(camera.Current())))
      ensures KeyAction(key) == StepLeft ==>
        camera.Current() == LeftPose(camera.norm, LeftPose(camera.norm, old(camera.Current())))
      ensures KeyAction(key) == StepForward ==>
        camera.Current() == ForwardPose(camera.norm, ForwardPose(camera.norm, old(camera.Current())))
      ensures KeyAction(key) == StepBack ==>
        camera.Current() == BackPose(camera.norm, BackPose(camera.norm, old(camera.Current())))
    {
      threw := KeyDown(key, mapX, mapZ);
      var again := KeyDown(key, mapX, mapZ);
      threw := threw || again;
    }
  }
}
