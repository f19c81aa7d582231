// The eye/at/up triple both first-person cameras carry, and the one kind of
// move all their translations make: the same vector added to eye and at.

module Poses {
  import opened Vectors

  datatype Pose = Pose(eye: Vec3, at: Vec3, up: Vec3)

  /** Both cameras start at (0,0,3) looking at (0,0,-100) with +y up. */
  const Initial: Pose := Pose(Vec3(0.0, 0.0, 3.0), Vec3(0.0, 0.0, -100.0), Vec3(0.0, 1.0, 0.0))

  /** The line of sight, at − eye. */
  function View(p: Pose): Vec3 {
    Sub(p.at, p.eye)
  }

  /** The initial line of sight, 103 units down −z, normalises to (0, 0, −1). */
  lemma InitialSight(norm: Vec3 -> real)
    requires norm(Vec3(0.0, 0.0, -103.0)) == 103.0
    ensures Normalize(norm, Vec3(0.0, 0.0, -103.0)) == Vec3(0.0, 0.0, -1.0)
  {
    var k := 1.0 / 103.0;
    assert -103.0 * k == -1.0;
    assert 0.0 * k == 0.0;
    NormalizeByLength(norm, Vec3(0.0, 0.0, -103.0), 103.0);
  }

  /** The initial line of sight is 103 units down −z. */
  lemma InitialView()
    ensures View(Initial) == Vec3(0.0, 0.0, -103.0)
  {
  }

  /** Moves eye and at by the same vector `v`: the line of sight and up stay. */
  function Shift(p: Pose, v: Vec3): (q: Pose)
    ensures View(q) == View(p) && q.up == p.up
    ensures Sub(q.eye, p.eye) == v && Sub(q.at, p.at) == v
  {
    Pose(Add(p.eye, v), Add(p.at, v), p.up)
  }

  /** Shifting by `v` and then by −v returns to the start. */
  lemma ShiftBack(p: Pose, v: Vec3)
    ensures Shift(Shift(p, v), Neg(v)) == p
  {
  }
}
