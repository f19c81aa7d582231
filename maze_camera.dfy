// The first-person camera of the Pac-Man maze.  Its steps are unit vectors
// without a step length.  forward overwrites the scratch vector with `at`
// after subtracting eye from it, so it steps along normalize(at) rather than
// along the line of sight; back likewise steps along normalize(eye) and adds
// it.  left steps along normalize(up × f) and right along normalize(f × up),
// with f = normalize(at − eye).  The class has no pans.

module MazeCamera {
  import opened Vectors
  import opened Poses

  /** normalize(at − eye), the scratch vector left and right start from. */
  function Heading(norm: Vec3 -> real, p: Pose): Vec3 {
    Normalize(norm, View(p))
  }

  /** forward as written: eye and at both gain normalize(at). */
  function ForwardPose(norm: Vec3 -> real, p: Pose): (q: Pose)
    ensures View(q) == View(p) && q.up == p.up
    ensures Sub(q.eye, p.eye) == Normalize(norm, p.at)
  {
    Shift(p, Normalize(norm, p.at))
  }

  /** back as written: eye and at both gain normalize(eye). */
  function BackPose(norm: Vec3 -> real, p: Pose): (q: Pose)
    ensures View(q) == View(p) && q.up == p.up
    ensures Sub(q.eye, p.eye) == Normalize(norm, p.eye)
  {
    Shift(p, Normalize(norm, p.eye))
  }

  function LeftPose(norm: Vec3 -> real, p: Pose): (q: Pose)
    ensures View(q) == View(p) && q.up == p.up
    ensures Sub(q.eye, p.eye) == Normalize(norm, Cross(p.up, Heading(norm, p)))
  {
    Shift(p, Normalize(norm, Cross(p.up, Heading(norm, p))))
  }

  function RightPose(norm: Vec3 -> real, p: Pose): (q: Pose)
    ensures View(q) == View(p) && q.up == p.up
    ensures Sub(q.eye, p.eye) == Normalize(norm, Cross(Heading(norm, p), p.up))
  {
    Shift(p, Normalize(norm, Cross(Heading(norm, p), p.up)))
  }

  /** The step forward evidently means: one unit along the line of sight. */
  function CorrectedForwardPose(norm: Vec3 -> real, p: Pose): (q: Pose)
    ensures View(q) == View(p) && q.up == p.up
    ensures Sub(q.eye, p.eye) == Heading(norm, p)
  {
    Shift(p, Heading(norm, p))
  }

  /** The step back evidently means: one unit against the line of sight. */
  function CorrectedBackPose(norm: Vec3 -> real, p: Pose): (q: Pose)
    ensures View(q) == View(p) && q.up == p.up
    ensures Sub(q.eye, p.eye) == Neg(Heading(norm, p))
  {
    Shift(p, Neg(Heading(norm, p)))
  }

  class Camera {
    var eye: Vec3
    var at: Vec3
    var up: Vec3
    const norm: Vec3 -> real

    function Current(): Pose
      reads this
    {
      Pose(eye, at, up)
    }

    constructor(norm: Vec3 -> real)
      ensures Current() == Initial && this.norm == norm
    {
      eye := Vec3(0.0, 0.0, 3.0);
      at := Vec3(0.0, 0.0, -100.0);
      up := Vec3(0.0, 1.0, 0.0);
      this.norm := norm;
    }

    /** The subtraction is lost: `f` is overwritten with `at` before normalising. */
    method Forward()
      modifies this
      ensures Current() == ForwardPose(norm, old(Current()))
    {
      var f := Zero;
      f := Sub(f, eye);
      f := at;
      f := Normalize(norm, f);
      at := Add(at, f);
      eye := Add(eye, f);
    }

    /** As in Forward, `f` ends as `eye`, and it is added rather than subtracted. */
    method Back()
      modifies this
      ensures Current() == BackPose(norm, old(Current()))
    {
      var f := Zero;
      f := Sub(f, at);
      f := eye;
      f := Normalize(norm, f);
      at := Add(at, f);
      eye := Add(eye, f);
    }

    method Left()
      modifies this
      ensures Current() == LeftPose(norm, old(Current()))
    {
      var f := at;
      f := Sub(f, eye);
      f := Normalize(norm, f);
      var s := Cross(up, f);
      s := Normalize(norm, s);
      eye := Add(eye, s);
      at := Add(at, s);
    }

    method Right()
      modifies this
      ensures Current() == RightPose(norm, old(Current()))
    {
      var f := at;
      f := Sub(f, eye);
      f := Normalize(norm, f);
      var s := Cross(f, up);
      s := Normalize(norm, s);
      eye := Add(eye, s);
      at := Add(at, s);
    }
  }

  lemma CrossSwap(a: Vec3, b: Vec3)
    ensures Cross(b, a) == Neg(Cross(a, b))
  {
  }

  /** right's step is the negation of left's, so each undoes the other. */
  lemma LeftRightRoundTrip(norm: Vec3 -> real, p: Pose)
    requires IsNorm(norm)
    ensures Sub(RightPose(norm, p).eye, p.eye) == Neg(Sub(LeftPose(norm, p).eye, p.eye))
    ensures RightPose(norm, LeftPose(norm, p)) == p
    ensures LeftPose(norm, RightPose(norm, p)) == p
  {
    var s := Cross(p.up, Heading(norm, p));
    CrossSwap(p.up, Heading(norm, p));
    NormalizeNeg(norm, s);
    ShiftBack(p, Normalize(norm, s));
    assert Neg(Neg(Normalize(norm, s))) == Normalize(norm, s);
    ShiftBack(p, Neg(Normalize(norm, s)));
  }

  /** Normalising a vector whose squared length is a known square. */
  lemma NormalizeKnown(norm: Vec3 -> real, v: Vec3, len: real)
    requires IsNorm(norm) && 0.0 < len && Dot(v, v) == len * len
    ensures norm(v) == len && Normalize(norm, v) == Scale(v, 1.0 / len)
  {
    SquareRootUnique(norm(v), len);
  }

  /**
   * After one step left from the initial pose the camera looks straight down
   * −z, yet forward moves it along x as well: its step is not along the line
   * of sight.
   */
  lemma ForwardLeavesLineOfSight(norm: Vec3 -> real)
    requires IsNorm(norm)
    ensures var p := LeftPose(norm, Initial);
      p == Pose(Vec3(-1.0, 0.0, 3.0), Vec3(-1.0, 0.0, -100.0), Vec3(0.0, 1.0, 0.0)) &&
      View(p).x == 0.0 && ForwardPose(norm, p).eye.x != p.eye.x
  {
    LeftOfInitial(norm);
    ForwardAfterLeft(norm);
  }

  lemma LeftOfInitial(norm: Vec3 -> real)
    requires IsNorm(norm)
    ensures LeftPose(norm, Initial) == Pose(Vec3(-1.0, 0.0, 3.0), Vec3(-1.0, 0.0, -100.0), Vec3(0.0, 1.0, 0.0))
  {
    NormalizeKnown(norm, Vec3(0.0, 0.0, -103.0), 103.0);
    NormalizeKnown(norm, Vec3(-1.0, 0.0, 0.0), 1.0);
    LeftFromInitial(norm);
  }

  /**
   * Two steps left from the initial pose, which is what one press of the left
   * arrow does while `keydown` is registered twice: the eye ends two units
   * left instead of one.
   */
  lemma LeftTwiceFromInitial(norm: Vec3 -> real)
    requires norm(Vec3(0.0, 0.0, -103.0)) == 103.0 && norm(Vec3(-1.0, 0.0, 0.0)) == 1.0
    ensures LeftPose(norm, LeftPose(norm, Initial)).eye == Vec3(-2.0, 0.0, 3.0)
  {
    LeftFromInitial(norm);
    LeftOfFirstLeft(norm);
  }

  lemma LeftOfFirstLeft(norm: Vec3 -> real)
    requires norm(Vec3(0.0, 0.0, -103.0)) == 103.0 && norm(Vec3(-1.0, 0.0, 0.0)) == 1.0
    ensures LeftPose(norm, Pose(Vec3(-1.0, 0.0, 3.0), Vec3(-1.0, 0.0, -100.0), Vec3(0.0, 1.0, 0.0))).eye
      == Vec3(-2.0, 0.0, 3.0)
  {
    var p := Pose(Vec3(-1.0, 0.0, 3.0), Vec3(-1.0, 0.0, -100.0), Vec3(0.0, 1.0, 0.0));
    FirstLeftSight();
    FirstLeftShiftedLeft();
    HeadingDownZ(norm, p);
    LeftAlongMinusZ(norm, p);
  }

  lemma ForwardAfterLeft(norm: Vec3 -> real)
    requires IsNorm(norm)
    ensures ForwardPose(norm, Pose(Vec3(-1.0, 0.0, 3.0), Vec3(-1.0, 0.0, -100.0), Vec3(0.0, 1.0, 0.0))).eye.x != -1.0
  {
    StepAcross(norm, Vec3(-1.0, 0.0, -100.0));
    ForwardMovesAcross(norm, Pose(Vec3(-1.0, 0.0, 3.0), Vec3(-1.0, 0.0, -100.0), Vec3(0.0, 1.0, 0.0)));
  }

  lemma ForwardMovesAcross(norm: Vec3 -> real, p: Pose)
    requires Normalize(norm, p.at).x != 0.0
    ensures ForwardPose(norm, p).eye.x != p.eye.x
  {
  }

  lemma LeftFromInitial(norm: Vec3 -> real)
    requires norm(Vec3(0.0, 0.0, -103.0)) == 103.0 && norm(Vec3(-1.0, 0.0, 0.0)) == 1.0
    ensures LeftPose(norm, Initial) == Pose(Vec3(-1.0, 0.0, 3.0), Vec3(-1.0, 0.0, -100.0), Vec3(0.0, 1.0, 0.0))
  {
    InitialShiftedLeft();
    InitialView();
    HeadingDownZ(norm, Initial);
    LeftAlongMinusZ(norm, Initial);
  }

  /** Any pose with the initial line of sight has heading (0, 0, −1). */
  lemma HeadingDownZ(norm: Vec3 -> real, p: Pose)
    requires View(p) == Vec3(0.0, 0.0, -103.0) && norm(Vec3(0.0, 0.0, -103.0)) == 103.0
    ensures Heading(norm, p) == Vec3(0.0, 0.0, -1.0)
  {
    InitialSight(norm);
  }

  /** Heading down −z with up along +y, left shifts eye and at by (−1, 0, 0). */
  lemma LeftAlongMinusZ(norm: Vec3 -> real, p: Pose)
    requires Heading(norm, p) == Vec3(0.0, 0.0, -1.0) && p.up == Vec3(0.0, 1.0, 0.0)
    requires norm(Vec3(-1.0, 0.0, 0.0)) == 1.0
    ensures LeftPose(norm, p) == Shift(p, Vec3(-1.0, 0.0, 0.0))
  {
    TurnLeftOfBack(p.up, Heading(norm, p));
    LeftByUnit(norm, p, Vec3(-1.0, 0.0, 0.0));
  }

  /** The coordinates of one unit shift towards −x from the initial pose. */
  lemma InitialShiftedLeft()
    ensures Shift(Initial, Vec3(-1.0, 0.0, 0.0)) == Pose(Vec3(-1.0, 0.0, 3.0), Vec3(-1.0, 0.0, -100.0), Vec3(0.0, 1.0, 0.0))
  {
  }

  /** The first left pose keeps the initial line of sight. */
  lemma FirstLeftSight()
    ensures View(Pose(Vec3(-1.0, 0.0, 3.0), Vec3(-1.0, 0.0, -100.0), Vec3(0.0, 1.0, 0.0))) == Vec3(0.0, 0.0, -103.0)
  {
  }

  /** A second unit shift towards −x takes the eye to x = −2. */
  lemma FirstLeftShiftedLeft()
    ensures Shift(Pose(Vec3(-1.0, 0.0, 3.0), Vec3(-1.0, 0.0, -100.0), Vec3(0.0, 1.0, 0.0)), Vec3(-1.0, 0.0, 0.0)).eye
      == Vec3(-2.0, 0.0, 3.0)
  {
  }

  /** Up (0, 1, 0) across the heading (0, 0, -1) is (-1, 0, 0). */
  lemma TurnLeftOfBack(up: Vec3, h: Vec3)
    requires up == Vec3(0.0, 1.0, 0.0) && h == Vec3(0.0, 0.0, -1.0)
    ensures Cross(up, h) == Vec3(-1.0, 0.0, 0.0)
  {
  }

  /** When up across the heading is already a unit vector, left moves by exactly that vector. */
  lemma LeftByUnit(norm: Vec3 -> real, p: Pose, l: Vec3)
    requires Cross(p.up, Heading(norm, p)) == l && norm(l) == 1.0
    ensures LeftPose(norm, p) == Shift(p, l)
  {
    assert Scale(l, 1.0 / 1.0) == l;
  }

  /** A non-zero vector with a non-zero x keeps a non-zero x when normalised. */
  lemma StepAcross(norm: Vec3 -> real, v: Vec3)
    requires IsNorm(norm) && v.x != 0.0
    ensures Normalize(norm, v).x != 0.0
  {
    NormZero(norm, v);
    var k := 1.0 / norm(v);
    assert k != 0.0;
    if v.x * k == 0.0 {
      ProductZero(v.x, k);
    }
  }

  /**
   * Past the origin back moves the camera further forward: from eye (0,0,−3)
   * looking at (0,0,−100), forward then back ends at eye (0,0,−5).
   */
  lemma BackDoesNotUndoForward(norm: Vec3 -> real)
    requires IsNorm(norm)
    ensures var p := Pose(Vec3(0.0, 0.0, -3.0), Vec3(0.0, 0.0, -100.0), Vec3(0.0, 1.0, 0.0));
      BackPose(norm, ForwardPose(norm, p)).eye == Vec3(0.0, 0.0, -5.0)
  {
    NormalizeKnown(norm, Vec3(0.0, 0.0, -100.0), 100.0);
    NormalizeKnown(norm, Vec3(0.0, 0.0, -4.0), 4.0);
    ForwardPastOrigin(norm);
    BackPastOrigin(norm);
  }

  lemma ForwardPastOrigin(norm: Vec3 -> real)
    requires norm(Vec3(0.0, 0.0, -100.0)) == 100.0
    ensures ForwardPose(norm, Pose(Vec3(0.0, 0.0, -3.0), Vec3(0.0, 0.0, -100.0), Vec3(0.0, 1.0, 0.0)))
         == Pose(Vec3(0.0, 0.0, -4.0), Vec3(0.0, 0.0, -101.0), Vec3(0.0, 1.0, 0.0))
  {
    assert Normalize(norm, Vec3(0.0, 0.0, -100.0)) == Vec3(0.0, 0.0, -1.0);
  }

  lemma BackPastOrigin(norm: Vec3 -> real)
    requires norm(Vec3(0.0, 0.0, -4.0)) == 4.0
    ensures BackPose(norm, Pose(Vec3(0.0, 0.0, -4.0), Vec3(0.0, 0.0, -101.0), Vec3(0.0, 1.0, 0.0))).eye
         == Vec3(0.0, 0.0, -5.0)
  {
    assert Normalize(norm, Vec3(0.0, 0.0, -4.0)) == Vec3(0.0, 0.0, -1.0);
  }

  /** The corrected steps undo each other. */
  lemma CorrectedRoundTrip(norm: Vec3 -> real, p: Pose)
    ensures CorrectedBackPose(norm, CorrectedForwardPose(norm, p)) == p
    ensures CorrectedForwardPose(norm, CorrectedBackPose(norm, p)) == p
  {
    ShiftBack(p, Heading(norm, p));
    ShiftBack(p, Neg(Heading(norm, p)));
  }

  /** The corrected forward step is a positive multiple of the line of sight. */
  lemma CorrectedForwardAlongSight(norm: Vec3 -> real, p: Pose)
    requires IsNorm(norm) && p.at != p.eye
    ensures exists k: real :: k > 0.0 && Sub(CorrectedForwardPose(norm, p).eye, p.eye) == Scale(View(p), k)
  {
    NormZero(norm, View(p));
    var k := 1.0 / norm(View(p));
    assert Sub(CorrectedForwardPose(norm, p).eye, p.eye) == Scale(View(p), k);
  }
}
