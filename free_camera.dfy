// The first-person camera of the lit block world.  forward/back move eye and
// at by 0.2 along the normalised line of sight, left/right by 0.2 along the
// normalised up × sight vector, and the pans rotate the line of sight about
// up by ±5 degrees around a fixed eye.
//
// The vector library's length is the `norm` parameter (see Vectors) and the
// rotation the pans build with the matrix library is the `rotate` parameter,
// a function of the angle in degrees, the axis and the vector rotated.

module FlyCamera {
  import opened Vectors
  import opened Poses

  const StepLength: real := 0.2
  const PanDegrees: real := 5.0

  /** normalize(at − eye): the unit line of sight, or zero when eye == at. */
  function Heading(norm: Vec3 -> real, p: Pose): Vec3 {
    Normalize(norm, View(p))
  }

  /** normalize(up × heading): the unit vector to the left of the sight line. */
  function Side(norm: Vec3 -> real, p: Pose): Vec3 {
    Normalize(norm, Cross(p.up, Heading(norm, p)))
  }

  function ForwardPose(norm: Vec3 -> real, p: Pose): (q: Pose)
    ensures View(q) == View(p) && q.up == p.up
    ensures Sub(q.eye, p.eye) == Scale(Heading(norm, p), StepLength)
  {
    Shift(p, Scale(Heading(norm, p), StepLength))
  }

  function BackPose(norm: Vec3 -> real, p: Pose): (q: Pose)
    ensures View(q) == View(p) && q.up == p.up
    ensures Sub(q.eye, p.eye) == Neg(Scale(Heading(norm, p), StepLength))
  {
    Shift(p, Neg(Scale(Heading(norm, p), StepLength)))
  }

  function LeftPose(norm: Vec3 -> real, p: Pose): (q: Pose)
    ensures View(q) == View(p) && q.up == p.up
    ensures Sub(q.eye, p.eye) == Scale(Side(norm, p), StepLength)
  {
    Shift(p, Scale(Side(norm, p), StepLength))
  }

  function RightPose(norm: Vec3 -> real, p: Pose): (q: Pose)
    ensures View(q) == View(p) && q.up == p.up
    ensures Sub(q.eye, p.eye) == Neg(Scale(Side(norm, p), StepLength))
  {
    Shift(p, Neg(Scale(Side(norm, p), StepLength)))
  }

  /** at := eye + rotate(at − eye): eye and up stay, the sight line turns. */
  function PanPose(rotate: (real, Vec3, Vec3) -> Vec3, degrees: real, p: Pose): (q: Pose)
    ensures q.eye == p.eye && q.up == p.up
    ensures View(q) == rotate(degrees, p.up, View(p))
  {
    Pose(p.eye, Add(p.eye, rotate(degrees, p.up, View(p))), p.up)
  }

  class Camera {
    var eye: Vec3
    var at: Vec3
    var up: Vec3
    const norm: Vec3 -> real
    const rotate: (real, Vec3, Vec3) -> Vec3

    function Current(): Pose
      reads this
    {
      Pose(eye, at, up)
    }

    constructor(norm: Vec3 -> real, rotate: (real, Vec3, Vec3) -> Vec3)
      ensures Current() == Initial
      ensures this.norm == norm && this.rotate == rotate
    {
      eye := Vec3(0.0, 0.0, 3.0);
      at := Vec3(0.0, 0.0, -100.0);
      up := Vec3(0.0, 1.0, 0.0);
      this.norm := norm;
      this.rotate := rotate;
    }

    method Forward()
      modifies this
      ensures Current() == ForwardPose(norm, old(Current()))
    {
      var f := at;
      f := Sub(f, eye);
      f := Normalize(norm, f);
      f := Scale(f, StepLength);
      eye := Add(eye, f);
      at := Add(at, f);
    }

    method Back()
      modifies this
      ensures Current() == BackPose(norm, old(Current()))
    {
      var f := at;
      f := Sub(f, eye);
      f := Normalize(norm, f);
      f := Scale(f, StepLength);
      eye := Sub(eye, f);
      at := Sub(at, f);
    }

    method Left()
      modifies this
      ensures Current() == LeftPose(norm, old(Current()))
    {
      var f := at;
      f := Sub(f, eye);
      f := Normalize(norm, f);
      var s := Cross(up, f);
      s := Normalize(norm, s);
      s := Scale(s, StepLength);
      eye := Add(eye, s);
      at := Add(at, s);
    }

    method Right()
      modifies this
      ensures Current() == RightPose(norm, old(Current()))
    {
      var f := at;
      f := Sub(f, eye);
      f := Normalize(norm, f);
      var s := Cross(up, f);
      s := Normalize(norm, s);
      s := Scale(s, StepLength);
      eye := Sub(eye, s);
      at := Sub(at, s);
    }

    method PanLeft()
      modifies this
      ensures Current() == PanPose(rotate, PanDegrees, old(Current()))
    {
      var f := at;
      f := Sub(f, eye);
      var turned := rotate(PanDegrees, up, f);
      at := eye;
      at := Add(at, turned);
    }

    method PanRight()
      modifies this
      ensures Current() == PanPose(rotate, -PanDegrees, old(Current()))
    {
      var f := at;
      f := Sub(f, eye);
      var turned := rotate(-PanDegrees, up, f);
      at := eye;
      at := Add(at, turned);
    }
  }

  /** back undoes forward and forward undoes back: the step depends only on at − eye. */
  lemma ForwardBackRoundTrip(norm: Vec3 -> real, p: Pose)
    ensures BackPose(norm, ForwardPose(norm, p)) == p
    ensures ForwardPose(norm, BackPose(norm, p)) == p
  {
    ShiftBack(p, Scale(Heading(norm, p), StepLength));
    ShiftBack(p, Neg(Scale(Heading(norm, p), StepLength)));
  }

  /** right undoes left and left undoes right: both use the same side vector. */
  lemma LeftRightRoundTrip(norm: Vec3 -> real, p: Pose)
    ensures RightPose(norm, LeftPose(norm, p)) == p
    ensures LeftPose(norm, RightPose(norm, p)) == p
  {
    ShiftBack(p, Scale(Side(norm, p), StepLength));
    ShiftBack(p, Neg(Scale(Side(norm, p), StepLength)));
  }

  /** A forward or back step has length 0.2 whenever eye and at differ. */
  lemma StepIsTwoTenths(norm: Vec3 -> real, p: Pose)
    requires IsNorm(norm) && p.at != p.eye
    ensures var d := Sub(ForwardPose(norm, p).eye, p.eye); Dot(d, d) == StepLength * StepLength
    ensures var d := Sub(BackPose(norm, p).eye, p.eye); Dot(d, d) == StepLength * StepLength
  {
    assert View(p) != Zero;
    var h := Heading(norm, p);
    NormalizeUnit(norm, View(p));
    DotScale(h, StepLength);
    assert Neg(Scale(h, StepLength)) == Scale(h, -StepLength);
    DotScale(h, -StepLength);
  }

  /**
   * Two forward steps from the initial pose, which is what one press of the
   * up arrow does while `keydown` is registered twice: the eye ends 0.4
   * nearer the scene instead of 0.2.
   */
  lemma ForwardTwiceFromInitial(norm: Vec3 -> real)
    requires norm(Vec3(0.0, 0.0, -103.0)) == 103.0
    ensures ForwardPose(norm, Initial).eye == Vec3(0.0, 0.0, 2.8)
    ensures ForwardPose(norm, ForwardPose(norm, Initial)).eye == Vec3(0.0, 0.0, 2.6)
  {
    var p := Pose(Vec3(0.0, 0.0, 2.8), Vec3(0.0, 0.0, -100.2), Vec3(0.0, 1.0, 0.0));
    InitialShiftedDown();
    FirstForwardSight();
    FirstForwardShiftedDown();
    InitialView();
    HeadingDownZ(norm, Initial);
    ForwardDownZ(norm, Initial);
    HeadingDownZ(norm, p);
    ForwardDownZ(norm, p);
  }

  /** Any pose with the initial line of sight has heading (0, 0, −1). */
  lemma HeadingDownZ(norm: Vec3 -> real, p: Pose)
    requires View(p) == Vec3(0.0, 0.0, -103.0) && norm(Vec3(0.0, 0.0, -103.0)) == 103.0
    ensures Heading(norm, p) == Vec3(0.0, 0.0, -1.0)
  {
    InitialSight(norm);
  }

  /** Heading down −z, forward shifts eye and at by (0, 0, −0.2). */
  lemma ForwardDownZ(norm: Vec3 -> real, p: Pose)
    requires Heading(norm, p) == Vec3(0.0, 0.0, -1.0)
    ensures ForwardPose(norm, p) == Shift(p, Vec3(0.0, 0.0, -StepLength))
  {
    DownStep();
  }

  lemma DownStep()
    ensures Scale(Vec3(0.0, 0.0, -1.0), StepLength) == Vec3(0.0, 0.0, -StepLength)
  {
  }

  /** The coordinates of one 0.2 shift towards −z from the initial pose. */
  lemma InitialShiftedDown()
    ensures Shift(Initial, Vec3(0.0, 0.0, -StepLength)) == Pose(Vec3(0.0, 0.0, 2.8), Vec3(0.0, 0.0, -100.2), Vec3(0.0, 1.0, 0.0))
  {
  }

  /** The first forward pose keeps the initial line of sight. */
  lemma FirstForwardSight()
    ensures View(Pose(Vec3(0.0, 0.0, 2.8), Vec3(0.0, 0.0, -100.2), Vec3(0.0, 1.0, 0.0))) == Vec3(0.0, 0.0, -103.0)
  {
  }

  /** A second 0.2 shift towards −z takes the eye to z = 2.6. */
  lemma FirstForwardShiftedDown()
    ensures Shift(Pose(Vec3(0.0, 0.0, 2.8), Vec3(0.0, 0.0, -100.2), Vec3(0.0, 1.0, 0.0)), Vec3(0.0, 0.0, -StepLength)).eye
      == Vec3(0.0, 0.0, 2.6)
  {
  }

  /** A sideways step has length 0.2 whenever up × heading is not zero. */
  lemma SideStepIsTwoTenths(norm: Vec3 -> real, p: Pose)
    requires IsNorm(norm) && Cross(p.up, Heading(norm, p)) != Zero
    ensures var d := Sub(LeftPose(norm, p).eye, p.eye); Dot(d, d) == StepLength * StepLength
    ensures var d := Sub(RightPose(norm, p).eye, p.eye); Dot(d, d) == StepLength * StepLength
  {
    var s := Side(norm, p);
    NormalizeUnit(norm, Cross(p.up, Heading(norm, p)));
    DotScale(s, StepLength);
    assert Neg(Scale(s, StepLength)) == Scale(s, -StepLength);
    DotScale(s, -StepLength);
  }

  /**
   * panRight undoes panLeft when the two rotations about up are inverse to
   * each other, as rotations by +5 and −5 degrees about one axis are.
   */
  lemma PanRoundTrip(rotate: (real, Vec3, Vec3) -> Vec3, p: Pose)
    requires forall v :: rotate(-PanDegrees, p.up, rotate(PanDegrees, p.up, v)) == v
    ensures PanPose(rotate, -PanDegrees, PanPose(rotate, PanDegrees, p)) == p
  {
    var q := PanPose(rotate, PanDegrees, p);
    assert View(PanPose(rotate, -PanDegrees, q)) == View(p);
  }
}
