// The Lion King scene's camera controls: spherical coordinates (radius,
// theta, phi) around a target, steered by mouse drags, the wheel and single
// touches, with flags for the held buttons.  Dragging with the left button
// (or one finger) turns the camera and keeps phi away from the poles; the
// wheel zooms and keeps the radius in [10, 50].

module OrbitControls {
  import opened Vectors

  const MinPhi: real := 0.1
  const MaxPhi: real := Pi - 0.1
  const MinRadius: real := 10.0
  const MaxRadius: real := 50.0
  /** Radians per pixel of drag. */
  const TurnRate: real := 0.01
  /** Radius per unit of wheel travel, and target travel per pixel of pan. */
  const ZoomRate: real := 0.05
  const PanSpeed: real := 0.05

  const LeftButton: int := 0
  const RightButton: int := 2

  datatype Spherical = Spherical(radius: real, theta: real, phi: real)

  predicate InRange(s: Spherical) {
    MinRadius <= s.radius <= MaxRadius && MinPhi <= s.phi <= MaxPhi
  }

  /** `Math.max(lo, Math.min(hi, v))`. */
  function Clamp(lo: real, hi: real, v: real): (r: real)
    requires lo <= hi
    ensures lo <= r <= hi
    ensures lo <= v <= hi ==> r == v
    ensures r == v || r == lo || r == hi
  {
    if v > hi then hi else if v < lo then lo else v
  }

  /** A drag by (dx, dy): theta falls with dx, phi rises with dy and is clamped. */
  function Turn(s: Spherical, dx: real, dy: real): (r: Spherical)
    ensures r.radius == s.radius && MinPhi <= r.phi <= MaxPhi
    ensures InRange(s) ==> InRange(r)
    ensures MinPhi <= s.phi + dy * TurnRate <= MaxPhi ==> r.phi == s.phi + dy * TurnRate
  {
    Spherical(s.radius, s.theta - dx * TurnRate, Clamp(MinPhi, MaxPhi, s.phi + dy * TurnRate))
  }

  /** A wheel turn by `deltaY`: the radius moves by a twentieth of it and is clamped. */
  function Zoom(s: Spherical, deltaY: real): (r: Spherical)
    ensures r.theta == s.theta && r.phi == s.phi && MinRadius <= r.radius <= MaxRadius
    ensures InRange(s) ==> InRange(r)
  {
    s.(radius := Clamp(MinRadius, MaxRadius, s.radius + deltaY * ZoomRate))
  }

  /** The start, radius 25, theta 0 and phi = pi / 3, is in range. */
  lemma StartInRange()
    ensures InRange(Spherical(25.0, 0.0, Pi / 3.0))
  {
  }

  /** A drag and the opposite drag cancel when phi was not clamped on the way. */
  lemma TurnRoundTrip(s: Spherical, dx: real, dy: real)
    requires InRange(s) && MinPhi <= s.phi + dy * TurnRate <= MaxPhi
    ensures Turn(Turn(s, dx, dy), -dx, -dy) == s
  {
    var once := Turn(s, dx, dy);
    assert once.phi == s.phi + dy * TurnRate;
    assert once.phi + (-dy) * TurnRate == s.phi;
  }

  /** Turning the wheel back and forth cancels when the radius was not clamped on the way. */
  lemma ZoomRoundTrip(s: Spherical, deltaY: real)
    requires InRange(s) && MinRadius <= s.radius + deltaY * ZoomRate <= MaxRadius
    ensures Zoom(Zoom(s, deltaY), -deltaY) == s
  {
    var once := Zoom(s, deltaY);
    assert once.radius == s.radius + deltaY * ZoomRate;
    assert once.radius + (-deltaY) * ZoomRate == s.radius;
  }

  class Controls {
    var mouseX: real
    var mouseY: real
    var targetX: real
    var targetY: real
    var isLeftMouseDown: bool
    var isRightMouseDown: bool
    var spherical: Spherical
    var target: Vec3

    /** Radius and phi stay in range. */
    ghost predicate Valid()
      reads this
    {
      InRange(spherical)
    }

    function Buttons(): (bool, bool)
      reads this
    {
      (isLeftMouseDown, isRightMouseDown)
    }

    function Mouse(): (real, real)
      reads this
    {
      (mouseX, mouseY)
    }

    /** No button held, the mouse at 0, radius 25, theta 0, phi pi / 3, target the origin. */
    constructor()
      ensures Valid()
      ensures Buttons() == (false, false) && Mouse() == (0.0, 0.0) && targetX == 0.0 && targetY == 0.0
      ensures spherical == Spherical(25.0, 0.0, Pi / 3.0) && target == Zero
    {
      mouseX, mouseY, targetX, targetY := 0.0, 0.0, 0.0, 0.0;
      isLeftMouseDown, isRightMouseDown := false, false;
      spherical := Spherical(25.0, 0.0, Pi / 3.0);
      target := Zero;
    }

    /** Button 0 sets the left flag, button 2 the right flag; the mouse position is always recorded. */
    method MouseDown(button: int, clientX: real, clientY: real)
      modifies this
      ensures isLeftMouseDown == (old(isLeftMouseDown) || button == LeftButton)
      ensures isRightMouseDown == (old(isRightMouseDown) || button == RightButton)
      ensures Mouse() == (clientX, clientY)
      ensures spherical == old(spherical) && target == old(target)
    {
      if button == 0 {
        isLeftMouseDown := true;
      } else if button == 2 {
        isRightMouseDown := true;
      }
      mouseX := clientX;
      mouseY := clientY;
    }

    /** Releasing a button clears its own flag and nothing else. */
    method MouseUp(button: int)
      modifies this
      ensures isLeftMouseDown == (old(isLeftMouseDown) && button != LeftButton)
      ensures isRightMouseDown == (old(isRightMouseDown) && button != RightButton)
      ensures Mouse() == old(Mouse()) && spherical == old(spherical) && target == old(target)
    {
      if button == 0 {
        isLeftMouseDown := false;
      } else if button == 2 {
        isRightMouseDown := false;
      }
    }

    /**
     * A move with the left button held turns the camera; with only the right
     * button held it pans the target along the camera's right and up axes
     * (`right` and `up`, the first two columns of the camera's matrix).
     */
    method MouseMove(clientX: real, clientY: real, right: Vec3, up: Vec3)
      requires Valid()
      modifies this
      ensures Valid() && Buttons() == old(Buttons())
      ensures !isLeftMouseDown && !isRightMouseDown ==>
        Mouse() == old(Mouse()) && spherical == old(spherical) && target == old(target)
      ensures isLeftMouseDown ==>
        spherical == Turn(old(spherical), clientX - old(mouseX), clientY - old(mouseY)) &&
        target == old(target)
      ensures !isLeftMouseDown && isRightMouseDown ==>
        spherical == old(spherical) &&
        target == Add(Add(old(target), Scale(right, -(clientX - old(mouseX)) * PanSpeed)),
                      Scale(up, (clientY - old(mouseY)) * PanSpeed))
      ensures isLeftMouseDown || isRightMouseDown ==> Mouse() == (clientX, clientY)
    {
      if !isLeftMouseDown && !isRightMouseDown {
        return;
      }
      var deltaX := clientX - mouseX;
      var deltaY := clientY - mouseY;
      if isLeftMouseDown {
        spherical := spherical.(theta := spherical.theta - deltaX * 0.01);
        spherical := spherical.(phi := spherical.phi + deltaY * 0.01);
        spherical := spherical.(phi := Clamp(0.1, Pi - 0.1, spherical.phi));
      } else if isRightMouseDown {
        target := Add(target, Scale(right, -deltaX * PanSpeed));
        target := Add(target, Scale(up, deltaY * PanSpeed));
      }
      mouseX := clientX;
      mouseY := clientY;
    }

    /** The wheel zooms by a twentieth of its travel, keeping the radius in [10, 50]. */
    method MouseWheel(deltaY: real)
      requires Valid()
      modifies this
      ensures Valid() && spherical == Zoom(old(spherical), deltaY)
      ensures Buttons() == old(Buttons()) && Mouse() == old(Mouse()) && target == old(target)
    {
      spherical := spherical.(radius := spherical.radius + deltaY * 0.05);
      spherical := spherical.(radius := Clamp(10.0, 50.0, spherical.radius));
    }

    /** One finger down acts as the left button; any other number of touches is ignored. */
    method TouchStart(touches: nat, clientX: real, clientY: real)
      modifies this
      ensures touches == 1 ==> isLeftMouseDown && Mouse() == (clientX, clientY)
      ensures touches != 1 ==> isLeftMouseDown == old(isLeftMouseDown) && Mouse() == old(Mouse())
      ensures isRightMouseDown == old(isRightMouseDown)
      ensures spherical == old(spherical) && target == old(target)
    {
      if touches == 1 {
        isLeftMouseDown := true;
        mouseX := clientX;
        mouseY := clientY;
      }
    }

    /** One finger moving while the left flag is set turns the camera like a left drag. */
    method TouchMove(touches: nat, clientX: real, clientY: real)
      requires Valid()
      modifies this
      ensures Valid() && Buttons() == old(Buttons()) && target == old(target)
      ensures touches == 1 && isLeftMouseDown ==>
        spherical == Turn(old(spherical), clientX - old(mouseX), clientY - old(mouseY)) &&
        Mouse() == (clientX, clientY)
      ensures !(touches == 1 && isLeftMouseDown) ==>
        spherical == old(spherical) && Mouse() == old(Mouse())
    {
      if touches == 1 && isLeftMouseDown {
        var deltaX := clientX - mouseX;
        var deltaY := clientY - mouseY;
        spherical := spherical.(theta := spherical.theta - deltaX * 0.01);
        spherical := spherical.(phi := spherical.phi + deltaY * 0.01);
        spherical := spherical.(phi := Clamp(0.1, Pi - 0.1, spherical.phi));
        mouseX := clientX;
        mouseY := clientY;
      }
    }

    /** Lifting the finger clears the left flag. */
    method TouchEnd()
      modifies this
      ensures !isLeftMouseDown && isRightMouseDown == old(isRightMouseDown)
      ensures Mouse() == old(Mouse()) && spherical == old(spherical) && target == old(target)
    {
      isLeftMouseDown := false;
    }
  }
}
