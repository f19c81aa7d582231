// The lighting scene's orbiting camera: a record of eye, at and up with an
// angle (in degrees), a distance and a height, steered by keys and by mouse
// drags, plus four on/off switches for the lighting options.  `updateCamera`
// places the eye on the circle of radius `distance` around the y axis at
// height `height`; the sine and cosine of an angle in degrees are parameters.

module LitScene {
  import opened Vectors
  import opened Keys

  const MinHeight: real := -5.0
  const MaxHeight: real := 10.0
  const MinDistance: real := 1.0
  const MaxDistance: real := 20.0
  /** The key handler's `speed`. */
  const Speed: real := 0.2

  function Max(a: real, b: real): real {
    if a >= b then a else b
  }

  function Min(a: real, b: real): real {
    if a <= b then a else b
  }

  /** `Math.max(-5, Math.min(10, h))`. */
  function ClampHeight(h: real): (r: real)
    ensures MinHeight <= r <= MaxHeight
    ensures MinHeight <= h <= MaxHeight ==> r == h
    ensures r == h || r == MinHeight || r == MaxHeight
  {
    Max(MinHeight, Min(MaxHeight, h))
  }

  /** The three numbers of `g_camera` the handlers steer. */
  datatype Orbit = Orbit(angle: real, distance: real, height: real)

  predicate InRange(o: Orbit) {
    MinDistance <= o.distance <= MaxDistance && MinHeight <= o.height <= MaxHeight
  }

  /** The keydown handler's effect on the orbit, after lower-casing the key. */
  function KeyStep(o: Orbit, key: string): (r: Orbit)
    ensures MinHeight <= r.height <= MaxHeight
    ensures InRange(o) ==> InRange(r)
    ensures Lower(key) !in {"w", "s", "a", "d", "arrowleft", "arrowright"} ==>
      r.angle == o.angle && r.distance == o.distance
  {
    var k := Lower(key);
    var stepped :=
      if k == "w" then o.(distance := Max(MinDistance, o.distance - Speed))
      else if k == "s" then o.(distance := Min(MaxDistance, o.distance + Speed))
      else if k == "a" then o.(angle := o.angle - 2.0)
      else if k == "d" then o.(angle := o.angle + 2.0)
      else if k == "arrowup" then o.(height := o.height + Speed)
      else if k == "arrowdown" then o.(height := o.height - Speed)
      else if k == "arrowleft" then o.(angle := o.angle - 1.0)
      else if k == "arrowright" then o.(angle := o.angle + 1.0)
      else o;
    stepped.(height := ClampHeight(stepped.height))
  }

  /** A drag by (dx, dy) pixels: half a degree per pixel across, a hundredth up or down. */
  function DragStep(o: Orbit, dx: real, dy: real): (r: Orbit)
    ensures r.distance == o.distance && MinHeight <= r.height <= MaxHeight
    ensures InRange(o) ==> InRange(r)
  {
    Orbit(o.angle + dx * 0.5, o.distance, ClampHeight(o.height + dy * 0.01))
  }

  /** Where `updateCamera` puts the eye. */
  function OrbitEye(sinDeg: real -> real, cosDeg: real -> real, o: Orbit): Vec3 {
    Vec3(sinDeg(o.angle) * o.distance, o.height, cosDeg(o.angle) * o.distance)
  }

  /**
   * With a true sine and cosine the eye lies at height `height` on the
   * circle of radius `distance` around the y axis.
   */
  lemma EyeOnCircle(sinDeg: real -> real, cosDeg: real -> real, o: Orbit)
    requires sinDeg(o.angle) * sinDeg(o.angle) + cosDeg(o.angle) * cosDeg(o.angle) == 1.0
    ensures var e := OrbitEye(sinDeg, cosDeg, o);
      e.y == o.height && e.x * e.x + e.z * e.z == o.distance * o.distance
  {
    var s, c, d := sinDeg(o.angle), cosDeg(o.angle), o.distance;
    assert (s * d) * (s * d) + (c * d) * (c * d) == (s * s + c * c) * (d * d);
  }

  /** Zooming in by one step and out by one step restores a distance in [1.2, 20]. */
  lemma ZoomRoundTrip(o: Orbit)
    requires MinDistance + Speed <= o.distance <= MaxDistance && MinHeight <= o.height <= MaxHeight
    ensures KeyStep(KeyStep(o, "w"), "s") == o
  {
    assert Lower("w") == "w";
    assert Lower("s") == "s";
  }

  /** Turning by 'a' then 'd', or by the left arrow then the right arrow, restores the orbit. */
  lemma TurnRoundTrip(o: Orbit)
    requires InRange(o)
    ensures KeyStep(KeyStep(o, "a"), "d") == o
    ensures KeyStep(KeyStep(o, "ArrowLeft"), "ArrowRight") == o
  {
    assert Lower("a") == "a";
    assert Lower("d") == "d";
    assert Lower("ArrowLeft") == "arrowleft";
    assert Lower("ArrowRight") == "arrowright";
  }

  class Scene {
    var eye: Vec3
    var at: Vec3
    var up: Vec3
    var angle: real
    var distance: real
    var height: real
    var showNormals: bool
    var useLighting: bool
    var useSpotlight: bool
    var animateLight: bool
    var isDragging: bool
    var lastX: real
    var lastY: real
    /** `Math.sin` and `Math.cos` of an angle given in degrees. */
    const sinDeg: real -> real
    const cosDeg: real -> real

    function Current(): Orbit
      reads this
    {
      Orbit(angle, distance, height)
    }

    /** Height and distance are in range. */
    ghost predicate Valid()
      reads this
    {
      InRange(Current())
    }

    /** The eye is where `updateCamera` last put it for the current orbit. */
    ghost predicate Synced()
      reads this
    {
      eye == OrbitEye(sinDeg, cosDeg, Current())
    }

    /** The initial globals: eye (0, 2, 8) looking at the origin, angle 45, distance 8, height 2. */
    constructor(sinDeg: real -> real, cosDeg: real -> real)
      ensures Valid() && this.sinDeg == sinDeg && this.cosDeg == cosDeg
      ensures eye == Vec3(0.0, 2.0, 8.0) && at == Zero && up == Vec3(0.0, 1.0, 0.0)
      ensures Current() == Orbit(45.0, 8.0, 2.0)
      ensures !showNormals && useLighting && !useSpotlight && !animateLight
      ensures !isDragging && lastX == 0.0 && lastY == 0.0
    {
      eye, at, up := Vec3(0.0, 2.0, 8.0), Zero, Vec3(0.0, 1.0, 0.0);
      angle, distance, height := 45.0, 8.0, 2.0;
      showNormals, useLighting, useSpotlight, animateLight := false, true, false, false;
      isDragging, lastX, lastY := false, 0.0, 0.0;
      this.sinDeg, this.cosDeg := sinDeg, cosDeg;
    }

    /** `updateCamera`: only the eye moves, onto the orbit; at and up stay. */
    method UpdateCamera()
      modifies this
      ensures Synced() && Current() == old(Current())
      ensures at == old(at) && up == old(up)
      ensures Switches() == old(Switches()) && DragState() == old(DragState())
    {
      eye := eye.(x := sinDeg(angle) * distance);
      eye := eye.(y := height);
      eye := eye.(z := cosDeg(angle) * distance);
    }

    function Switches(): (bool, bool, bool, bool)
      reads this
    {
      (showNormals, useLighting, useSpotlight, animateLight)
    }

    function DragState(): (bool, real, real)
      reads this
    {
      (isDragging, lastX, lastY)
    }

    method ToggleLighting()
      modifies this
      ensures useLighting == !old(useLighting)
      ensures (showNormals, useSpotlight, animateLight) == old((showNormals, useSpotlight, animateLight))
      ensures eye == old(eye) && Current() == old(Current()) && DragState() == old(DragState())
    {
      useLighting := !useLighting;
    }

    method ToggleNormals()
      modifies this
      ensures showNormals == !old(showNormals)
      ensures (useLighting, useSpotlight, animateLight) == old((useLighting, useSpotlight, animateLight))
      ensures eye == old(eye) && Current() == old(Current()) && DragState() == old(DragState())
    {
      showNormals := !showNormals;
    }

    method ToggleAnimation()
      modifies this
      ensures animateLight == !old(animateLight)
      ensures (showNormals, useLighting, useSpotlight) == old((showNormals, useLighting, useSpotlight))
      ensures eye == old(eye) && Current() == old(Current()) && DragState() == old(DragState())
    {
      animateLight := !animateLight;
    }

    method ToggleSpotlight()
      modifies this
      ensures useSpotlight == !old(useSpotlight)
      ensures (showNormals, useLighting, animateLight) == old((showNormals, useLighting, animateLight))
      ensures eye == old(eye) && Current() == old(Current()) && DragState() == old(DragState())
    {
      useSpotlight := !useSpotlight;
    }

    /** Pressing the button starts a drag from the mouse position. */
    method MouseDown(clientX: real, clientY: real)
      modifies this
      ensures DragState() == (true, clientX, clientY)
      ensures eye == old(eye) && Current() == old(Current()) && Switches() == old(Switches())
    {
      isDragging := true;
      lastX := clientX;
      lastY := clientY;
    }

    method MouseUp()
      modifies this
      ensures DragState() == (false, old(lastX), old(lastY))
      ensures eye == old(eye) && Current() == old(Current()) && Switches() == old(Switches())
    {
      isDragging := false;
    }

    /** A move while dragging turns and raises the orbit by the mouse's travel. */
    method MouseMove(clientX: real, clientY: real)
      requires Valid()
      modifies this
      ensures Valid() && Switches() == old(Switches()) && at == old(at) && up == old(up)
      ensures !old(isDragging) ==> eye == old(eye) && Current() == old(Current()) && DragState() == old(DragState())
      ensures old(isDragging) ==>
        Current() == DragStep(old(Current()), clientX - old(lastX), clientY - old(lastY)) &&
        Synced() && DragState() == (true, clientX, clientY)
    {
      if !isDragging {
        return;
      }
      var deltaX := clientX - lastX;
      var deltaY := clientY - lastY;
      angle := angle + deltaX * 0.5;
      height := height + deltaY * 0.01;
      height := Max(-5.0, Min(10.0, height));
      UpdateCamera();
      lastX := clientX;
      lastY := clientY;
    }

    /** `document.onkeydown`: one step of the switch, the height clamp, then `updateCamera`. */
    method KeyDown(key: string)
      modifies this
      ensures Current() == KeyStep(old(Current()), key) && Synced()
      ensures old(Valid()) ==> Valid()
      ensures at == old(at) && up == old(up) && Switches() == old(Switches()) && DragState() == old(DragState())
    {
      var k := Lower(key);
      if k == "w" {
        distance := Max(1.0, distance - Speed);
      } else if k == "s" {
        distance := Min(20.0, distance + Speed);
      } else if k == "a" {
        angle := angle - 2.0;
      } else if k == "d" {
        angle := angle + 2.0;
      } else if k == "arrowup" {
        height := height + Speed;
      } else if k == "arrowdown" {
        height := height - Speed;
      } else if k == "arrowleft" {
        angle := angle - 1.0;
      } else if k == "arrowright" {
        angle := angle + 1.0;
      }
      height := Max(-5.0, Min(10.0, height));
      UpdateCamera();
    }
  }
}
