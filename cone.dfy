// The cone: `segments` slices around the y axis, each drawn as a side
// triangle from the apex down to two neighbouring rim points and a base
// triangle from the centre of the base to the same rim points in the
// opposite order, the base darkened to 70 %.  The rim points use the cosine
// and sine of multiples of 2 pi / segments, which are parameters.

module Cone {
  import opened Colors
  import opened Vectors
  import opened Matrices

  /** One `drawTriangle3D` call and the colour sent just before it. */
  datatype TriangleDraw = TriangleDraw(color: Rgba, corners: seq<Vec3>)

  /** The base colour: red, green and blue at 70 %, alpha kept. */
  function Shade(c: Rgba): (r: Rgba)
    ensures r.a == c.a
    ensures InUnitRange(c) ==> InUnitRange(r) && r.r <= c.r && r.g <= c.g && r.b <= c.b
  {
    Rgba(c.r * 0.7, c.g * 0.7, c.b * 0.7, c.a)
  }

  /** What one render depends on besides the colour and the trigonometry: the angle step and the size. */
  datatype Frame = Frame(step: real, radius: real, height: real)

  /** Rim point `i`: angle i * step on the circle of the given radius in the plane y = 0. */
  function Rim(cos: real -> real, sin: real -> real, f: Frame, i: nat): Vec3 {
    Vec3(cos(Angle(f, i)) * f.radius, 0.0, sin(Angle(f, i)) * f.radius)
  }

  /** The angle of rim point `i`. */
  function Angle(f: Frame, i: nat): real {
    i as real * f.step
  }

  function Apex(f: Frame): Vec3 {
    Vec3(0.0, f.height, 0.0)
  }

  /** The side triangle of slice `i`: apex, rim point i, rim point i + 1, in the cone's colour. */
  function Side(cos: real -> real, sin: real -> real, color: Rgba, f: Frame, i: nat): TriangleDraw {
    TriangleDraw(color, [Apex(f), Rim(cos, sin, f, i), Rim(cos, sin, f, i + 1)])
  }

  /** The base triangle of slice `i`: centre, rim point i + 1, rim point i, shaded. */
  function Base(cos: real -> real, sin: real -> real, color: Rgba, f: Frame, i: nat): TriangleDraw {
    TriangleDraw(Shade(color), [Zero, Rim(cos, sin, f, i + 1), Rim(cos, sin, f, i)])
  }

  /** All the draws of one render: side then base for each slice, slices in order. */
  function Draws(cos: real -> real, sin: real -> real, color: Rgba, f: Frame, n: nat): (ds: seq<TriangleDraw>)
    ensures |ds| == 2 * n
    ensures forall i | 0 <= i < n :: ds[2 * i] == Side(cos, sin, color, f, i) && ds[2 * i + 1] == Base(cos, sin, color, f, i)
  {
    if n == 0 then []
    else Draws(cos, sin, color, f, n - 1) + [Side(cos, sin, color, f, n - 1), Base(cos, sin, color, f, n - 1)]
  }

  /**
   * The base triangle of a slice has the side triangle's rim edge with the
   * opposite winding, so it faces down where the side faces out.
   */
  lemma {:induction false} BaseReversesSide(cos: real -> real, sin: real -> real, color: Rgba, f: Frame, n: nat, i: nat)
    requires i < n
    ensures var ds := Draws(cos, sin, color, f, n);
      |ds[2 * i].corners| == 3 && |ds[2 * i + 1].corners| == 3 &&
      ds[2 * i + 1].corners[1] == ds[2 * i].corners[2] &&
      ds[2 * i + 1].corners[2] == ds[2 * i].corners[1] &&
      ds[2 * i].corners[0] == Vec3(0.0, f.height, 0.0) && ds[2 * i + 1].corners[0] == Zero
  {
  }

  /**
   * Neighbouring slices meet: the second rim point of slice i is the first
   * rim point of slice i + 1, and every rim point lies in the plane y = 0.
   */
  lemma SlicesShareRim(cos: real -> real, sin: real -> real, color: Rgba, f: Frame, n: nat, i: nat)
    requires i + 1 < n
    ensures var ds := Draws(cos, sin, color, f, n);
      ds[2 * i].corners[2] == ds[2 * (i + 1)].corners[1] &&
      ds[2 * i].corners[1].y == 0.0 && ds[2 * i].corners[2].y == 0.0
  {
  }

  lemma TimesQuotient(a: real, m: real)
    requires m > 0.0
    ensures m * (a / m) == a
  {
  }

  lemma RimPeriodic(cos: real -> real, sin: real -> real, f: Frame, n: nat)
    requires n > 0 && f.step == 2.0 * Pi / n as real
    requires cos(2.0 * Pi) == cos(0.0) && sin(2.0 * Pi) == sin(0.0)
    ensures Rim(cos, sin, f, n) == Rim(cos, sin, f, 0)
  {
    TimesQuotient(2.0 * Pi, n as real);
    assert Angle(f, n) == 2.0 * Pi && Angle(f, 0) == 0.0;
  }

  /**
   * With the step 2 pi / n and a cosine and sine that repeat after 2 pi, the
   * last slice ends where the first begins: the rim is closed.
   */
  lemma RimCloses(cos: real -> real, sin: real -> real, color: Rgba, f: Frame, n: nat)
    requires n > 0 && f.step == 2.0 * Pi / n as real
    requires cos(2.0 * Pi) == cos(0.0) && sin(2.0 * Pi) == sin(0.0)
    ensures var ds := Draws(cos, sin, color, f, n);
      |ds[2 * (n - 1)].corners| == 3 && |ds[0].corners| == 3 &&
      ds[2 * (n - 1)].corners[2] == ds[0].corners[1]
  {
    RimPeriodic(cos, sin, f, n);
    var ds := Draws(cos, sin, color, f, n);
    var last := n - 1;
    assert ds[2 * last] == Side(cos, sin, color, f, last);
    assert ds[0] == Side(cos, sin, color, f, 0);
    assert last + 1 == n;
  }

  class Cone {
    var color: Rgba
    var segments: nat
    var radius: real
    var height: real
    const matrix: Matrix4
    /** `Math.cos` and `Math.sin`. */
    const cos: real -> real
    const sin: real -> real

    /** Orange unless told otherwise; 20 segments, radius 1 and height 1 by default. */
    constructor(cos: real -> real, sin: real -> real, segments: nat := 20, radius: real := 1.0, height: real := 1.0)
      ensures matrix.Valid() && fresh(matrix) && matrix.elements[..] == MatrixMath.Identity()
      ensures color == Rgba(1.0, 0.5, 0.0, 1.0)
      ensures this.segments == segments && this.radius == radius && this.height == height
      ensures this.cos == cos && this.sin == sin && Valid()
    {
      color := Rgba(1.0, 0.5, 0.0, 1.0);
      this.segments, this.radius, this.height := segments, radius, height;
      matrix := new Matrix4();
      this.cos, this.sin := cos, sin;
    }

    ghost predicate Valid()
      reads this, matrix
    {
      matrix.Valid()
    }

    /** The angle between neighbouring rim points, 2 pi / segments (no slice is drawn when there are none). */
    function Step(): real
      reads this
    {
      if segments == 0 then 0.0 else 2.0 * Pi / segments as real
    }

    function Shape(): Frame
      reads this
    {
      Frame(Step(), radius, height)
    }

    /** `render`: the model matrix, then a side and a base triangle for each segment, in order. */
    method Render() returns (model: seq<real>, draws: seq<TriangleDraw>)
      requires Valid()
      ensures model == matrix.elements[..]
      ensures draws == Draws(cos, sin, color, Shape(), segments)
    {
      var rgba := color;
      model := matrix.elements[..];
      var apex := Vec3(0.0, height, 0.0);
      var baseCenter := Vec3(0.0, 0.0, 0.0);
      var step := Step();
      draws := [];
      for i := 0 to segments
        invariant draws == Draws(cos, sin, rgba, Shape(), i)
      {
        var t1 := i as real * step;
        var t2 := (i + 1) as real * step;
        assert t1 == Angle(Shape(), i) && t2 == Angle(Shape(), i + 1);
        var p1 := Vec3(cos(t1) * radius, 0.0, sin(t1) * radius);
        var p2 := Vec3(cos(t2) * radius, 0.0, sin(t2) * radius);
        assert p1 == Rim(cos, sin, Shape(), i) && p2 == Rim(cos, sin, Shape(), i + 1);
        draws := draws + [TriangleDraw(rgba, [apex, p1, p2])];
        draws := draws + [TriangleDraw(Shade(rgba), [baseCenter, p2, p1])];
        assert draws == Draws(cos, sin, rgba, Shape(), i) + [Side(cos, sin, rgba, Shape(), i), Base(cos, sin, rgba, Shape(), i)];
      }
    }
  }
}
