// The click-to-paint program: each click (or drag with the button held)
// appends a shape of the selected kind, colour and size at the clicked
// point; buttons pick the kind and colour or clear the list, sliders edit
// the selected colour in place; a redraw paints the fixed house and then
// every shape in the order it was added.

module ColoredPoints {
  import opened Colors
  import opened Canvas

  const PointType: int := 0
  const TriangleType: int := 1
  const CircleType: int := 2

  datatype Kind = Point | Triangle | Circle

  /** Point for POINT, Triangle for TRIANGLE, Circle for anything else. */
  function KindOf(selectedType: int): (k: Kind)
    ensures k == Point <==> selectedType == PointType
    ensures k == Triangle <==> selectedType == TriangleType
  {
    if selectedType == PointType then Point
    else if selectedType == TriangleType then Triangle
    else Circle
  }

  datatype Shape = Shape(kind: Kind, position: (real, real), color: Rgba, size: real)

  /**
   * The shape a click adds: its position is the clip-space point of the
   * click, which maps back to the clicked pixel.
   */
  function NewShape(selectedType: int, color: Rgba, size: real, rect: Rect, clientX: real, clientY: real): (s: Shape)
    requires HasArea(rect)
    ensures s.kind == KindOf(selectedType) && s.color == color && s.size == size
    ensures FromClip(rect, s.position.0, s.position.1) == (clientX, clientY)
  {
    RoundTrip(rect, clientX, clientY, 0.0, 0.0);
    Shape(KindOf(selectedType), ToClip(rect, clientX, clientY), color, size)
  }

  /** One draw of a redraw: the house's fixed triangles, or one shape's `render`. */
  datatype Draw = House | ShapeDraw(shape: Shape)

  /** What `renderAllShapes` draws: the house first, then the shapes in list order. */
  function Redraw(shapes: seq<Shape>): (ds: seq<Draw>)
    ensures |ds| == |shapes| + 1 && ds[0] == House
    ensures forall i | 0 <= i < |shapes| :: ds[i + 1] == ShapeDraw(shapes[i])
  {
    [House] + seq(|shapes|, i requires 0 <= i < |shapes| => ShapeDraw(shapes[i]))
  }

  /** A shape appended to the list is drawn last, after everything drawn before. */
  lemma RedrawAppend(shapes: seq<Shape>, s: Shape)
    ensures Redraw(shapes + [s]) == Redraw(shapes) + [ShapeDraw(s)]
  {
    var l, r := Redraw(shapes + [s]), Redraw(shapes) + [ShapeDraw(s)];
    assert |l| == |r|;
    forall i | 0 <= i < |l|
      ensures l[i] == r[i]
    {
      if 0 < i <= |shapes| {
        assert l[i] == ShapeDraw((shapes + [s])[i - 1]);
      }
    }
  }

  class Painter {
    var shapes: seq<Shape>
    var selectedColor: array<real>
    var selectedSize: real
    var selectedType: int

    ghost predicate Valid()
      reads this
    {
      selectedColor.Length == 4
    }

    /** The selected colour as a value: what `slice()` copies. */
    function Selected(): Rgba
      reads this, selectedColor
      requires Valid()
    {
      Rgba(selectedColor[0], selectedColor[1], selectedColor[2], selectedColor[3])
    }

    /** White, size 5, points, and an empty list. */
    constructor()
      ensures Valid() && fresh(selectedColor)
      ensures Selected() == White && selectedSize == 5.0 && selectedType == PointType && shapes == []
    {
      shapes := [];
      selectedColor := new real[4] [1.0, 1.0, 1.0, 1.0];
      selectedSize := 5.0;
      selectedType := PointType;
    }

    /** `renderAllShapes`: the house, then each shape in turn. */
    method RenderAllShapes() returns (draws: seq<Draw>)
      ensures draws == Redraw(shapes)
    {
      draws := [House];
      for i := 0 to |shapes|
        invariant draws == Redraw(shapes[..i])
      {
        RedrawAppend(shapes[..i], shapes[i]);
        assert shapes[..i + 1] == shapes[..i] + [shapes[i]];
        draws := draws + [ShapeDraw(shapes[i])];
      }
      assert shapes[..|shapes|] == shapes;
    }

    /** `click`: append one shape holding a copy of the selected colour, then redraw. */
    method Click(rect: Rect, clientX: real, clientY: real) returns (draws: seq<Draw>)
      requires Valid() && HasArea(rect)
      modifies this
      ensures Valid() && selectedColor == old(selectedColor)
      ensures shapes == old(shapes) + [NewShape(selectedType, Selected(), selectedSize, rect, clientX, clientY)]
      ensures selectedSize == old(selectedSize) && selectedType == old(selectedType)
      ensures draws == Redraw(shapes)
    {
      var p := ToClip(rect, clientX, clientY);
      var shape := Shape(KindOf(selectedType), p, Selected(), selectedSize);
      shapes := shapes + [shape];
      draws := RenderAllShapes();
    }

    /** A move with exactly the primary button held paints like a click. */
    method MouseMove(buttons: int, rect: Rect, clientX: real, clientY: real) returns (draws: seq<Draw>)
      requires Valid() && HasArea(rect)
      modifies this
      ensures Valid() && selectedColor == old(selectedColor)
      ensures selectedSize == old(selectedSize) && selectedType == old(selectedType)
      ensures buttons == 1 ==>
        shapes == old(shapes) + [NewShape(selectedType, Selected(), selectedSize, rect, clientX, clientY)] &&
        draws == Redraw(shapes)
      ensures buttons != 1 ==> shapes == old(shapes) && draws == []
    {
      draws := [];
      if buttons == 1 {
        draws := Click(rect, clientX, clientY);
      }
    }

    /** The clear button empties the list and redraws only the house. */
    method ClearButton() returns (draws: seq<Draw>)
      modifies this
      ensures shapes == [] && draws == [House]
      ensures selectedColor == old(selectedColor) && selectedSize == old(selectedSize) && selectedType == old(selectedType)
    {
      shapes := [];
      draws := RenderAllShapes();
    }

    method PointButton()
      modifies this
      ensures selectedType == PointType
      ensures shapes == old(shapes) && selectedColor == old(selectedColor) && selectedSize == old(selectedSize)
    {
      selectedType := PointType;
    }

    method TriangleButton()
      modifies this
      ensures selectedType == TriangleType
      ensures shapes == old(shapes) && selectedColor == old(selectedColor) && selectedSize == old(selectedSize)
    {
      selectedType := TriangleType;
    }

    method CircleButton()
      modifies this
      ensures selectedType == CircleType
      ensures shapes == old(shapes) && selectedColor == old(selectedColor) && selectedSize == old(selectedSize)
    {
      selectedType := CircleType;
    }

    /** The green and red buttons replace the selected colour with a new array. */
    method GreenButton()
      modifies this
      ensures Valid() && fresh(selectedColor) && Selected() == Rgba(0.0, 1.0, 0.0, 1.0)
      ensures shapes == old(shapes) && selectedSize == old(selectedSize) && selectedType == old(selectedType)
    {
      selectedColor := new real[4] [0.0, 1.0, 0.0, 1.0];
    }

    method RedButton()
      modifies this
      ensures Valid() && fresh(selectedColor) && Selected() == Rgba(1.0, 0.0, 0.0, 1.0)
      ensures shapes == old(shapes) && selectedSize == old(selectedSize) && selectedType == old(selectedType)
    {
      selectedColor := new real[4] [1.0, 0.0, 0.0, 1.0];
    }

    /**
     * A colour slider writes component `index` (0 red, 1 green, 2 blue) of
     * the selected colour in place, as a hundredth of the slider value.  The
     * shapes already added keep their colours: each holds its own copy.
     */
    method ColorSlide(index: nat, value: real)
      requires Valid() && index < 3
      modifies selectedColor
      ensures Valid() && selectedColor[index] == value / 100.0
      ensures forall k | 0 <= k < 4 && k != index :: selectedColor[k] == old(selectedColor[k])
      ensures shapes == old(shapes)
    {
      selectedColor[index] := value / 100.0;
    }

    method SizeSlide(value: real)
      modifies this
      ensures selectedSize == value
      ensures shapes == old(shapes) && selectedColor == old(selectedColor) && selectedType == old(selectedType)
    {
      selectedSize := value;
    }
  }
}
