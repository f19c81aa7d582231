// `convertCoordinatesEventToGl`, written out identically in the three
// programs that take mouse clicks: a pixel position inside the canvas's
// bounding rectangle becomes a clip-space point, x to the right and y up.

module Canvas {

  /** The canvas rectangle on the page: its top-left corner and its size. */
  datatype Rect = Rect(left: real, top: real, width: real, height: real)

  predicate HasArea(rect: Rect) {
    rect.width > 0.0 && rect.height > 0.0
  }

  /**
   * The conversion: the canvas centre goes to the origin, the left and right
   * edges to x = -1 and x = +1, the top and bottom edges to y = +1 and -1.
   */
  function ToClip(rect: Rect, clientX: real, clientY: real): (p: (real, real))
    requires HasArea(rect)
    ensures p.0 * (rect.width / 2.0) == (clientX - rect.left) - rect.width / 2.0
    ensures p.1 * (rect.height / 2.0) == rect.height / 2.0 - (clientY - rect.top)
  {
    var x := ((clientX - rect.left) - rect.width / 2.0) / (rect.width / 2.0);
    var y := (rect.height / 2.0 - (clientY - rect.top)) / (rect.height / 2.0);
    (x, y)
  }

  /** The pixel that a clip-space point comes from: the inverse mapping. */
  function FromClip(rect: Rect, x: real, y: real): (c: (real, real))
    requires HasArea(rect)
  {
    (rect.left + rect.width / 2.0 + x * (rect.width / 2.0),
     rect.top + rect.height / 2.0 - y * (rect.height / 2.0))
  }

  lemma CentreIsOrigin(rect: Rect)
    requires HasArea(rect)
    ensures ToClip(rect, rect.left + rect.width / 2.0, rect.top + rect.height / 2.0) == (0.0, 0.0)
  {
  }

  /** Left, right, top and bottom edges land on -1, +1, +1 and -1; y is flipped. */
  lemma EdgesAreUnit(rect: Rect, clientX: real, clientY: real)
    requires HasArea(rect)
    ensures ToClip(rect, rect.left, clientY).0 == -1.0
    ensures ToClip(rect, rect.left + rect.width, clientY).0 == 1.0
    ensures ToClip(rect, clientX, rect.top).1 == 1.0
    ensures ToClip(rect, clientX, rect.top + rect.height).1 == -1.0
  {
    var hw, hh := rect.width / 2.0, rect.height / 2.0;
    Cancel(ToClip(rect, rect.left, clientY).0, -1.0, hw);
    Cancel(ToClip(rect, rect.left + rect.width, clientY).0, 1.0, hw);
    Cancel(ToClip(rect, clientX, rect.top).1, 1.0, hh);
    Cancel(ToClip(rect, clientX, rect.top + rect.height).1, -1.0, hh);
  }

  lemma Cancel(a: real, b: real, h: real)
    requires h > 0.0 && a * h == b * h
    ensures a == b
  {
    assert (a - b) * h == 0.0;
  }

  /** Each point of the canvas lands in [-1, 1] on both axes. */
  lemma InsideLandsInUnitSquare(rect: Rect, clientX: real, clientY: real)
    requires HasArea(rect)
    requires rect.left <= clientX <= rect.left + rect.width
    requires rect.top <= clientY <= rect.top + rect.height
    ensures -1.0 <= ToClip(rect, clientX, clientY).0 <= 1.0
    ensures -1.0 <= ToClip(rect, clientX, clientY).1 <= 1.0
  {
  }

  /** The conversion is a bijection between pixels and clip space. */
  lemma RoundTrip(rect: Rect, clientX: real, clientY: real, x: real, y: real)
    requires HasArea(rect)
    ensures FromClip(rect, ToClip(rect, clientX, clientY).0, ToClip(rect, clientX, clientY).1) == (clientX, clientY)
    ensures ToClip(rect, FromClip(rect, x, y).0, FromClip(rect, x, y).1) == (x, y)
  {
    var hw := rect.width / 2.0;
    var hh := rect.height / 2.0;
    var p := ToClip(rect, clientX, clientY);
    assert p.0 * hw == (clientX - rect.left) - hw;
    assert p.1 * hh == hh - (clientY - rect.top);
    var back := FromClip(rect, p.0, p.1);
    assert back.0 == rect.left + hw + p.0 * hw;
    assert back.1 == rect.top + hh - p.1 * hh;
    var c := FromClip(rect, x, y);
    assert (c.0 - rect.left) - hw == x * hw;
    assert hh - (c.1 - rect.top) == y * hh;
    assert (x * hw) / hw == x;
    assert (y * hh) / hh == y;
  }
}
