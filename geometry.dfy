/** The window's bounding box, its validation, its resolution and the fixed click
    points of the four vital bars. */
module Geometry {
  import opened Screen

  /** A box with a negative component is the engine's way of saying "no such window". */
  predicate HasNegative(box: Rect): (negative: bool)
    // a box passes exactly when all four components are at least zero
    ensures !negative <==> 0 <= box.left && 0 <= box.top && 0 <= box.right && 0 <= box.bottom
  {
    box.left < 0 || box.top < 0 || box.right < 0 || box.bottom < 0
  }

  /** The resolution of a window: the extent of its box. */
  function ResolutionOf(box: Rect): (res: Size)
    // the extent carries the top-left corner onto the bottom-right one
    ensures box.left + res.width == box.right && box.top + res.height == box.bottom
  {
    Size(box.right - box.left, box.bottom - box.top)
  }

  /** The click points of the self HP, self MP, target HP and target MP bars. */
  datatype BarButtons = BarButtons(hp: Point, mp: Point, php: Point, pmp: Point)

  /** The click points, at fixed offsets from the window's right edge. */
  function BarButtonsFor(res: Size): (b: BarButtons)
    // the self bars are 40 pixels in from the right edge, one above the other
    ensures b.hp.x == b.mp.x && b.hp.x + 40 == res.width && b.hp.y == 23 && b.mp.y == 40
    // the target bars are 120 pixels further left
    ensures b.php.x == b.pmp.x && b.php.x + 120 == b.hp.x && b.php.y == 17 && b.pmp.y == 30
  {
    BarButtons(Point(res.width - 40, 23), Point(res.width - 40, 40),
               Point(res.width - 160, 17), Point(res.width - 160, 30))
  }

  /** Moving the window on the screen changes neither its resolution nor its click points,
      which are window-relative. */
  lemma GeometryIgnoresWindowPosition(box: Rect, dx: int, dy: int)
    ensures var moved := Rect(box.left + dx, box.top + dy, box.right + dx, box.bottom + dy);
      ResolutionOf(moved) == ResolutionOf(box) && BarButtonsFor(ResolutionOf(moved)) == BarButtonsFor(ResolutionOf(box))
  {
  }

  /** A 1024 x 768 window placed at (100, 100). */
  lemma ExampleWindowAt100(box: Rect)
    requires box == Rect(100, 100, 1124, 868)
    ensures !HasNegative(box) && ResolutionOf(box) == Size(1024, 768)
    ensures BarButtonsFor(ResolutionOf(box)) ==
      BarButtons(Point(984, 23), Point(984, 40), Point(864, 17), Point(864, 30))
  {
  }
}
