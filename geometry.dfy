/** Screen constants and the axis-aligned rectangle test every collision uses. */
module Geometry {

  const ScreenWidth: int := 798
  const ScreenHeight: int := 640

  /** An integer rectangle: left/top corner and extent, as a pygame Rect holds it. */
  datatype Rect = Rect(left: int, top: int, width: int, height: int)

  /** The visible play area. */
  const Screen: Rect := Rect(0, 0, ScreenWidth, ScreenHeight)

  /** The point (x, y) is one of the rectangle's pixels (right and bottom edges excluded). */
  predicate Contains(r: Rect, x: int, y: int)
  {
    r.left <= x < r.left + r.width && r.top <= y < r.top + r.height
  }

  /** `colliderect`: two rectangles with positive extent overlap when their
      half-open spans intersect on both axes. An empty rectangle overlaps nothing. */
  predicate Overlaps(a: Rect, b: Rect)
  {
    && a.width > 0 && a.height > 0 && b.width > 0 && b.height > 0
    && a.left < b.left + b.width && b.left < a.left + a.width
    && a.top < b.top + b.height && b.top < a.top + a.height
  }

  lemma OverlapsSymmetric(a: Rect, b: Rect)
    ensures Overlaps(a, b) <==> Overlaps(b, a)
  {
  }

  /** The span test says exactly that the two rectangles share a pixel. */
  lemma OverlapsIffSharedPoint(a: Rect, b: Rect)
    ensures Overlaps(a, b) <==> exists x, y :: Contains(a, x, y) && Contains(b, x, y)
  {
    if Overlaps(a, b) {
      var x := if a.left < b.left then b.left else a.left;
      var y := if a.top < b.top then b.top else a.top;
      assert Contains(a, x, y) && Contains(b, x, y);
    }
  }

  /** A rectangle lying wholly below, above, left or right of the screen does not touch it. */
  lemma OutsideScreen(r: Rect)
    requires r.top >= ScreenHeight || r.top + r.height <= 0 || r.left >= ScreenWidth || r.left + r.width <= 0
    ensures !Overlaps(r, Screen)
  {
  }
}
