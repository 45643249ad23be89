/** Integer rectangles with the semantics of QRect used by the dock. */
module Geometry {

  /** A rectangle given by its top-left corner and its size, as QRect(x, y, width, height). */
  datatype Rect = Rect(x: int, y: int, width: int, height: int) {

    /** A rectangle without a single pixel. */
    predicate IsEmpty() {
      width <= 0 || height <= 0
    }

    /** Pixel (px, py) lies inside the rectangle. */
    predicate Contains(px: int, py: int) {
      x <= px < x + width && y <= py < y + height
    }

    /** QRect::intersects: the two rectangles share at least one pixel. */
    predicate Intersects(other: Rect) {
      && !IsEmpty() && !other.IsEmpty()
      && x < other.x + other.width && other.x < x + width
      && y < other.y + other.height && other.y < y + height
    }
  }

  /** The size of a screen. */
  datatype Size = Size(width: int, height: int)

  function Max(a: int, b: int): int {
    if a < b then b else a
  }

  /** Intersects is exactly "some pixel lies in both rectangles". */
  lemma IntersectsIffSharedPixel(a: Rect, b: Rect)
    ensures a.Intersects(b) <==> exists px, py :: a.Contains(px, py) && b.Contains(px, py)
  {
    if a.Intersects(b) {
      var px, py := Max(a.x, b.x), Max(a.y, b.y);
      assert a.Contains(px, py) && b.Contains(px, py);
    }
  }
}
