/** The integer points and rectangles of android.graphics, as values. */
module Graphics {
  datatype Point = Point(x: int, y: int)

  /** `Rect(left, top, right, bottom)`; like Android's, width and height may be negative. */
  datatype Rect = Rect(left: int, top: int, right: int, bottom: int) {
    function Width(): int { right - left }
    function Height(): int { bottom - top }

    /** `inner` lies within this rectangle, edges included. */
    predicate Contains(inner: Rect) {
      left <= inner.left && inner.right <= right && top <= inner.top && inner.bottom <= bottom
    }
  }

  function Min(a: int, b: int): int { if a <= b then a else b }
  function Max(a: int, b: int): int { if a >= b then a else b }
}
