/** Axis-aligned rectangles and the overlap test the engine uses for collisions. */
module Geometry {
  /** A rectangle given by its top-left corner, its width and its height. */
  datatype Rect = Rect(x: int, y: int, w: int, h: int)

  /**
   * pygame's colliderect: the two rectangles overlap in both axes. The
   * comparisons are strict, so rectangles that only share an edge do not
   * collide.
   */
  predicate CollideRect(a: Rect, b: Rect) {
    a.x < b.x + b.w && b.x < a.x + a.w && a.y < b.y + b.h && b.y < a.y + a.h
  }
}
