/** Screen rectangles and the overlap tests the game and the editor use. */
module Geometry {

  /** A pixel position, as the (x, y) tuples the programs pass around. */
  datatype Pos = Pos(x: int, y: int)

  /** An axis-aligned box given by its top-left corner and its size, like pygame's Rect. */
  datatype Rect = Rect(x: int, y: int, w: int, h: int) {
    function Right(): int { x + w }
    function Bottom(): int { y + h }
  }

  /**
   * Rect.colliderect: the two boxes overlap with positive area on both axes
   * (edges that only touch do not count).
   */
  predicate Overlaps(a: Rect, b: Rect) {
    a.x < b.x + b.w && b.x < a.x + a.w && a.y < b.y + b.h && b.y < a.y + a.h
  }

  /** Rect.collidepoint: the point lies in the half-open box. */
  predicate Contains(r: Rect, p: Pos) {
    r.x <= p.x < r.x + r.w && r.y <= p.y < r.y + r.h
  }

  /** Some box of `rs` overlaps `b`. */
  predicate AnyOverlap(rs: seq<Rect>, b: Rect) {
    exists i :: 0 <= i < |rs| && Overlaps(rs[i], b)
  }
}
