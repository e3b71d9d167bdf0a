/**
 * Integer geometry shared by both revisions of the swipe-reveal layout:
 * view bounds as rectangles and the JVM integer operations the layout uses.
 */
module Geometry {

  /** An axis-aligned rectangle in parent coordinates, as `android.graphics.Rect`. */
  datatype Rect = Rect(left: int, top: int, right: int, bottom: int)
  {
    /** `View.getWidth()` / `Rect.width()`. */
    function Width(): int { right - left }

    /** `View.getHeight()` / `Rect.height()`. */
    function Height(): int { bottom - top }
  }

  /** A freshly constructed `Rect()`. */
  const EMPTY: Rect := Rect(0, 0, 0, 0)

  function Min(a: int, b: int): int { if a <= b then a else b }

  function Max(a: int, b: int): int { if a >= b then a else b }

  function Abs(a: int): int { if a < 0 then -a else a }

  /**
   * `w / 2` on a JVM `Int`, which truncates toward zero (Dafny's `/` is
   * Euclidean, so the negative case is written out).
   */
  function Half(w: int): (h: int)
    ensures w >= 0 ==> 0 <= w - 2 * h <= 1
    ensures w < 0 ==> -1 <= w - 2 * h <= 0
  {
    if w >= 0 then w / 2 else -((-w) / 2)
  }

  /** The rectangle moved horizontally by `dx`. */
  function Translate(r: Rect, dx: int): Rect
  {
    Rect(r.left + dx, r.top, r.right + dx, r.bottom)
  }

  /** Both bounds inclusive, as `isInMainView` tests a touch point. */
  predicate Contains(r: Rect, x: int, y: int)
  {
    r.top <= y <= r.bottom && r.left <= x <= r.right
  }
}
