/**
 * The pieces of pygame's `Rect` the game relies on: corner and size, the
 * integer centre, `copy` (a value here), `move`, `inflate` and `colliderect`,
 * which only counts a strictly positive-area overlap.
 */
module Geometry {

  /** A tile or pixel coordinate pair `(x, y)`. */
  type Cell = (int, int)

  /** Python's `abs` on integers. */
  function Abs(v: int): nat {
    if v < 0 then -v else v
  }

  /** A rectangle with its top-left corner at `(x, y)`; sizes are never negative in the game. */
  datatype Rect = Rect(x: int, y: int, w: nat, h: nat) {

    function Right(): int { x + w }

    function Bottom(): int { y + h }

    /** `centerx`: pygame takes the floor of half the width. */
    function CenterX(): int { x + w / 2 }

    /** `centery`: pygame takes the floor of half the height. */
    function CenterY(): int { y + h / 2 }

    /** The rectangle shifted by `(dx, dy)`, size unchanged. */
    function Moved(dx: int, dy: int): (r: Rect)
      ensures r.w == w && r.h == h && r.x - x == dx && r.y - y == dy
    {
      Rect(x + dx, y + dy, w, h)
    }

    /** `inflate(dw, dh)` for the non-negative amounts the game uses: grows by half on each side. */
    function Inflate(dw: nat, dh: nat): (r: Rect)
      ensures r.Right() - Right() == dw - dw / 2 && x - r.x == dw / 2
      ensures r.Bottom() - Bottom() == dh - dh / 2 && y - r.y == dh / 2
    {
      Rect(x - dw / 2, y - dh / 2, w + dw, h + dh)
    }
  }

  /** `a.colliderect(b)`: both rectangles have area and their interiors overlap. */
  predicate Collide(a: Rect, b: Rect) {
    a.w > 0 && a.h > 0 && b.w > 0 && b.h > 0 &&
    a.x < b.Right() && b.x < a.Right() && a.y < b.Bottom() && b.y < a.Bottom()
  }

  /** Whether some rectangle of `rs` collides with `q` (the linear scans over rect lists). */
  predicate CollidesAny(q: Rect, rs: seq<Rect>) {
    exists i :: 0 <= i < |rs| && Collide(q, rs[i])
  }
}
