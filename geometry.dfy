/**
 * The parts of pygame's `Rect` the games use, on integer coordinates:
 * `right`/`bottom` derived from position and size, the attribute setters
 * that move a rect, `move`, `inflate(1, 1)`, `union` and the half-open
 * `collidepoint`.
 */
module Geometry {
  datatype Point = Point(x: int, y: int)

  /** A speed vector, the games' two-element `_speed` list. */
  datatype Vec = Vec(x: int, y: int) {
    function Neg(): Vec { Vec(-x, -y) }
  }

  datatype Rect = Rect(left: int, top: int, width: int, height: int) {
    function Right(): int { left + width }
    function Bottom(): int { top + height }
    function TopLeft(): Point { Point(left, top) }
    function TopRight(): Point { Point(Right(), top) }
    function BottomLeft(): Point { Point(left, Bottom()) }
    function BottomRight(): Point { Point(Right(), Bottom()) }

    /** `move` / `move_ip`. */
    function MovedBy(v: Vec): Rect { Rect(left + v.x, top + v.y, width, height) }

    /** Assigning `left`/`x`, `right`, `top`/`y`, `bottom`, `topleft` or `centerx` moves the rect. */
    function WithLeft(x: int): Rect { Rect(x, top, width, height) }
    function WithRight(x: int): Rect { Rect(x - width, top, width, height) }
    function WithTop(y: int): Rect { Rect(left, y, width, height) }
    function WithBottom(y: int): Rect { Rect(left, y - height, width, height) }
    function WithTopLeft(p: Point): Rect { Rect(p.x, p.y, width, height) }
    function WithCenterX(cx: int): Rect { Rect(cx - width / 2, top, width, height) }

    /** `collidepoint`: the right and bottom edges are outside. */
    predicate CollidePoint(p: Point) {
      left <= p.x < Right() && top <= p.y < Bottom()
    }

    /** `inflate(1, 1)`: one more column and row, same top-left corner. */
    function Inflated(): Rect { Rect(left, top, width + 1, height + 1) }

    /** The rect with all four edges included. */
    predicate ClosedContains(p: Point) {
      left <= p.x <= Right() && top <= p.y <= Bottom()
    }

    /** `union`: the smallest rect covering both. */
    function Union(o: Rect): Rect {
      var l := if left < o.left then left else o.left;
      var t := if top < o.top then top else o.top;
      var r := if Right() > o.Right() then Right() else o.Right();
      var b := if Bottom() > o.Bottom() then Bottom() else o.Bottom();
      Rect(l, t, r - l, b - t)
    }
  }

  /** After `inflate(1, 1)`, `collidepoint` accepts exactly the points of the closed rect. */
  lemma InflatedIsClosed(r: Rect, p: Point)
    ensures r.Inflated().CollidePoint(p) <==> r.ClosedContains(p)
  {
  }

  /** A pygame Rect object, which the physics helpers update in place. */
  class RectRef {
    var rect: Rect

    constructor (r: Rect)
      ensures rect == r
    {
      rect := r;
    }
  }
}
