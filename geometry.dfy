/**
 * Integer points, rectangles and input events with the semantics the game
 * relies on from pygame: `Rect.collidepoint`, `Rect.contains` and assigning
 * `Rect.center`.
 */
module Geometry {

  datatype Point = Point(x: int, y: int)

  /** A rectangle with top-left corner (x, y), `w` wide and `h` high. */
  datatype Rect = Rect(x: int, y: int, w: int, h: int)

  /** The centre pygame reports for a rectangle (halving rounds down). */
  function Center(r: Rect): Point {
    Point(r.x + r.w / 2, r.y + r.h / 2)
  }

  /** `Rect.collidepoint`: the left and top edges are inside, the right and bottom edges are not. */
  predicate CollidePoint(r: Rect, p: Point) {
    r.x <= p.x < r.x + r.w && r.y <= p.y < r.y + r.h
  }

  /** `Rect.contains`: `inner` lies wholly inside `outer`; shared edges are allowed. */
  predicate Contains(outer: Rect, inner: Rect) {
    outer.x <= inner.x && outer.y <= inner.y &&
    inner.x + inner.w <= outer.x + outer.w && inner.y + inner.h <= outer.y + outer.h
  }

  /**
   * The rectangle after `r.center = c`: same size, moved so that its centre is `c`.
   * Dafny's `/` by a positive divisor rounds down like Python's `//`.
   */
  function WithCenter(r: Rect, c: Point): (q: Rect)
    ensures q.w == r.w && q.h == r.h
    ensures Center(q) == c
  {
    Rect(c.x - r.w / 2, c.y - r.h / 2, r.w, r.h)
  }

  /** The pygame event types the handlers of the game tell apart. */
  datatype EventKind = MouseButtonDown | MouseButtonUp | MouseMotion | OtherEvent

  /**
   * An input event. `pos` is the pointer position carried by mouse events;
   * for `OtherEvent` (quit, key presses) no handler reads it.
   */
  datatype Event = Event(kind: EventKind, pos: Point)
}
