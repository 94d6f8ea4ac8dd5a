/**
 * Integer sizes, points and rectangles with Qt's conventions: a rectangle is
 * given by its top-left corner and its size, and its right and bottom
 * coordinates are inclusive (`right = left + width - 1`).
 */
module Geometry {

  /** Pixels of the content rectangle the overlay always leaves uncovered. */
  const ResizeMargin: int := 30

  /** qMin */
  function Min(a: int, b: int): (r: int)
    ensures r <= a && r <= b
    ensures r == a || r == b
  {
    if a < b then a else b
  }

  datatype Size = Size(width: int, height: int) {
    /** QSize::operator+ */
    function Plus(other: Size): Size {
      Size(width + other.width, height + other.height)
    }
  }

  datatype Point = Point(x: int, y: int)

  datatype Rect = Rect(left: int, top: int, width: int, height: int) {
    function Right(): int { left + width - 1 }
    function Bottom(): int { top + height - 1 }
    function TopLeft(): Point { Point(left, top) }
    function TopRight(): Point { Point(Right(), top) }
    function BottomLeft(): Point { Point(left, Bottom()) }
    function Extent(): Size { Size(width, height) }

    /** QRect::contains for a rectangle of non-negative size: edges included. */
    predicate Contains(p: Point) {
      left <= p.x <= Right() && top <= p.y <= Bottom()
    }

    /** This rectangle lies within `outer` and has a non-negative size. */
    predicate Inside(outer: Rect) {
      && 0 <= width && 0 <= height
      && outer.left <= left && Right() <= outer.Right()
      && outer.top <= top && Bottom() <= outer.Bottom()
    }
  }

  /** QWidget::rect(): a widget's own rectangle in its local coordinates. */
  function LocalRect(s: Size): Rect {
    Rect(0, 0, s.width, s.height)
  }
}
