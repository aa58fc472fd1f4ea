/** The plain geometric descriptors the layout code hands to the canvas:
    points, rectangles, line segments and path commands. */
module Geometry {

  /** A canvas position (Compose `Offset`). */
  datatype Offset = Offset(x: real, y: real)

  /** An axis-aligned rectangle (Compose `Rect`); y grows downwards. */
  datatype Rect = Rect(left: real, top: real, right: real, bottom: real)
  {
    function Width(): real { right - left }
    function Height(): real { bottom - top }
  }

  /** A straight line from `start` to `end` (`drawLine`). */
  datatype Line = Line(start: Offset, end: Offset)

  /** One command appended to a Compose `Path`. */
  datatype PathCommand =
    | MoveTo(to: Offset)
    | LineTo(to: Offset)
    | CubicTo(control1: Offset, control2: Offset, to: Offset)
    | Close
}
