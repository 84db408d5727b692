/** Plain geometric values shared by the viewer: screen points, measured
    rectangles and natural image sizes. Screen coordinates are exact reals. */
module Geometry {

  /** A screen point or a pan offset (`{ x, y }` in the component). */
  datatype Point = Point(x: real, y: real) {

    function Plus(o: Point): Point
    {
      Point(x + o.x, y + o.y)
    }

    function Minus(o: Point): (r: Point)
      ensures r.Plus(o) == this
    {
      Point(x - o.x, y - o.y)
    }
  }

  /** A measured bounding box (the fields of a DOMRect the component reads). */
  datatype Rect = Rect(x: real, y: real, width: real, height: real)

  /** The natural pixel size of a loaded image (`{ w, h }`). */
  datatype Size = Size(w: nat, h: nat)

  function Abs(r: real): (a: real)
    ensures a >= 0.0 && (a == r || a == -r)
  {
    if r < 0.0 then -r else r
  }

  function Min(a: real, b: real): (m: real)
    ensures m <= a && m <= b && (m == a || m == b)
  {
    if a <= b then a else b
  }

  function Max(a: real, b: real): (m: real)
    ensures m >= a && m >= b && (m == a || m == b)
  {
    if a >= b then a else b
  }
}
