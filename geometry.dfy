/** The optional value that stands in for JavaScript's `undefined` result of `Array.prototype.find`. */
module Options {
  datatype Option<+T> = None | Some(value: T)
}

/** Axis-aligned geometry in canvas pixels; y grows downwards. */
module Geometry {
  /** A platform or spike: top-left corner plus size. */
  datatype Rect = Rect(x: real, y: real, width: real, height: real)

  /** The portal is stored as its top-left corner only; its size is fixed. */
  datatype Point = Point(x: real, y: real)

  /** `Math.abs` on exact reals. */
  function Abs(v: real): (r: real)
    ensures r >= 0.0
    ensures r == v || r == -v
  {
    if v < 0.0 then -v else v
  }
}
