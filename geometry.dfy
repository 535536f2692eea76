/** Axis-aligned boxes, the integer cast of box corners, and the crop-to-image translation. */
module Geometry {

  /** A detector box in pixel units, corners (x1, y1) and (x2, y2). */
  datatype Box = Box(x1: real, y1: real, x2: real, y2: real)

  /** A box with integer corners, as produced by `astype(int)`. */
  datatype IntBox = IntBox(x1: int, y1: int, x2: int, y2: int)

  /** n is x with its fraction dropped: it lies between 0 and x, less than 1 away from x. */
  ghost predicate TruncatedFrom(x: real, n: int)
  {
    (0.0 <= x ==> 0 <= n && n as real <= x < n as real + 1.0) &&
    (x < 0.0 ==> n <= 0 && n as real - 1.0 < x <= n as real)
  }

  /** The integer cast of numpy's `astype(int)`: truncation toward zero, not rounding. */
  function Truncate(x: real): (n: int)
    ensures TruncatedFrom(x, n)
  {
    if x >= 0.0 then x.Floor else -((-x).Floor)
  }

  /** The bounds of Truncate's contract determine its result: no other integer meets them. */
  lemma TruncateUnique(x: real, n: int)
    requires TruncatedFrom(x, n)
    ensures n == Truncate(x)
  {
  }

  /** Truncation never moves a non-negative value past a larger one: it is monotone there. */
  lemma TruncateMonotone(x: real, y: real)
    requires 0.0 <= x <= y
    ensures Truncate(x) <= Truncate(y)
  {
  }

  /** The four corners cast one by one: each integer corner is its real corner truncated toward zero. */
  function TruncateBox(b: Box): (r: IntBox)
    ensures TruncatedFrom(b.x1, r.x1) && TruncatedFrom(b.y1, r.y1)
    ensures TruncatedFrom(b.x2, r.x2) && TruncatedFrom(b.y2, r.y2)
  {
    IntBox(Truncate(b.x1), Truncate(b.y1), Truncate(b.x2), Truncate(b.y2))
  }

  /** Shift both corners of a crop-local box by the crop origin, with no scaling. */
  function Translate(b: Box, ox: int, oy: int): (r: Box)
    ensures r.x2 - r.x1 == b.x2 - b.x1 && r.y2 - r.y1 == b.y2 - b.y1
  {
    Box(b.x1 + ox as real, b.y1 + oy as real, b.x2 + ox as real, b.y2 + oy as real)
  }

  /** Translating back by the negated origin recovers the local box. */
  lemma TranslateInverse(b: Box, ox: int, oy: int)
    ensures Translate(Translate(b, ox, oy), -ox, -oy) == b
  {
  }
}
