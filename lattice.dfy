/**
 * Positions and offsets on the ground-plane lattice. An offset's `x` counts
 * cells along the actor's right vector and its `y` cells along its forward
 * vector; both movement scripts build a step as `right * x + forward * y`.
 */
module Lattice {

  datatype Point = Point(x: int, y: int)

  const Origin := Point(0, 0)

  function Add(p: Point, d: Point): Point {
    Point(p.x + d.x, p.y + d.y)
  }

  /** One of the eight offsets to a neighbouring cell. */
  predicate IsKingStep(d: Point) {
    -1 <= d.x <= 1 && -1 <= d.y <= 1 && d != Origin
  }

  /**
   * The three-way switch both movement scripts apply to an axis value:
   * 1 for a positive value, -1 for a negative one, 0 for zero. The contract
   * pins the result down without repeating the branches: it lies in
   * {-1, 0, 1}, is zero only for zero, and never has the opposite sign.
   */
  function Sign(r: real): (s: int)
    ensures -1 <= s <= 1
    ensures s == 0 <==> r == 0.0
    ensures s as real * r >= 0.0
  {
    if r > 0.0 then 1 else if r < 0.0 then -1 else 0
  }

  /** Sign-quantisation of a pair of axis values into a lattice offset. */
  function Quantise(h: real, v: real): (d: Point)
    ensures d == Origin <==> h == 0.0 && v == 0.0
    ensures h != 0.0 || v != 0.0 ==> IsKingStep(d)
    ensures d.x as real * h >= 0.0 && d.y as real * v >= 0.0
    ensures (d.x == 0 <==> h == 0.0) && (d.y == 0 <==> v == 0.0)
  {
    Point(Sign(h), Sign(v))
  }
}
