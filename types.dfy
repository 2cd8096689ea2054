/** Shared values of the cropper: the crop-square record, the partial
    update a drag or resize sends to the store, and the `Math.min` /
    `Math.max` helpers the geometry is written with. */
module Types {

  datatype Option<+T> = None | Some(value: T)

  /** Identity of a crop square. The store issues them from a counter
      (`String(nextId++)`); the decimal rendering is injective, so the
      counter value itself stands for the string id. */
  type Id = nat

  /** One crop square: top-left corner, side length and its 1-based
      position in the export sequence. */
  datatype Square = Square(id: Id, x: real, y: real, size: real, order: int)

  /** A partial update of the geometric fields (`Partial<Pick<…, 'x'|'y'|'size'>>`):
      an absent field keeps the square's current value. */
  datatype Patch = Patch(x: Option<real>, y: Option<real>, size: Option<real>)

  /** A square seen only through its geometry: the snap targets and the
      drag/resize position. */
  datatype Position = Position(x: real, y: real, size: real)

  function Min(a: real, b: real): (r: real)
    ensures r <= a && r <= b && (r == a || r == b)
  {
    if a <= b then a else b
  }

  function Max(a: real, b: real): (r: real)
    ensures r >= a && r >= b && (r == a || r == b)
  {
    if a >= b then a else b
  }

  /** `Math.min(a, b, c)`. */
  function Min3(a: real, b: real, c: real): (r: real)
    ensures r <= a && r <= b && r <= c && (r == a || r == b || r == c)
  {
    Min(Min(a, b), c)
  }

  /** `Math.round` on a real: the nearest integer, halves rounded up. */
  function Round(v: real): (r: int)
    ensures v - 0.5 < r as real <= v + 0.5
  {
    (v + 0.5).Floor
  }

  /** The quotient of a value by a positive one no larger is at least 1,
      and multiplying back gives the value. */
  lemma RatioAtLeastOne(a: real, b: real)
    requires 0.0 < b
    ensures b <= a ==> a / b >= 1.0
    ensures a / b * b == a
  {
  }

  /** The geometry of a square. */
  function PositionOf(sq: Square): Position
  {
    Position(sq.x, sq.y, sq.size)
  }
}
