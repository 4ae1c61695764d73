/** The two small value types the curve code borrows from the `vecked` package:
    a 2D vector (Vector2f) and an axis-aligned region (Region2f). Coordinates are
    exact reals; only the operations the curve code uses are modelled. */
module Vecked {

  /** A 2D vector, used both as a position and as an offset. */
  datatype Point = Point(x: real, y: real) {

    function Add(other: Point): Point {
      Point(x + other.x, y + other.y)
    }

    function Sub(other: Point): Point {
      Point(x - other.x, y - other.y)
    }

    function Scale(k: real): Point {
      Point(x * k, y * k)
    }

    /** The point symmetric to this one about `pivot`, that is 2·pivot − this:
        `pivot` is the midpoint of this point and the result. */
    function ReflectAcross(pivot: Point): (r: Point)
      ensures this.Add(r) == pivot.Scale(2.0)
      ensures r.Sub(pivot) == pivot.Sub(this)
    {
      pivot.Scale(2.0).Sub(this)
    }
  }

  /** Reflecting twice across the same pivot gives the point back. */
  lemma ReflectAcrossInvolution(p: Point, pivot: Point)
    ensures p.ReflectAcross(pivot).ReflectAcross(pivot) == p
  {
  }

  /** An axis-aligned rectangle given by its origin and its size. */
  datatype Region = Region(position: Point, size: Point) {

    /** The corner opposite `position`. */
    function Far(): Point {
      position.Add(size)
    }

    /** `p` lies in the closed rectangle (for a non-negative size). */
    predicate Contains(p: Point) {
      position.x <= p.x <= Far().x && position.y <= p.y <= Far().y
    }
  }
}
