/** The point predicate of bendy/point.py. That file is not part of this model;
    this is the usual definition, taken as an assumption about it. */
module BendyPoint {
  import opened Vecked

  /** `x` lies strictly between the x coordinates of `a` and `b`, in either order. */
  predicate XIsBetweenPoints(x: real, a: Point, b: Point)
    ensures XIsBetweenPoints(x, a, b) ==> a.x != b.x
  {
    (a.x < x < b.x) || (b.x < x < a.x)
  }
}
