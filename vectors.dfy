/** Points of a section path and the vector arithmetic the morphology code
    applies row-wise to its (n, 3) coordinate arrays. */
module Vectors {

  /** One row (x, y, z) of a coordinate array. */
  datatype Point = Point(x: real, y: real, z: real)

  function Zero(): Point {
    Point(0.0, 0.0, 0.0)
  }

  function Add(p: Point, q: Point): Point {
    Point(p.x + q.x, p.y + q.y, p.z + q.z)
  }

  /** Displacement from q to p, one row of `np.diff`. */
  function Sub(p: Point, q: Point): Point {
    Point(p.x - q.x, p.y - q.y, p.z - q.z)
  }

  function Scale(t: real, p: Point): Point {
    Point(t * p.x, t * p.y, t * p.z)
  }

  /** A displacement is zero exactly when its two end points coincide. */
  lemma SubZero(p: Point, q: Point)
    ensures Sub(p, q) == Zero() <==> p == q
  {
  }

  /** Stepping by v from p and measuring back from p gives v again. */
  lemma SubAdd(p: Point, v: Point)
    ensures Sub(Add(p, v), p) == v
  {
  }
}
