/** Points on the 640x480 canvas, in pixels, and the platform math used on them. */
module Geometry {
  /** A paddle (hand) position, as produced by the hand-tracking feed. */
  datatype Point = Point(x: real, y: real)

  /** Squared Euclidean distance between (px, py) and (qx, qy). */
  function SqDist(px: real, py: real, qx: real, qy: real): real {
    (px - qx) * (px - qx) + (py - qy) * (py - qy)
  }

  /**
   * The JavaScript `Math` routines the collision response calls. They are
   * platform code, so the model receives them as values and states what it
   * relies on about them in `Exact`.
   */
  datatype MathLib = MathLib(
    sqrt: real -> real,
    atan2: (real, real) -> real,
    cos: real -> real,
    sin: real -> real)

  /**
   * The routines behave as their mathematical counterparts: `sqrt` is the
   * non-negative square root; the cosine and sine of the angle `atan2(y, x)`
   * lie on the unit circle and point along (x, y) (collinear with it and on
   * the same side of the origin); and `atan2(0, 0)` is 0, whose cosine is 1.
   */
  ghost predicate Exact(m: MathLib) {
    (forall v: real :: 0.0 <= v ==> 0.0 <= m.sqrt(v) && m.sqrt(v) * m.sqrt(v) == v) &&
    (forall y: real, x: real ::
       m.cos(m.atan2(y, x)) * m.cos(m.atan2(y, x)) + m.sin(m.atan2(y, x)) * m.sin(m.atan2(y, x)) == 1.0 &&
       m.cos(m.atan2(y, x)) * y == m.sin(m.atan2(y, x)) * x) &&
    (forall y: real, x: real :: (x != 0.0 || y != 0.0) ==>
       0.0 < m.cos(m.atan2(y, x)) * x + m.sin(m.atan2(y, x)) * y) &&
    m.atan2(0.0, 0.0) == 0.0 && m.cos(0.0) == 1.0 && m.sin(0.0) == 0.0
  }
}
