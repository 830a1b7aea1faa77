/** Plane geometry shared by both versions of the steering step. */
module Geometry {
  import opened Config

  /** The floating-point primitives the steering step calls, left uninterpreted:
      sine and cosine of an angle in degrees (`np.sin(np.deg2rad(a))`), the polar
      angle in degrees of a vector (`atan2(y, x)`, as `as_polar` and `np.arctan2`
      return it), and the unit heading vector `Vector2(1, 0).rotate(a).normalize()`. */
  datatype Trig = Trig(
    sinDeg: real -> real,
    cosDeg: real -> real,
    atan2Deg: (real, real) -> real,
    dirX: real -> real,
    dirY: real -> real)

  function Sq(v: real): real { v * v }

  function Abs(v: real): real { if v < 0.0 then -v else v }

  function Min(a: real, b: real): real { if a <= b then a else b }

  function Max(a: real, b: real): real { if a <= b then b else a }

  /** `min(x, y, w - x, h - y)`: distance to the nearest screen edge (negative outside the screen). */
  function EdgeDistance(x: real, y: real, w: real, h: real): (r: real)
    ensures r <= x && r <= y && r <= w - x && r <= h - y
    ensures r == x || r == y || r == w - x || r == h - y
  {
    Min(Min(x, y), Min(w - x, h - y))
  }

  /** The inward angle chosen near an edge when the vertical rule has priority:
      90 near the top, else 270 near the bottom, else 0 near the left, else 180 near the right. */
  function EdgeTarget(x: real, y: real, w: real, h: real): real
  {
    if y < Margin then 90.0
    else if y > h - Margin then 270.0
    else if x < Margin then 0.0
    else if x > w - Margin then 180.0
    else 0.0
  }

  /** The source's order of overwrites: a horizontal choice over `prev`, then a vertical one over that. */
  function SequentialEdgeTarget(prev: real, x: real, y: real, w: real, h: real): real
  {
    var horizontal := if x < Margin then 0.0 else if x > w - Margin then 180.0 else prev;
    if y < Margin then 90.0 else if y > h - Margin then 270.0 else horizontal
  }

  /** Inside the margin some branch always fires, so the sequential overwrites never
      leave `prev` in place and the vertical choice takes precedence. */
  lemma SequentialEdgeTargetIsPriority(prev: real, x: real, y: real, w: real, h: real)
    requires EdgeDistance(x, y, w, h) < Margin
    ensures SequentialEdgeTarget(prev, x, y, w, h) == EdgeTarget(x, y, w, h)
    ensures EdgeTarget(x, y, w, h) in {0.0, 90.0, 180.0, 270.0}
    ensures (x < Margin || x > w - Margin || y < Margin || y > h - Margin)
  {
  }

  /** Toroidal wrap of one coordinate: below 0 jumps to `bound`, above `bound` jumps to 0. */
  function WrapCoord(p: real, bound: real): (r: real)
    ensures 0.0 <= bound ==> 0.0 <= r <= bound
    ensures 0.0 <= p <= bound ==> r == p
  {
    if p < 0.0 then bound else if p > bound then 0.0 else p
  }

  /** Leaving over one edge re-enters exactly on the opposite edge (the overshoot is dropped, not
      carried over as a modulus would), and a wrapped coordinate stays put when wrapped again. */
  lemma WrapTeleports(p: real, bound: real)
    requires 0.0 <= bound
    ensures p < 0.0 ==> WrapCoord(p, bound) == bound
    ensures p > bound ==> WrapCoord(p, bound) == 0.0
    ensures WrapCoord(WrapCoord(p, bound), bound) == WrapCoord(p, bound)
  {
  }
}
