/** Angle arithmetic in degrees, with Python's float `%` semantics. */
module Angles {

  /** `x % 360` in Python: the remainder takes the sign of the divisor, so it always lies in [0, 360). */
  function Mod360(x: real): (r: real)
    ensures 0.0 <= r < 360.0
    ensures 0.0 <= x < 360.0 ==> r == x
  {
    x - 360.0 * ((x / 360.0).Floor as real)
  }

  /** Mod360 is the one value in [0, 360) that differs from x by whole turns. */
  lemma Mod360Unique(x: real, r: real, k: int)
    requires 0.0 <= r < 360.0
    requires x == r + 360.0 * k as real
    ensures Mod360(x) == r
  {
    assert x / 360.0 == r / 360.0 + k as real;
    assert k as real <= x / 360.0 < k as real + 1.0;
    assert (x / 360.0).Floor == k;
  }

  /** Adding whole turns does not change the reduced angle. */
  lemma Mod360Periodic(x: real, k: int)
    ensures Mod360(x + 360.0 * k as real) == Mod360(x)
  {
    var f := (x / 360.0).Floor;
    Mod360Unique(x + 360.0 * k as real, Mod360(x), f + k);
  }

  /** `(d + 180) % 360 - 180`: the signed angle difference reduced into [-180, 180). */
  function Normalize(d: real): (r: real)
    ensures -180.0 <= r < 180.0
    ensures -180.0 <= d < 180.0 ==> r == d
  {
    Mod360(d + 180.0) - 180.0
  }

  /** Normalize(d) is the one value in [-180, 180) that differs from d by whole turns. */
  lemma NormalizeUnique(d: real, r: real, k: int)
    requires -180.0 <= r < 180.0
    requires d == r + 360.0 * k as real
    ensures Normalize(d) == r
  {
    Mod360Unique(d + 180.0, r + 180.0, k);
  }

  function Sign(v: real): real
  {
    if v > 0.0 then 1.0 else if v < 0.0 then -1.0 else 0.0
  }
}
