/** Angle arithmetic shared by both sky-overlay renderers
    (sim_dev/skyVis.js and back/skyVis.js define it identically). */
module Angles {
  import opened JsMath

  /** `wrapAngle`: shifts an angle by whole turns into `[-PI, PI)`.
      The interval is closed at `-PI` and open at `PI`. */
  function WrapAngle(a: real): (r: real)
    ensures -PI <= r < PI
    ensures exists k: int :: r == a - Turns(k)
  {
    a - Turns(Floor((a + PI) / TWO_PI))
  }

  /** `WrapAngle(a)` is the only angle in `[-PI, PI)` that differs from `a`
      by whole turns. */
  lemma WrapAngleUnique(a: real, r: real, k: int)
    requires -PI <= r < PI
    requires r == a - Turns(k)
    ensures WrapAngle(a) == r
  {
    var y := (a + PI) / TWO_PI;
    assert y == k as real + (r + PI) / TWO_PI;
    FloorUnique(y, k);
  }

  /** Adding whole turns does not change the wrapped angle. */
  lemma WrapAnglePeriodic(a: real, k: int)
    ensures WrapAngle(a + Turns(k)) == WrapAngle(a)
  {
    var j :| WrapAngle(a) == a - Turns(j);
    WrapAngleUnique(a + Turns(k), WrapAngle(a), j + k);
  }

  /** On `[-PI, PI)` wrapping changes nothing. */
  lemma WrapAngleIdentity(a: real)
    requires -PI <= a < PI
    ensures WrapAngle(a) == a
  {
    WrapAngleUnique(a, a, 0);
  }

  /** Wrapping twice is wrapping once. */
  lemma WrapAngleIdempotent(a: real)
    ensures WrapAngle(WrapAngle(a)) == WrapAngle(a)
  {
    WrapAngleIdentity(WrapAngle(a));
  }

  /** The sprite roll `((cos(deg * PI / 180) + 1) / 2) * PI` of both
      renderers, from the moon's angle in degrees. */
  function Roll(m: MathLib, degrees: real): (roll: real)
    requires Lawful(m)
    ensures 0.0 <= roll <= PI
  {
    ((m.cos(degrees * PI / 180.0) + 1.0) / 2.0) * PI
  }
}
