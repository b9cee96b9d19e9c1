/** The per-frame orbit and spin arithmetic of `updatePlanetAndMoons`
    (sim_dev/animation.js) and of the older monolithic `animate`
    (html_dump/JS_SIM/halferth-simulator/main.js), which share it line for
    line: the planet's orbit rate, the spin accumulator with its carry into
    whole days, and the moons' orbital angles. */
module Orbit {
  import opened JsMath
  import opened Angles
  import Config

  /** Radians of orbit per simulated second, `(2 * Math.PI) / 62.8`. */
  const ORBIT_SPEED: real := TWO_PI / Config.ANIMATION_ORBIT_PERIOD_SECONDS

  /** Radians of spin per simulated second: one spin per day of the year. */
  const SPIN_SPEED: real := ORBIT_SPEED * (Config.HALFERTH_YEAR_DAYS as real)

  /** The spin accumulator: whole spins (days) and the radians of the
      current, unfinished spin. */
  datatype SpinCounter = SpinCounter(fullSpins: int, totalSpin: real)

  /** All the spin the accumulator stands for, in radians. */
  function SpinTotal(s: SpinCounter): real {
    Turns(s.fullSpins) + s.totalSpin
  }

  /** The remainder holds less than one spin. */
  predicate Normalised(s: SpinCounter) {
    0.0 <= s.totalSpin < TWO_PI
  }

  /** The carry step: once the remainder reaches a full turn, its whole
      turns move into `fullSpins` and `%` keeps the rest. */
  function Carry(s: SpinCounter): (r: SpinCounter)
    ensures SpinTotal(r) == SpinTotal(s)
    ensures s.fullSpins <= r.fullSpins
    ensures TWO_PI <= s.totalSpin ==> Normalised(r) && s.fullSpins < r.fullSpins
    ensures s.totalSpin < TWO_PI ==> r == s
  {
    if s.totalSpin >= TWO_PI then
      var spinsThisFrame := Floor(s.totalSpin / TWO_PI);
      RemOfNonNegative(s.totalSpin, TWO_PI);
      ScaleBounds(s.totalSpin, TWO_PI, 1);
      SpinCounter(s.fullSpins + spinsThisFrame, Rem(s.totalSpin, TWO_PI))
    else
      s
  }

  /** `totalSpin += spinStep` followed by the carry. The accumulator grows
      by exactly the step, the day counter never goes back, and a
      normalised accumulator stays normalised under a non-negative step. */
  function Accumulate(s: SpinCounter, spinStep: real): (r: SpinCounter)
    ensures SpinTotal(r) == SpinTotal(s) + spinStep
    ensures s.fullSpins <= r.fullSpins
    ensures Normalised(s) && 0.0 <= spinStep ==> Normalised(r)
  {
    Carry(SpinCounter(s.fullSpins, s.totalSpin + spinStep))
  }

  /** The spin made in `delta` simulated seconds. */
  function SpinStep(delta: real): real {
    SPIN_SPEED * delta
  }

  /** A spin step is the year's number of days times the orbit made in the
      same time. */
  lemma SpinStepIsYearDaysOfOrbit(delta: real)
    ensures SpinStep(delta) == (Config.HALFERTH_YEAR_DAYS as real) * (ORBIT_SPEED * delta)
  {
  }

  /** `spinFraction`: the days the accumulator stands for, whole and
      partial. For a normalised accumulator its whole part is `fullSpins`. */
  function SpinFraction(s: SpinCounter): (f: real)
    ensures f * TWO_PI == SpinTotal(s)
    ensures Normalised(s) ==> s.fullSpins as real <= f < s.fullSpins as real + 1.0
    ensures Normalised(s) ==> Floor(f) == s.fullSpins
  {
    s.fullSpins as real + s.totalSpin / TWO_PI
  }

  /** A moon's orbital angle after `spinFraction` days, with the fixed
      `-Math.PI` phase offset. */
  function MoonAngle(spinFraction: real, orbitDays: int): real
    requires 0 < orbitDays
  {
    (spinFraction / orbitDays as real) * 2.0 * PI + (-PI)
  }

  /** Day zero puts every moon at `-PI`. */
  lemma MoonAngleAtDayZero(orbitDays: int)
    requires 0 < orbitDays
    ensures MoonAngle(0.0, orbitDays) == -PI
  {
  }

  /** Every `k` orbital periods add exactly `k` turns to a moon's angle. */
  lemma MoonAngleAfterPeriods(spinFraction: real, orbitDays: int, k: int)
    requires 0 < orbitDays
    ensures MoonAngle(spinFraction + (k * orbitDays) as real, orbitDays)
         == MoonAngle(spinFraction, orbitDays) + Turns(k)
  {
    var d := orbitDays as real;
    assert (k * orbitDays) as real == (k as real) * d;
    assert (spinFraction + (k as real) * d) / d == spinFraction / d + k as real;
  }

  /** After a whole year both moons are back at the same wrapped angle:
      the mother makes 6 and the daughter 12 whole orbits. */
  lemma MoonsRealignAfterYear(spinFraction: real)
    ensures WrapAngle(MoonAngle(spinFraction + Config.HALFERTH_YEAR_DAYS as real, Config.MOTHER.orbitDays))
         == WrapAngle(MoonAngle(spinFraction, Config.MOTHER.orbitDays))
    ensures WrapAngle(MoonAngle(spinFraction + Config.HALFERTH_YEAR_DAYS as real, Config.DAUGHTER.orbitDays))
         == WrapAngle(MoonAngle(spinFraction, Config.DAUGHTER.orbitDays))
  {
    MoonAngleAfterPeriods(spinFraction, Config.MOTHER.orbitDays, 6);
    WrapAnglePeriodic(MoonAngle(spinFraction, Config.MOTHER.orbitDays), 6);
    MoonAngleAfterPeriods(spinFraction, Config.DAUGHTER.orbitDays, 12);
    WrapAnglePeriodic(MoonAngle(spinFraction, Config.DAUGHTER.orbitDays), 12);
  }

  /** A point in a moon's orbital plane. */
  datatype Point = Point(x: real, y: real)

  /** The moon's position on its ellipse, with the planet at a focus:
      `(b cos angle, a sin angle + c)`. It stays in the ellipse's bounding
      box, which the focus offset shifts along `y`. */
  function EllipsePosition(m: MathLib, moon: Config.MoonConfig, angle: real): (p: Point)
    requires Lawful(m) && Config.ValidMoon(moon)
    ensures -Config.SemiMinorAxis(m, moon) <= p.x <= Config.SemiMinorAxis(m, moon)
    ensures Config.FocusOffset(moon) - moon.semiMajorAxis <= p.y
         <= Config.FocusOffset(moon) + moon.semiMajorAxis
  {
    EllipsePoint(Config.SemiMinorAxis(m, moon), moon.semiMajorAxis, Config.FocusOffset(moon),
                 m.cos(angle), m.sin(angle))
  }

  /** The point `(b cos, a sin + c)` from given cosine and sine values. */
  function EllipsePoint(b: real, a: real, c: real, cos: real, sin: real): (p: Point)
    requires 0.0 <= b && 0.0 <= a
    requires -1.0 <= cos <= 1.0 && -1.0 <= sin <= 1.0
    ensures -b <= p.x <= b
    ensures c - a <= p.y <= c + a
  {
    ScaledUnit(b, cos);
    ScaledUnit(a, sin);
    Point(b * cos, a * sin + c)
  }

  lemma ScaledUnit(r: real, u: real)
    requires 0.0 <= r && -1.0 <= u <= 1.0
    ensures -r <= r * u <= r
  {
    assert r * (u + 1.0) >= 0.0 && r * (1.0 - u) >= 0.0;
  }

  /** `radToDeg(atan2(y, x))`: the direction of a moon from the planet in
      degrees, always in `[-180, 180]`. */
  function BearingDegrees(m: MathLib, p: Point): (deg: real)
    requires Lawful(m)
    ensures -180.0 <= deg <= 180.0
  {
    RadToDeg(m.atan2(p.y, p.x))
  }
}
