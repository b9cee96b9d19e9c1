/** The constant configuration of the simulator (sim_dev/config.js):
    the year, the animation pace, the trail size and the two moons. */
module Config {
  import opened JsMath

  const ORBIT_RADIUS: real := 30.0
  const PLANET_AXIAL_TILT: real := 12.5
  const HALFERTH_YEAR_DAYS: int := 420
  const HALFERTH_DAY_HOURS: int := 21
  /** Wall-clock seconds for one animated orbit of the planet. */
  const ANIMATION_ORBIT_PERIOD_SECONDS: real := 62.8
  const MAX_TRAIL_POINTS: int := 9000

  /** One moon's entry of `CONFIG`; the getters `SEMI_MINOR_AXIS` and
      `FOCUS_OFFSET` are the functions below. */
  datatype MoonConfig = MoonConfig(
    orbitDays: int,
    eccentricity: real,
    semiMajorAxis: real,
    radius: real)

  const MOTHER: MoonConfig := MoonConfig(70, 0.35, 7.0, 1.0)
  const DAUGHTER: MoonConfig := MoonConfig(35, 0.3, 7.0 * (413000.0 / 656000.0), 0.6)

  const SEASONS: seq<string> :=
    ["Nightfall", "Long Night", "Nightspring", "Dayspring", "Long Day", "Dayfall"]

  /** A moon whose orbit is a true ellipse: positive period and size,
      eccentricity in `[0, 1)`. */
  predicate ValidMoon(moon: MoonConfig) {
    && 0 < moon.orbitDays
    && 0.0 <= moon.eccentricity < 1.0
    && 0.0 < moon.semiMajorAxis
  }

  /** The `FOCUS_OFFSET` getter: centre-to-focus distance of the orbit. */
  function FocusOffset(moon: MoonConfig): (c: real)
    ensures ValidMoon(moon) ==> 0.0 <= c < moon.semiMajorAxis
  {
    assert ValidMoon(moon) ==> moon.semiMajorAxis * moon.eccentricity < moon.semiMajorAxis * 1.0;
    moon.semiMajorAxis * moon.eccentricity
  }

  /** The `SEMI_MINOR_AXIS` getter. For a true ellipse it is positive, no
      longer than the semi-major axis, and together with the focus offset
      satisfies `b^2 + c^2 == a^2`. */
  function SemiMinorAxis(m: MathLib, moon: MoonConfig): (b: real)
    requires Lawful(m)
    ensures ValidMoon(moon) ==> 0.0 < b <= moon.semiMajorAxis
    ensures ValidMoon(moon) ==>
      b * b + FocusOffset(moon) * FocusOffset(moon) == moon.semiMajorAxis * moon.semiMajorAxis
  {
    var a, e := moon.semiMajorAxis, moon.eccentricity;
    var s := m.sqrt(1.0 - e * e);
    if ValidMoon(moon) then
      assert e * e <= e * 1.0 < 1.0;
      SqrtOfFraction(m, 1.0 - e * e);
      EllipseIdentity(a, e, s);
      a * s
    else
      a * s
  }

  /** The square root of a positive number no greater than one is positive
      and no greater than one. */
  lemma SqrtOfFraction(m: MathLib, x: real)
    requires Lawful(m) && 0.0 < x <= 1.0
    ensures 0.0 < m.sqrt(x) <= 1.0
  {
    var s := m.sqrt(x);
    assert (s - 1.0) * (s + 1.0) == x - 1.0;
  }

  lemma EllipseIdentity(a: real, e: real, s: real)
    requires 0.0 < a && 0.0 < s <= 1.0 && s * s == 1.0 - e * e
    ensures 0.0 < a * s <= a
    ensures (a * s) * (a * s) + (a * e) * (a * e) == a * a
  {
    assert (a * s) * (a * s) == a * a * (s * s);
    assert (a * e) * (a * e) == a * a * (e * e);
    assert a * s <= a * 1.0;
  }

  /** The configuration is self-consistent: six seasons of 70 days make the
      420-day year, both moon periods divide the year, both orbits are true
      ellipses, and the daughter's orbit is the smaller one. */
  lemma ConfigConsistent()
    ensures HALFERTH_YEAR_DAYS == |SEASONS| * 70
    ensures HALFERTH_YEAR_DAYS % MOTHER.orbitDays == 0 && HALFERTH_YEAR_DAYS / MOTHER.orbitDays == 6
    ensures HALFERTH_YEAR_DAYS % DAUGHTER.orbitDays == 0 && HALFERTH_YEAR_DAYS / DAUGHTER.orbitDays == 12
    ensures ValidMoon(MOTHER) && ValidMoon(DAUGHTER)
    ensures DAUGHTER.semiMajorAxis < MOTHER.semiMajorAxis
  {
  }
}
