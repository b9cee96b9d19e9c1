/** The older, single-file simulator (html_dump/JS_SIM/halferth-simulator/
    main.js): module-level `let`s for the spin accumulator, the orbit angle,
    the last timestamp and the label throttle, advanced by `animate`. It has
    no pause, no day jump and no `delta > 0` guard, skips any frame whose
    last timestamp is unset, and shows a zero-based day. */
module Legacy {
  import opened JsMath
  import Config
  import Orbit
  import Calendar

  /** The module-level clock variables. */
  datatype LegacyState = LegacyState(
    previousTimestamp: real,
    orbitAngle: real,
    spin: Orbit.SpinCounter,
    labelUpdateThrottle: int)

  /** All zero, as the script declares them. */
  const INITIAL: LegacyState := LegacyState(0.0, 0.0, Orbit.SpinCounter(0, 0.0), 0)

  /** The clock invariant of this variant: whole days are never negative,
      the throttle counts up from zero, and the spin made is exactly 420
      times the orbit made (both start at zero and there is no guard that
      would let one move without the other). */
  predicate Coupled(s: LegacyState) {
    && 0 <= s.spin.fullSpins
    && 0 <= s.labelUpdateThrottle
    && Orbit.SpinTotal(s.spin) == (Config.HALFERTH_YEAR_DAYS as real) * s.orbitAngle
  }

  /** `!previousTimestamp`: the frame only records its timestamp. */
  predicate Skips(s: LegacyState) {
    s.previousTimestamp == 0.0
  }

  /** The seconds since the last frame, unscaled. */
  function Delta(s: LegacyState, currentTime: real): real {
    (currentTime - s.previousTimestamp) / 1000.0
  }

  /** One call of `animate(currentTime)` on the clock variables. */
  function Step(s: LegacyState, currentTime: real): (r: LegacyState)
    ensures Skips(s) ==> r == s.(previousTimestamp := currentTime)
    ensures !Skips(s) ==>
      && r.previousTimestamp == currentTime
      && r.labelUpdateThrottle == s.labelUpdateThrottle + 1
      && r.orbitAngle - s.orbitAngle == Orbit.ORBIT_SPEED * Delta(s, currentTime)
      && Orbit.SpinTotal(r.spin) - Orbit.SpinTotal(s.spin) == Orbit.SpinStep(Delta(s, currentTime))
    ensures s.spin.fullSpins <= r.spin.fullSpins
  {
    if Skips(s) then
      s.(previousTimestamp := currentTime)
    else
      var delta := Delta(s, currentTime);
      LegacyState(currentTime,
                  s.orbitAngle + Orbit.ORBIT_SPEED * delta,
                  Orbit.Accumulate(s.spin, Orbit.SpinStep(delta)),
                  s.labelUpdateThrottle + 1)
  }

  /** Every frame keeps the clock invariant, whatever its timestamp. */
  lemma StepKeepsCoupling(s: LegacyState, currentTime: real)
    requires Coupled(s)
    ensures Coupled(Step(s, currentTime))
  {
    if !Skips(s) {
      Orbit.SpinStepIsYearDaysOfOrbit(Delta(s, currentTime));
    }
  }

  /** With timestamps that do not go backwards the remainder of the spin
      stays within one turn. */
  lemma StepKeepsSpinNormalised(s: LegacyState, currentTime: real)
    requires Orbit.Normalised(s.spin) && s.previousTimestamp <= currentTime
    ensures Orbit.Normalised(Step(s, currentTime).spin)
  {
    if !Skips(s) {
      assert Delta(s, currentTime) >= 0.0;
      assert Orbit.SpinStep(Delta(s, currentTime)) >= 0.0;
    }
  }

  /** At start-up: the script's own `animate()` call (no timestamp) and
      the first scheduled frame both only record a timestamp; nothing else
      moves. */
  lemma StartupSkipsTwoFrames(firstFrame: real)
    requires firstFrame != 0.0
    ensures Step(INITIAL, 0.0) == INITIAL
    ensures Step(Step(INITIAL, 0.0), firstFrame) == INITIAL.(previousTimestamp := firstFrame)
    ensures !Skips(Step(Step(INITIAL, 0.0), firstFrame))
    ensures Coupled(INITIAL)
  {
  }

  /** `fullSpins % 420`: the zero-based day. */
  function LegacyDay(fullSpins: int): (day: int)
    ensures 0 <= fullSpins ==> 0 <= day < Config.HALFERTH_YEAR_DAYS
  {
    IntRem(fullSpins, Config.HALFERTH_YEAR_DAYS)
  }

  /** The day this variant shows is one less than the day sim_dev shows
      for the same count: the same calendar, counted from zero. */
  lemma LegacyDayIsZeroBased(fullSpins: int)
    ensures LegacyDay(fullSpins) + 1 == Calendar.CurrentDay(fullSpins)
  {
  }

  /** What a frame shows: skipped, or the day, both moon angles and
      whether the labels moved. */
  datatype Frame =
    | Skipped
    | Advanced(day: int, motherAngle: real, daughterAngle: real, labelsMoved: bool)

  /** What an advanced frame shows, read off the clock after the step. */
  function Show(r: LegacyState): Frame {
    Config.ConfigConsistent();
    var fraction := Orbit.SpinFraction(r.spin);
    Advanced(LegacyDay(r.spin.fullSpins),
             Orbit.MoonAngle(fraction, Config.MOTHER.orbitDays),
             Orbit.MoonAngle(fraction, Config.DAUGHTER.orbitDays),
             r.labelUpdateThrottle % 2 == 0)
  }

  /** The frame `animate` produces from the clock before it. */
  function FrameOf(s: LegacyState, currentTime: real): Frame {
    if Skips(s) then Skipped else Show(Step(s, currentTime))
  }

  /** Where a frame leaves the two moon meshes. */
  datatype Meshes = Unmoved | Placed(mother: Orbit.Point, daughter: Orbit.Point)

  /** A skipped frame moves no mesh; an advanced one puts each moon on its
      ellipse at its angle. */
  function MeshesOf(f: Frame, m: MathLib): Meshes
    requires Lawful(m)
  {
    Config.ConfigConsistent();
    match f
    case Skipped => Unmoved
    case Advanced(_, motherAngle, daughterAngle, _) =>
      Placed(Orbit.EllipsePosition(m, Config.MOTHER, motherAngle),
             Orbit.EllipsePosition(m, Config.DAUGHTER, daughterAngle))
  }

  /** An advanced frame from a non-negative day count shows a day in
      `[0, 419]` and moves the labels on every second advanced frame. */
  lemma FrameShowsDay(s: LegacyState, currentTime: real)
    requires 0 <= s.spin.fullSpins && !Skips(s)
    ensures var f := FrameOf(s, currentTime);
      && f.Advanced?
      && 0 <= f.day < Config.HALFERTH_YEAR_DAYS
      && (f.labelsMoved <==> s.labelUpdateThrottle % 2 == 1)
  {
    assert FrameOf(s, currentTime) == Show(Step(s, currentTime));
  }

  /** Because the spin is tied to the orbit, an advanced frame of a
      coupled clock puts the mother moon at six times and the daughter
      moon at twelve times the planet's orbit angle, less `PI`: six and
      twelve laps a year. */
  lemma FrameShowsMoonLaps(s: LegacyState, currentTime: real)
    requires Coupled(s) && !Skips(s)
    ensures var r := Step(s, currentTime);
      var f := FrameOf(s, currentTime);
      && f.Advanced?
      && f.motherAngle == 6.0 * r.orbitAngle - PI
      && f.daughterAngle == 12.0 * r.orbitAngle - PI
  {
    var r := Step(s, currentTime);
    StepKeepsCoupling(s, currentTime);
    var fraction := Orbit.SpinFraction(r.spin);
    assert fraction * TWO_PI == 420.0 * r.orbitAngle;
    LapsOfOrbit(fraction, r.orbitAngle, 70, 6.0);
    LapsOfOrbit(fraction, r.orbitAngle, 35, 12.0);
  }

  /** A moon whose period divides the year `laps` times turns `laps` times
      as fast as the planet orbits. */
  lemma LapsOfOrbit(fraction: real, orbitAngle: real, orbitDays: int, laps: real)
    requires fraction * TWO_PI == 420.0 * orbitAngle
    requires 0 < orbitDays && laps * orbitDays as real == 420.0
    ensures Orbit.MoonAngle(fraction, orbitDays) == laps * orbitAngle - PI
  {
    var d := orbitDays as real;
    calc {
      (fraction / d) * 2.0 * PI;
      (fraction * TWO_PI) / d;
      (420.0 * orbitAngle) / d;
      { assert 420.0 == laps * d; }
      laps * orbitAngle;
    }
  }

  /** The script's clock variables. */
  class LegacySimulator {
    var totalSpin: real
    var fullSpins: int
    var previousTimestamp: real
    var orbitAngle: real
    var labelUpdateThrottle: int

    function State(): LegacyState
      reads this
    {
      LegacyState(previousTimestamp, orbitAngle, Orbit.SpinCounter(fullSpins, totalSpin), labelUpdateThrottle)
    }

    constructor ()
      ensures State() == INITIAL
    {
      totalSpin, fullSpins, previousTimestamp, orbitAngle := 0.0, 0, 0.0, 0.0;
      labelUpdateThrottle := 0;
    }

    /** `animate(currentTime)`, without the rendering and the label
        projection: the new clock, what the frame shows and where it leaves
        the moon meshes. */
    method Animate(currentTime: real, m: MathLib) returns (frame: Frame, meshes: Meshes)
      requires Lawful(m)
      modifies this
      ensures State() == Step(old(State()), currentTime)
      ensures frame == FrameOf(old(State()), currentTime)
      ensures meshes == MeshesOf(frame, m)
    {
      if previousTimestamp == 0.0 {
        previousTimestamp := currentTime;
        return Skipped, Unmoved;
      }
      var delta := (currentTime - previousTimestamp) / 1000.0;
      previousTimestamp := currentTime;
      ghost var s0 := old(State());
      assert delta == Delta(s0, currentTime);
      ghost var next := LegacyState(currentTime, s0.orbitAngle + Orbit.ORBIT_SPEED * delta,
                                    Orbit.Accumulate(s0.spin, Orbit.SpinStep(delta)),
                                    s0.labelUpdateThrottle + 1);
      assert next == Step(s0, currentTime);
      AdvanceSpin(delta);
      frame := ShowFrame();
      assert State() == next;
      Config.ConfigConsistent();
      var motherPosition := Orbit.EllipsePosition(m, Config.MOTHER, frame.motherAngle);
      var daughterPosition := Orbit.EllipsePosition(m, Config.DAUGHTER, frame.daughterAngle);
      meshes := Placed(motherPosition, daughterPosition);
    }

    /** The orbit and spin lines of `animate`. */
    method AdvanceSpin(delta: real)
      modifies this`orbitAngle, this`totalSpin, this`fullSpins
      ensures orbitAngle == old(orbitAngle) + Orbit.ORBIT_SPEED * delta
      ensures Orbit.SpinCounter(fullSpins, totalSpin)
           == Orbit.Accumulate(Orbit.SpinCounter(old(fullSpins), old(totalSpin)), Orbit.SpinStep(delta))
    {
      var orbitSpeed := (2.0 * PI) / 62.8;
      assert orbitSpeed == Orbit.ORBIT_SPEED;
      orbitAngle := orbitAngle + orbitSpeed * delta;
      var spinSpeed := orbitSpeed * 420.0;
      var spinStep := spinSpeed * delta;
      assert spinStep == Orbit.SpinStep(delta);
      totalSpin := totalSpin + spinStep;
      assert PI * 2.0 == TWO_PI;
      if totalSpin >= PI * 2.0 {
        var spinsThisFrame := Floor(totalSpin / (PI * 2.0));
        fullSpins := fullSpins + spinsThisFrame;
        totalSpin := Rem(totalSpin, PI * 2.0);
      }
    }

    /** The day, moon angle and throttle lines of `animate`. */
    method ShowFrame() returns (frame: Frame)
      modifies this`labelUpdateThrottle
      ensures labelUpdateThrottle == old(labelUpdateThrottle) + 1
      ensures frame == Show(State())
    {
      var currentDay := IntRem(fullSpins, 420);
      var spinFraction := fullSpins as real + totalSpin / (2.0 * PI);
      var angleOffset := -PI;
      var motherAngle := (spinFraction / 70.0) * 2.0 * PI + angleOffset;
      var daughterAngle := (spinFraction / 35.0) * 2.0 * PI + angleOffset;
      labelUpdateThrottle := labelUpdateThrottle + 1;
      frame := Advanced(currentDay, motherAngle, daughterAngle, labelUpdateThrottle % 2 == 0);
    }
  }
}
