/** The simulation clock of sim_dev: the `simulationState` record and the
    UI callbacks that assign it (sim_dev/main.js), and the per-frame
    `animate` loop with `updatePlanetAndMoons`, `updateUIElements` and
    `updateTrails` (sim_dev/animation.js), rendering calls left out.

    `Tick` is the specification of one frame of the clock, `Pause`,
    `ChangeSpeed` and `JumpToDay` of the callbacks; the classes' methods are
    proved to follow them, and the lemmas state what they promise. */
module Simulation {
  import opened JsMath
  import Config
  import Orbit
  import Calendar
  import Trails
  import Bridge

  /** The speed multipliers the UI offers. */
  predicate IsSpeedChoice(speed: real) {
    speed == 0.25 || speed == 1.0 || speed == 4.0
  }

  /** The range of the day slider, `[1, HALFERTH_YEAR_DAYS]`. */
  predicate IsSliderDay(day: int) {
    1 <= day <= Config.HALFERTH_YEAR_DAYS
  }

  // ---------------------------------------------------------------------
  // Specification of the clock
  // ---------------------------------------------------------------------

  /** The clock fields of `simulationState`. */
  datatype Clock = Clock(
    isPaused: bool,
    pauseStart: real,
    needsManualUpdate: bool,
    speed: real,
    orbitAngle: real,
    spin: Orbit.SpinCounter)

  /** The animation loop's view: its `previousTimestamp` closure variable
      and the clock. */
  datatype Loop = Loop(previousTimestamp: real, clock: Clock)

  /** `simulationState` as main.js creates it. */
  const INITIAL_CLOCK: Clock := Clock(false, 0.0, false, 1.0, 0.0, Orbit.SpinCounter(0, 0.0))

  /** A frame advances the simulation when it runs or a day jump is pending. */
  predicate Processes(c: Clock) {
    !c.isPaused || c.needsManualUpdate
  }

  /** What the timing lines of a processed frame leave behind. */
  datatype Timing = Timing(previousTimestamp: real, pauseStart: real, delta: real)

  /** The timing lines of `animate`. Paused (a pending jump): no time
      passes. Running: the first tick after a pause moves the last
      timestamp forward by the time since the pause click and consumes the
      pause start; a zero (unset) last timestamp gives a zero delta; the
      delta is scaled to seconds and by the speed multiplier. */
  function FrameTiming(l: Loop, now: real): (t: Timing)
    ensures l.clock.isPaused ==> t == Timing(l.previousTimestamp, l.clock.pauseStart, 0.0)
    ensures !l.clock.isPaused ==> t.previousTimestamp == now && !(t.pauseStart > 0.0)
    ensures !l.clock.isPaused && !(l.clock.pauseStart > 0.0) ==>
      && t.pauseStart == l.clock.pauseStart
      && t.delta == if l.previousTimestamp == 0.0 then 0.0
                    else ((now - l.previousTimestamp) / 1000.0) * l.clock.speed
    ensures !l.clock.isPaused && l.clock.pauseStart > 0.0 ==>
      && t.pauseStart == 0.0
      && t.delta == if l.previousTimestamp + (now - l.clock.pauseStart) == 0.0 then 0.0
                    else ((l.clock.pauseStart - l.previousTimestamp) / 1000.0) * l.clock.speed
  {
    if l.clock.isPaused then
      Timing(l.previousTimestamp, l.clock.pauseStart, 0.0)
    else
      var rebased := if l.clock.pauseStart > 0.0
                     then l.previousTimestamp + (now - l.clock.pauseStart)
                     else l.previousTimestamp;
      var pauseStart := if l.clock.pauseStart > 0.0 then 0.0 else l.clock.pauseStart;
      var previous := if rebased == 0.0 then now else rebased;
      Timing(now, pauseStart, ((now - previous) / 1000.0) * l.clock.speed)
  }

  /** The simulated seconds a frame advances the clock by. */
  function FrameDelta(l: Loop, now: real): real {
    if Processes(l.clock) then FrameTiming(l, now).delta else 0.0
  }

  /** The orbit line of `updatePlanetAndMoons`: only a positive delta moves
      the planet, so the orbit angle never goes back. */
  function AdvanceOrbit(orbitAngle: real, delta: real): (r: real)
    ensures orbitAngle <= r
    ensures r != orbitAngle <==> 0.0 < delta
    ensures 0.0 <= delta ==> r - orbitAngle == Orbit.ORBIT_SPEED * delta
  {
    if delta > 0.0 then orbitAngle + Orbit.ORBIT_SPEED * delta else orbitAngle
  }

  /** One call of `animate` on the clock. */
  function Tick(l: Loop, now: real): (r: Loop)
    ensures !Processes(l.clock) ==> r == l
    ensures Processes(l.clock) ==> !r.clock.needsManualUpdate
    ensures r.clock.isPaused == l.clock.isPaused && r.clock.speed == l.clock.speed
    ensures l.clock.orbitAngle <= r.clock.orbitAngle
    ensures l.clock.spin.fullSpins <= r.clock.spin.fullSpins
  {
    if !Processes(l.clock) then
      l
    else
      var t := FrameTiming(l, now);
      Loop(t.previousTimestamp,
           l.clock.(pauseStart := t.pauseStart,
                    needsManualUpdate := false,
                    orbitAngle := AdvanceOrbit(l.clock.orbitAngle, t.delta),
                    spin := Orbit.Accumulate(l.clock.spin, Orbit.SpinStep(t.delta))))
  }

  /** A processed frame's loop, field by field. */
  lemma TickOfProcessedFrame(l: Loop, now: real, r: Loop)
    requires Processes(l.clock)
    requires r.previousTimestamp == FrameTiming(l, now).previousTimestamp
    requires r.clock.pauseStart == FrameTiming(l, now).pauseStart
    requires r.clock.orbitAngle == AdvanceOrbit(l.clock.orbitAngle, FrameTiming(l, now).delta)
    requires r.clock.spin == Orbit.Accumulate(l.clock.spin, Orbit.SpinStep(FrameTiming(l, now).delta))
    requires !r.clock.needsManualUpdate
    requires r.clock.isPaused == l.clock.isPaused && r.clock.speed == l.clock.speed
    ensures Tick(l, now) == r
  {
  }

  /** `onPauseClick`: flips the pause flag; pausing records the click time,
      resuming leaves the pause start for the next frame to consume. */
  function Pause(c: Clock, now: real): (r: Clock)
    ensures r.isPaused == !c.isPaused
    ensures r.pauseStart == if r.isPaused then now else c.pauseStart
    ensures r.(isPaused := c.isPaused, pauseStart := c.pauseStart) == c
  {
    var paused := !c.isPaused;
    c.(isPaused := paused, pauseStart := if paused then now else c.pauseStart)
  }

  /** `onSpeedChange`: sets the multiplier and nothing else. */
  function ChangeSpeed(c: Clock, speed: real): (r: Clock)
    ensures r.speed == speed && r.(speed := c.speed) == c
  {
    c.(speed := speed)
  }

  /** `onDaySliderChange`: jumps to the start of day `day`, puts the planet
      at `day / 420` of its orbit and asks for one recompute. */
  function JumpToDay(c: Clock, day: int): (r: Clock)
    requires IsSliderDay(day)
    ensures r.needsManualUpdate
    ensures Orbit.Normalised(r.spin) && r.spin.totalSpin == 0.0
    ensures r.spin.fullSpins == day - 1
    ensures r.orbitAngle == (day as real / Config.HALFERTH_YEAR_DAYS as real) * TWO_PI
    ensures r.(needsManualUpdate := c.needsManualUpdate, orbitAngle := c.orbitAngle, spin := c.spin) == c
  {
    c.(spin := Orbit.SpinCounter(day - 1, 0.0),
       orbitAngle := (day as real / Config.HALFERTH_YEAR_DAYS as real) * TWO_PI,
       needsManualUpdate := true)
  }

  // ---------------------------------------------------------------------
  // What the clock promises
  // ---------------------------------------------------------------------

  /** A paused frame with no jump pending leaves every clock value and the
      last timestamp as they were, however many frames pass. */
  lemma {:induction false} PausedFramesChangeNothing(l: Loop, times: seq<real>)
    requires l.clock.isPaused && !l.clock.needsManualUpdate
    ensures Run(l, times) == l
  {
    if times != [] {
      PausedFramesChangeNothing(Tick(l, times[0]), times[1..]);
    }
  }

  /** The loop after one frame per timestamp. */
  function Run(l: Loop, times: seq<real>): Loop
    decreases |times|
  {
    if times == [] then l else Run(Tick(l, times[0]), times[1..])
  }

  /** A jump while paused is applied by exactly one frame, with a zero
      delta: no time passes, the pending flag is cleared, and the frames
      after it change nothing. */
  lemma JumpWhilePausedRecomputesOnce(l: Loop, day: int, now: real, later: real)
    requires IsSliderDay(day) && l.clock.isPaused
    ensures FrameDelta(Loop(l.previousTimestamp, JumpToDay(l.clock, day)), now) == 0.0
    ensures Tick(Loop(l.previousTimestamp, JumpToDay(l.clock, day)), now)
         == Loop(l.previousTimestamp, JumpToDay(l.clock, day).(needsManualUpdate := false))
    ensures Tick(Tick(Loop(l.previousTimestamp, JumpToDay(l.clock, day)), now), later)
         == Tick(Loop(l.previousTimestamp, JumpToDay(l.clock, day)), now)
  {
    var j := Loop(l.previousTimestamp, JumpToDay(l.clock, day));
    assert Orbit.Accumulate(j.clock.spin, Orbit.SpinStep(0.0)) == j.clock.spin;
  }

  /** Spin and orbit move in step: the spin total grows by exactly 420
      times the growth of the orbit angle if and only if the frame's delta
      is not negative (a negative delta spins without orbiting). */
  lemma SpinFollowsOrbit(l: Loop, now: real)
    ensures var r := Tick(l, now);
      FrameDelta(l, now) >= 0.0 <==>
        Orbit.SpinTotal(r.clock.spin) - Orbit.SpinTotal(l.clock.spin)
        == (Config.HALFERTH_YEAR_DAYS as real) * (r.clock.orbitAngle - l.clock.orbitAngle)
  {
    var r := Tick(l, now);
    var delta := FrameDelta(l, now);
    if Processes(l.clock) {
      Orbit.SpinStepIsYearDaysOfOrbit(delta);
      assert Orbit.SpinTotal(r.clock.spin) - Orbit.SpinTotal(l.clock.spin) == Orbit.SpinStep(delta);
      if delta < 0.0 {
        assert r.clock.orbitAngle == l.clock.orbitAngle;
        assert Orbit.SpinStep(delta) < 0.0;
      }
    }
  }

  /** A frame with a non-negative delta keeps the spin remainder within one
      turn. */
  lemma TickKeepsSpinNormalised(l: Loop, now: real)
    requires Orbit.Normalised(l.clock.spin) && FrameDelta(l, now) >= 0.0
    ensures Orbit.Normalised(Tick(l, now).clock.spin)
  {
    if Processes(l.clock) {
      assert Orbit.SpinStep(FrameDelta(l, now)) >= 0.0;
    }
  }

  /** Running frames with timestamps that do not go backwards and a
      non-negative speed have non-negative deltas, so (by the lemmas above)
      the day counter and the orbit only move forward together. */
  lemma RunningDeltaNotNegative(l: Loop, now: real)
    requires !l.clock.isPaused && !(l.clock.pauseStart > 0.0)
    requires l.previousTimestamp <= now && 0.0 <= l.clock.speed
    ensures FrameDelta(l, now) >= 0.0
  {
    var d := (now - l.previousTimestamp) / 1000.0;
    assert d >= 0.0;
    assert d * l.clock.speed >= 0.0;
  }

  /** Pausing at `pauseAt`, any number of paused frames, then resuming: the
      first running frame advances the clock by the time between the last
      frame before the pause and the pause click, whatever the time of the
      resume click or of the frame. The paused interval is not counted. */
  lemma PauseExcludesPausedTime(l: Loop, pauseAt: real, paused: seq<real>, resumeAt: real, now: real)
    requires !l.clock.isPaused && !(l.clock.pauseStart > 0.0) && !l.clock.needsManualUpdate
    requires 0.0 < pauseAt
    requires l.previousTimestamp + (now - pauseAt) != 0.0
    ensures var p := Run(Loop(l.previousTimestamp, Pause(l.clock, pauseAt)), paused);
      && p == Loop(l.previousTimestamp, Pause(l.clock, pauseAt))
      && var resumed := Loop(p.previousTimestamp, Pause(p.clock, resumeAt));
      && FrameDelta(resumed, now) == ((pauseAt - l.previousTimestamp) / 1000.0) * l.clock.speed
      && Tick(resumed, now).previousTimestamp == now
      && Tick(resumed, now).clock.pauseStart == 0.0
  {
    PausedFramesChangeNothing(Loop(l.previousTimestamp, Pause(l.clock, pauseAt)), paused);
  }

  /** A jump overwrites the whole day state: two clocks that differ only in
      their day state jump to the same clock. */
  lemma JumpForgetsPriorDay(c1: Clock, c2: Clock, day: int)
    requires IsSliderDay(day)
    requires c1.isPaused == c2.isPaused && c1.pauseStart == c2.pauseStart && c1.speed == c2.speed
    ensures JumpToDay(c1, day) == JumpToDay(c2, day)
  {
  }

  /** Jumping to the same day twice is jumping once. */
  lemma JumpIdempotent(c: Clock, day: int)
    requires IsSliderDay(day)
    ensures JumpToDay(JumpToDay(c, day), day) == JumpToDay(c, day)
  {
  }

  /** After a jump to `day` the calendar shows that very day. */
  lemma JumpShowsDay(c: Clock, day: int)
    requires IsSliderDay(day)
    ensures Calendar.DisplayOf(JumpToDay(c, day).spin.fullSpins).currentDay == day
  {
  }

  /** At start-up the spin total is 420 times the orbit angle (both are
      zero); after a jump the orbit is one day's worth ahead of the spin,
      because day `d` puts `d - 1` whole spins against `d / 420` of an
      orbit. */
  lemma JumpPutsOrbitOneDayAhead(c: Clock, day: int)
    requires IsSliderDay(day)
    ensures Orbit.SpinTotal(INITIAL_CLOCK.spin)
         == (Config.HALFERTH_YEAR_DAYS as real) * INITIAL_CLOCK.orbitAngle
    ensures Orbit.SpinTotal(JumpToDay(c, day).spin) + TWO_PI
         == (Config.HALFERTH_YEAR_DAYS as real) * JumpToDay(c, day).orbitAngle
  {
  }

  /** Toggling pause twice restores the flag. */
  lemma PauseTwiceRestoresFlag(c: Clock, t1: real, t2: real)
    ensures Pause(Pause(c, t1), t2).isPaused == c.isPaused
    ensures !c.isPaused ==> Pause(Pause(c, t1), t2).pauseStart == t1
  {
  }

  // ---------------------------------------------------------------------
  // The state record and the animation loop
  // ---------------------------------------------------------------------

  /** `getWorldPosition` of the two moons after they have been placed: a
      scene-graph readout the model takes as given. */
  datatype World = World(mother: Trails.Vec3, daughter: Trails.Vec3)

  /** `simulationState` (sim_dev/main.js), with the two fields
      `updatePlanetAndMoons` adds to it. The image buffers and the label
      projection are left out. */
  class SimulationState {
    var needsManualUpdate: bool
    var totalSpin: real
    var fullSpins: int
    var labelUpdateThrottle: int
    var orbitAngle: real
    var isPaused: bool
    var pauseStart: real
    var trailEnabled: bool
    const motherTrailPositions: array<real>
    const daughterTrailPositions: array<real>
    var motherTrailIndex: int
    var daughterTrailIndex: int
    var bitmapUpdateCounter: int
    var animationSpeedMultiplier: real
    var motherOrbitalAngle: real
    var daughterOrbitalAngle: real

    ghost predicate Valid()
      reads this`motherTrailIndex, this`daughterTrailIndex, this`fullSpins, this`labelUpdateThrottle
    {
      && motherTrailPositions != daughterTrailPositions
      && motherTrailPositions.Length == Trails.BUFFER_LENGTH
      && daughterTrailPositions.Length == Trails.BUFFER_LENGTH
      && 0 <= motherTrailIndex < Config.MAX_TRAIL_POINTS
      && daughterTrailIndex == motherTrailIndex
      && 0 <= fullSpins
      && 0 <= labelUpdateThrottle
    }

    ghost function ClockState(): Clock
      reads this`isPaused, this`pauseStart, this`needsManualUpdate, this`animationSpeedMultiplier
      reads this`orbitAngle, this`fullSpins, this`totalSpin
    {
      Clock(isPaused, pauseStart, needsManualUpdate, animationSpeedMultiplier,
            orbitAngle, Orbit.SpinCounter(fullSpins, totalSpin))
    }

    ghost function TrailView(): Trails.TrailState
      reads this`trailEnabled, this`motherTrailIndex, this`daughterTrailIndex
      reads motherTrailPositions, daughterTrailPositions
    {
      Trails.TrailState(trailEnabled, motherTrailPositions[..], daughterTrailPositions[..],
                        motherTrailIndex, daughterTrailIndex)
    }

    /** The record main.js starts with: everything zero, not paused, no
        jump pending, trails off and empty, normal speed. */
    constructor ()
      ensures Valid()
      ensures ClockState() == INITIAL_CLOCK
      ensures fresh(motherTrailPositions) && fresh(daughterTrailPositions)
      ensures TrailView() == Trails.TrailState(false, Trails.Zeros(Trails.BUFFER_LENGTH),
                                               Trails.Zeros(Trails.BUFFER_LENGTH), 0, 0)
      ensures labelUpdateThrottle == 0 && bitmapUpdateCounter == 0
    {
      needsManualUpdate := false;
      totalSpin := 0.0;
      fullSpins := 0;
      labelUpdateThrottle := 0;
      orbitAngle := 0.0;
      isPaused := false;
      pauseStart := 0.0;
      trailEnabled := false;
      motherTrailPositions := new real[Trails.BUFFER_LENGTH](_ => 0.0);
      daughterTrailPositions := new real[Trails.BUFFER_LENGTH](_ => 0.0);
      motherTrailIndex := 0;
      daughterTrailIndex := 0;
      bitmapUpdateCounter := 0;
      animationSpeedMultiplier := 1.0;
      motherOrbitalAngle := 0.0;
      daughterOrbitalAngle := 0.0;
      new;
      assert motherTrailPositions[..] == Trails.Zeros(Trails.BUFFER_LENGTH);
      assert daughterTrailPositions[..] == Trails.Zeros(Trails.BUFFER_LENGTH);
    }

    /** `onPauseClick`, with `performance.now()` as `now`; mirrors the flag
        into the shared record. */
    method OnPauseClick(shared: Bridge.SharedState, now: real)
      requires Valid()
      modifies this`isPaused, this`pauseStart, shared`isPaused
      ensures Valid()
      ensures ClockState() == Pause(old(ClockState()), now)
      ensures shared.isPaused == isPaused
    {
      isPaused := !isPaused;
      shared.isPaused := isPaused;
      if isPaused {
        pauseStart := now;
      }
    }

    /** `onTrailsToggle`. */
    method OnTrailsToggle(enabled: bool)
      requires Valid()
      modifies this`trailEnabled, this`motherTrailIndex, this`daughterTrailIndex
      modifies motherTrailPositions, daughterTrailPositions
      ensures Valid()
      ensures TrailView() == Trails.Toggle(old(TrailView()), enabled)
    {
      trailEnabled := enabled;
      if !trailEnabled {
        Trails.Fill(motherTrailPositions);
        Trails.Fill(daughterTrailPositions);
        motherTrailIndex := 0;
        daughterTrailIndex := 0;
      }
    }

    /** `onSpeedChange`. */
    method OnSpeedChange(speed: real)
      requires Valid() && IsSpeedChoice(speed)
      modifies this`animationSpeedMultiplier
      ensures Valid()
      ensures ClockState() == ChangeSpeed(old(ClockState()), speed)
    {
      animationSpeedMultiplier := speed;
    }

    /** `onDaySliderChange`, with the slider value already an integer. */
    method OnDaySliderChange(day: int)
      requires Valid() && IsSliderDay(day)
      modifies this`fullSpins, this`totalSpin, this`orbitAngle, this`needsManualUpdate
      ensures Valid()
      ensures ClockState() == JumpToDay(old(ClockState()), day)
    {
      fullSpins := day - 1;
      totalSpin := 0.0;
      orbitAngle := (day as real / Config.HALFERTH_YEAR_DAYS as real) * (2.0 * PI);
      needsManualUpdate := true;
    }

    /** `updatePlanetAndMoons`: orbit, spin with carry, and both moons'
        angles and positions (returned as the positions the scene objects
        are given). */
    method UpdatePlanetAndMoons(m: MathLib, delta: real)
      returns (motherPosition: Orbit.Point, daughterPosition: Orbit.Point)
      requires Lawful(m) && Valid()
      modifies this`orbitAngle, this`totalSpin, this`fullSpins
      modifies this`motherOrbitalAngle, this`daughterOrbitalAngle
      ensures Valid()
      ensures orbitAngle == AdvanceOrbit(old(orbitAngle), delta)
      ensures Orbit.SpinCounter(fullSpins, totalSpin)
           == Orbit.Accumulate(Orbit.SpinCounter(old(fullSpins), old(totalSpin)), Orbit.SpinStep(delta))
      ensures motherOrbitalAngle
           == Orbit.MoonAngle(Orbit.SpinFraction(Orbit.SpinCounter(fullSpins, totalSpin)), Config.MOTHER.orbitDays)
      ensures daughterOrbitalAngle
           == Orbit.MoonAngle(Orbit.SpinFraction(Orbit.SpinCounter(fullSpins, totalSpin)), Config.DAUGHTER.orbitDays)
      ensures motherPosition == Orbit.EllipsePosition(m, Config.MOTHER, motherOrbitalAngle)
      ensures daughterPosition == Orbit.EllipsePosition(m, Config.DAUGHTER, daughterOrbitalAngle)
    {
      AdvancePlanet(delta);
      motherPosition, daughterPosition := PlaceMoons(m);
    }

    /** The orbit and spin lines of `updatePlanetAndMoons`. */
    method AdvancePlanet(delta: real)
      requires Valid()
      modifies this`orbitAngle, this`totalSpin, this`fullSpins
      ensures Valid()
      ensures orbitAngle == AdvanceOrbit(old(orbitAngle), delta)
      ensures Orbit.SpinCounter(fullSpins, totalSpin)
           == Orbit.Accumulate(Orbit.SpinCounter(old(fullSpins), old(totalSpin)), Orbit.SpinStep(delta))
    {
      ghost var before := Orbit.SpinCounter(fullSpins, totalSpin);
      var orbitSpeed := (2.0 * PI) / Config.ANIMATION_ORBIT_PERIOD_SECONDS;
      assert orbitSpeed == Orbit.ORBIT_SPEED;
      if delta > 0.0 {
        orbitAngle := orbitAngle + orbitSpeed * delta;
      }
      var spinSpeed := orbitSpeed * Config.HALFERTH_YEAR_DAYS as real;
      var spinStep := spinSpeed * delta;
      assert spinStep == Orbit.SpinStep(delta);
      totalSpin := totalSpin + spinStep;
      assert PI * 2.0 == TWO_PI;
      if totalSpin >= PI * 2.0 {
        var spinsThisFrame := Floor(totalSpin / (PI * 2.0));
        fullSpins := fullSpins + spinsThisFrame;
        totalSpin := Rem(totalSpin, PI * 2.0);
      }
    }

    /** The moon lines of `updatePlanetAndMoons`: each moon's angle from the
        day count, then its place on its ellipse. */
    method PlaceMoons(m: MathLib) returns (motherPosition: Orbit.Point, daughterPosition: Orbit.Point)
      requires Lawful(m)
      modifies this`motherOrbitalAngle, this`daughterOrbitalAngle
      ensures motherOrbitalAngle
           == Orbit.MoonAngle(Orbit.SpinFraction(Orbit.SpinCounter(fullSpins, totalSpin)), Config.MOTHER.orbitDays)
      ensures daughterOrbitalAngle
           == Orbit.MoonAngle(Orbit.SpinFraction(Orbit.SpinCounter(fullSpins, totalSpin)), Config.DAUGHTER.orbitDays)
      ensures motherPosition == Orbit.EllipsePosition(m, Config.MOTHER, motherOrbitalAngle)
      ensures daughterPosition == Orbit.EllipsePosition(m, Config.DAUGHTER, daughterOrbitalAngle)
    {
      Config.ConfigConsistent();
      var spinFraction := fullSpins as real + totalSpin / (2.0 * PI);
      var angleOffset := -PI;
      var motherAngle := (spinFraction / Config.MOTHER.orbitDays as real) * 2.0 * PI + angleOffset;
      motherPosition := Orbit.EllipsePosition(m, Config.MOTHER, motherAngle);
      var daughterAngle := (spinFraction / Config.DAUGHTER.orbitDays as real) * 2.0 * PI + angleOffset;
      daughterPosition := Orbit.EllipsePosition(m, Config.DAUGHTER, daughterAngle);
      motherOrbitalAngle := motherAngle;
      daughterOrbitalAngle := daughterAngle;
    }

    /** `updateTrails`. */
    method UpdateTrails(world: World)
      requires Valid()
      modifies this`motherTrailIndex, this`daughterTrailIndex
      modifies motherTrailPositions, daughterTrailPositions
      ensures Valid()
      ensures TrailView() == Trails.UpdateTrails(old(TrailView()), world.mother, world.daughter)
    {
      if trailEnabled {
        motherTrailIndex := Trails.UpdateTrailPoint(motherTrailPositions, motherTrailIndex, world.mother);
        daughterTrailIndex := Trails.UpdateTrailPoint(daughterTrailPositions, daughterTrailIndex, world.daughter);
      }
    }
  }

  /** `startAnimation`: the loop's closure (`previousTimestamp`) and the
      records it works on. */
  class Animation {
    var previousTimestamp: real
    const state: SimulationState
    const shared: Bridge.SharedState

    constructor (state: SimulationState, shared: Bridge.SharedState)
      ensures this.state == state && this.shared == shared
      ensures previousTimestamp == 0.0
    {
      this.state := state;
      this.shared := shared;
      previousTimestamp := 0.0;
    }

    ghost function LoopState(): Loop
      reads this`previousTimestamp
      reads state`isPaused, state`pauseStart, state`needsManualUpdate, state`animationSpeedMultiplier
      reads state`orbitAngle, state`fullSpins, state`totalSpin
    {
      Loop(previousTimestamp, state.ClockState())
    }

    /** One call of `animate(currentTime)`. Labels move on every second
        call; a frame that is paused with no jump pending does nothing else.
        A processed frame follows `Tick`, recomputes the moons, publishes
        the day and the angles on the bridge, extends the trails and
        returns the calendar display. */
    method Animate(currentTime: real, m: MathLib, world: World)
      returns (labelsMoved: bool, display: Option<Calendar.Display>)
      requires Lawful(m) && state.Valid()
      modifies this, state, state.motherTrailPositions, state.daughterTrailPositions
      modifies shared`motherY, shared`daughterY, shared`motherAngle, shared`daughterAngle,
               shared`fullSpins, shared`totalSpin, shared`calendarDay,
               shared`motherOrbitalAngle, shared`daughterOrbitalAngle
      ensures state.Valid()
      ensures LoopState() == Tick(old(LoopState()), currentTime)
      ensures shared.isPaused == old(shared.isPaused)
      ensures state.labelUpdateThrottle == old(state.labelUpdateThrottle) + 1
      ensures labelsMoved <==> state.labelUpdateThrottle % 2 == 0
      ensures !old(Processes(state.ClockState())) ==>
        && display == None
        && state.TrailView() == old(state.TrailView())
        && state.bitmapUpdateCounter == old(state.bitmapUpdateCounter)
        && state.motherOrbitalAngle == old(state.motherOrbitalAngle)
        && state.daughterOrbitalAngle == old(state.daughterOrbitalAngle)
        && unchanged(shared)
      ensures old(Processes(state.ClockState())) ==>
        && display == Some(Calendar.DisplayOf(state.fullSpins))
        && state.bitmapUpdateCounter == old(state.bitmapUpdateCounter) + 1
        && state.TrailView() == Trails.UpdateTrails(old(state.TrailView()), world.mother, world.daughter)
        && state.motherOrbitalAngle
           == Orbit.MoonAngle(Orbit.SpinFraction(LoopState().clock.spin), Config.MOTHER.orbitDays)
        && state.daughterOrbitalAngle
           == Orbit.MoonAngle(Orbit.SpinFraction(LoopState().clock.spin), Config.DAUGHTER.orbitDays)
        && Published(shared, state, m, world)
    {
      state.labelUpdateThrottle := state.labelUpdateThrottle + 1;
      labelsMoved := state.labelUpdateThrottle % 2 == 0;
      display := None;
      if !state.isPaused || state.needsManualUpdate {
        var d := ProcessFrame(currentTime, m, world);
        display := Some(d);
      }
    }

    /** The body of a processed frame: timing, the pending-jump flag, the
        bitmap counter, the planet and moons, the bridge and the trails. */
    method ProcessFrame(currentTime: real, m: MathLib, world: World) returns (display: Calendar.Display)
      requires Lawful(m) && state.Valid() && Processes(state.ClockState())
      modifies this`previousTimestamp, state, state.motherTrailPositions, state.daughterTrailPositions
      modifies shared`motherY, shared`daughterY, shared`motherAngle, shared`daughterAngle,
               shared`fullSpins, shared`totalSpin, shared`calendarDay,
               shared`motherOrbitalAngle, shared`daughterOrbitalAngle
      ensures state.Valid()
      ensures shared.isPaused == old(shared.isPaused)
      ensures LoopState() == Tick(old(LoopState()), currentTime)
      ensures state.labelUpdateThrottle == old(state.labelUpdateThrottle)
      ensures display == Calendar.DisplayOf(state.fullSpins)
      ensures state.bitmapUpdateCounter == old(state.bitmapUpdateCounter) + 1
      ensures state.TrailView() == Trails.UpdateTrails(old(state.TrailView()), world.mother, world.daughter)
      ensures state.motherOrbitalAngle
           == Orbit.MoonAngle(Orbit.SpinFraction(LoopState().clock.spin), Config.MOTHER.orbitDays)
      ensures state.daughterOrbitalAngle
           == Orbit.MoonAngle(Orbit.SpinFraction(LoopState().clock.spin), Config.DAUGHTER.orbitDays)
      ensures Published(shared, state, m, world)
    {
      var motherPosition, daughterPosition := AdvanceFrame(currentTime, m);
      display := UpdateUIElements(state, shared, m, motherPosition, daughterPosition, world);
      state.UpdateTrails(world);
    }

    /** The clock part of a processed frame: timing, the pending-jump flag,
        the bitmap counter, and the planet and moons. */
    method AdvanceFrame(currentTime: real, m: MathLib)
      returns (motherPosition: Orbit.Point, daughterPosition: Orbit.Point)
      requires Lawful(m) && state.Valid() && Processes(state.ClockState())
      modifies this`previousTimestamp, state`pauseStart, state`needsManualUpdate, state`bitmapUpdateCounter
      modifies state`orbitAngle, state`totalSpin, state`fullSpins
      modifies state`motherOrbitalAngle, state`daughterOrbitalAngle
      ensures state.Valid()
      ensures LoopState() == Tick(old(LoopState()), currentTime)
      ensures state.bitmapUpdateCounter == old(state.bitmapUpdateCounter) + 1
      ensures state.motherOrbitalAngle
           == Orbit.MoonAngle(Orbit.SpinFraction(LoopState().clock.spin), Config.MOTHER.orbitDays)
      ensures state.daughterOrbitalAngle
           == Orbit.MoonAngle(Orbit.SpinFraction(LoopState().clock.spin), Config.DAUGHTER.orbitDays)
      ensures motherPosition == Orbit.EllipsePosition(m, Config.MOTHER, state.motherOrbitalAngle)
      ensures daughterPosition == Orbit.EllipsePosition(m, Config.DAUGHTER, state.daughterOrbitalAngle)
    {
      ghost var before := LoopState();
      ghost var t := FrameTiming(before, currentTime);
      var delta := FrameTimestamps(currentTime);
      if state.needsManualUpdate {
        state.needsManualUpdate := false;
      }
      state.bitmapUpdateCounter := state.bitmapUpdateCounter + 1;
      assert previousTimestamp == t.previousTimestamp && state.pauseStart == t.pauseStart;
      motherPosition, daughterPosition := state.UpdatePlanetAndMoons(m, delta);
      TickOfProcessedFrame(before, currentTime, LoopState());
    }

    /** The timing lines of `animate`: the rebase after a pause, the reset
        of an unset timestamp, and the scaled delta. */
    method FrameTimestamps(currentTime: real) returns (delta: real)
      modifies this`previousTimestamp, state`pauseStart
      ensures var t := FrameTiming(old(LoopState()), currentTime);
        && (!state.isPaused ==> previousTimestamp == t.previousTimestamp && state.pauseStart == t.pauseStart)
        && (state.isPaused ==> previousTimestamp == old(previousTimestamp) && state.pauseStart == old(state.pauseStart))
        && delta == t.delta
    {
      delta := 0.0;
      if !state.isPaused {
        if state.pauseStart > 0.0 {
          var pausedDuration := currentTime - state.pauseStart;
          previousTimestamp := previousTimestamp + pausedDuration;
          state.pauseStart := 0.0;
        }
        if previousTimestamp == 0.0 {
          previousTimestamp := currentTime;
        }
        delta := ((currentTime - previousTimestamp) / 1000.0) * state.animationSpeedMultiplier;
        previousTimestamp := currentTime;
      }
    }
  }

  /** What `updateUIElements` leaves on the bridge: the moons' world
      heights, their directions in degrees, the day count, the calendar day
      and the orbital angles. */
  ghost predicate Published(shared: Bridge.SharedState, state: SimulationState, m: MathLib, world: World)
    reads shared, state`fullSpins, state`totalSpin, state`motherOrbitalAngle, state`daughterOrbitalAngle
    requires Lawful(m)
  {
    && shared.motherY == world.mother.y
    && shared.daughterY == world.daughter.y
    && shared.motherAngle
       == Orbit.BearingDegrees(m, Orbit.EllipsePosition(m, Config.MOTHER, state.motherOrbitalAngle))
    && shared.daughterAngle
       == Orbit.BearingDegrees(m, Orbit.EllipsePosition(m, Config.DAUGHTER, state.daughterOrbitalAngle))
    && shared.fullSpins == state.fullSpins
    && shared.totalSpin == state.totalSpin
    && shared.calendarDay == Calendar.DisplayOf(state.fullSpins).currentDay
    && shared.motherOrbitalAngle == state.motherOrbitalAngle
    && shared.daughterOrbitalAngle == state.daughterOrbitalAngle
  }

  /** `updateUIElements`: computes the calendar display and publishes the
      frame on the bridge. */
  method UpdateUIElements(state: SimulationState, shared: Bridge.SharedState, m: MathLib,
                          motherPosition: Orbit.Point, daughterPosition: Orbit.Point, world: World)
    returns (display: Calendar.Display)
    requires Lawful(m)
    requires motherPosition == Orbit.EllipsePosition(m, Config.MOTHER, state.motherOrbitalAngle)
    requires daughterPosition == Orbit.EllipsePosition(m, Config.DAUGHTER, state.daughterOrbitalAngle)
    modifies shared`motherY, shared`daughterY, shared`motherAngle, shared`daughterAngle,
             shared`fullSpins, shared`totalSpin, shared`calendarDay,
             shared`motherOrbitalAngle, shared`daughterOrbitalAngle
    ensures shared.isPaused == old(shared.isPaused)
    ensures display == Calendar.DisplayOf(state.fullSpins)
    ensures Published(shared, state, m, world)
  {
    var d := Calendar.DisplayOf(state.fullSpins);
    shared.motherY := world.mother.y;
    shared.daughterY := world.daughter.y;
    shared.motherAngle := RadToDeg(m.atan2(motherPosition.y, motherPosition.x));
    shared.daughterAngle := RadToDeg(m.atan2(daughterPosition.y, daughterPosition.x));
    shared.fullSpins := state.fullSpins;
    shared.totalSpin := state.totalSpin;
    shared.calendarDay := d.currentDay;
    shared.motherOrbitalAngle := state.motherOrbitalAngle;
    shared.daughterOrbitalAngle := state.daughterOrbitalAngle;
    display := d;
  }

  datatype Option<T> = None | Some(value: T)
}
