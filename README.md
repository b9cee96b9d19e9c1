# Halferth orbital simulator: a verified model of its bookkeeping

The simulator animates the planet Halferth on its orbit, together with its
two moons, Mother and Daughter. Around the Three.js scene it keeps a small
amount of plain state, and this project models that state and proves what
it promises:

- **The simulation clock of `sim_dev`** (`Simulation`, `Orbit`). Each
  animation frame turns a timestamp into a delta. It is scaled by the
  speed multiplier and excludes the paused interval through a rebase step.
  A day jump forces exactly one recompute. The planet's spin accumulates
  into whole days (`fullSpins`) plus a remainder (`totalSpin`), with a
  carry step. The moons' orbital angles follow the day count.
- **The UI callbacks and the `simulationState` record** (`Simulation`):
  pause, trails toggle, speed and day slider.
- **The calendar** (`Calendar`). It maps the day count to the day of the
  420-day year, one of six 70-day seasons, its Low or High 35-day half,
  and the day of that half.
- **The moon trails** (`Trails`). These are two fixed-size position
  buffers written as ring buffers.
- **The configuration** (`Config`): the year, the pace, and the moons'
  ellipses with their semi-minor axis and focus offset.
- **The shared-state bridge** (`Bridge`). The 3D view publishes each frame
  on it, and the sky overlays read it.
- **The two sky overlays.**
  - `SkySimDev`: each moon is placed on an ellipse by its wrapped and
    corrected orbital angle. Its guide ellipse is built as a path but
    never stroked, so it leaves nothing on the canvas.
  - `SkyBack`: each moon is shown only inside a visibility window derived
    from its eccentricity, and is placed along an arc by its progress
    through the window.
  - Both share `Angles` (`wrapAngle` and the sprite roll) and `SkyCanvas`
    (`drawMoon`, the horizon and the canvas). Each overlay's `draw` is
    modelled as the list of draw commands it leaves on the cleared canvas.
- **The older single-file simulator** (`Legacy`). It has no pause, no day
  jump and no guard on the delta, skips frames until it has a timestamp,
  and shows a zero-based day.

Stateful code is modelled as classes whose methods change their fields in
place:

- `simulationState` and the `animate` closure (`Simulation.SimulationState`,
  `Simulation.Animation`);
- `window.sharedState` (`Bridge.SharedState`);
- the trail `Float32Array`s (`array<real>`);
- the overlay canvas (`SkyCanvas.Canvas`);
- the legacy module-level variables (`Legacy.LegacySimulator`).

Each such method's `ensures` ties the new state to a pure specification
function: `Tick`, `Pause`, `JumpToDay`, `UpdateTrails`, `Toggle`, `Scene`
or `Step`. The lemmas then prove what the simulator promises about those
functions.

Numbers are exact reals. `Math.PI` is the exact value of the double nearest
pi, which lies just below pi. JavaScript's
`%` is the truncating remainder (`JsMath.Rem`, `JsMath.IntRem`), and
`Math.floor` is `real.Floor`. `Math.sqrt`, `sin`, `cos`, `asin` and `atan2`
are foreign code: they are passed in as a `MathLib` record. `Lawful`
states the only facts the proofs may use about them: ranges, signs, and
that `sqrt` squares back to its argument. Timestamps, `performance.now()`
and the moons' world positions are parameters.

The model follows the code, including where it departs from the intended
behaviour:

- `wrapAngle` maps into `[-PI, PI)`: closed at `-PI`, open at `PI`.
- While paused, `animate` skips the simulation block (the labels still
  update), so `previousTimestamp` is not updated during the pause. The first running frame rebases it by
  `currentTime - pauseStart`. That frame's delta is therefore the time
  between the last frame before the pause and the pause click, scaled by
  the speed (`Simulation.PauseExcludesPausedTime`). The time between the
  resume click and the next frame is not counted either. If the pause
  click coincides with the last frame, the delta is 0, not the
  post-resume interval.
- A jump to day `D` sets `fullSpins = D - 1` but
  `orbitAngle = D / 420` of a turn. After a jump the orbit is therefore one
  day ahead of the spin (`Simulation.JumpPutsOrbitOneDayAhead`), whereas
  from start-up the spin is exactly 420 times the orbit.
- A negative delta, which only a negative speed or timestamps that go
  backwards can produce, moves the spin but not the orbit
  (`Simulation.SpinFollowsOrbit`).

## Model

| member | source | states |
|---|---|---|
| JsMath.Floor | sim_dev/animation.js:23 | `Math.floor(x)` is the whole number `k` with `k <= x < k + 1` |
| JsMath.Rem | sim_dev/animation.js:25 | `%` on numbers: the remainder is in `[0, m)` for a non-negative dividend and in `(-m, 0]` for a negative one, and the dividend minus the remainder is a whole multiple of `m` |
| JsMath.RemOfNonNegative | sim_dev/animation.js:22-25 | for a non-negative dividend, `%` leaves `x - floor(x / m) * m`, so the carry's `%=` agrees with its `Math.floor` |
| JsMath.IntRem | sim_dev/animation.js:57 | `%` on whole numbers: in `[0, n)` for a non-negative dividend and in `(-n, 0]` for a negative one |
| JsMath.IntRemIsRem | sim_dev/animation.js:57 | the whole-number `%` used for day numbers is the number `%` on the same values |
| JsMath.IntRemCongruent | sim_dev/animation.js:57 | `a % n` differs from `a` by a whole multiple of `n` |
| Angles.WrapAngle | sim_dev/skyVis.js:17-19 | `wrapAngle(a)` lies in `[-PI, PI)` and differs from `a` by whole turns (back/skyVis.js:17-19 is identical) |
| Angles.WrapAngleUnique | sim_dev/skyVis.js:17-19 | the wrapped angle is the only angle in `[-PI, PI)` that differs from `a` by whole turns |
| Angles.WrapAnglePeriodic | sim_dev/skyVis.js:17-19 | `wrapAngle(a + 2 PI k) == wrapAngle(a)` for every integer `k` |
| Angles.WrapAngleIdentity | sim_dev/skyVis.js:17-19 | `wrapAngle` is the identity on `[-PI, PI)` |
| Angles.WrapAngleIdempotent | sim_dev/skyVis.js:17-19 | wrapping twice is wrapping once |
| Angles.Roll | sim_dev/skyVis.js:74 | the sprite roll `((cos(deg PI / 180) + 1) / 2) PI` lies in `[0, PI]` (same at sim_dev/skyVis.js:81 and back/skyVis.js:93,104) |
| Config.FocusOffset | sim_dev/config.js:16 | for a moon with eccentricity in `[0, 1)`, the focus offset `a e` lies in `[0, a)` |
| Config.SemiMinorAxis | sim_dev/config.js:15 | for such a moon the semi-minor axis `a sqrt(1 - e^2)` lies in `(0, a]` and satisfies `b^2 + c^2 == a^2` with the focus offset `c` |
| Config.ConfigConsistent | sim_dev/config.js:5-29 | 420 days make six 70-day seasons, one per entry of `SEASONS`; the periods 70 and 35 divide the year 6 and 12 times; both orbits are true ellipses; the daughter's semi-major axis is smaller than the mother's |
| Orbit.Carry | sim_dev/animation.js:22-26 | the carry keeps `fullSpins * 2 PI + totalSpin`; once the remainder reaches `2 PI` it leaves it in `[0, 2 PI)` with `fullSpins` strictly larger; below `2 PI` it changes nothing |
| Orbit.Accumulate | sim_dev/animation.js:21-26 | adding a spin step and carrying grows the spin total by exactly the step, never lowers `fullSpins`, and keeps the remainder in `[0, 2 PI)` under a non-negative step |
| Orbit.SpinStepIsYearDaysOfOrbit | sim_dev/animation.js:11-19 | the spin step of a delta is 420 times the orbit step of the same delta |
| Orbit.SpinFraction | sim_dev/animation.js:27 | `spinFraction` times `2 PI` is the spin total; for a normalised accumulator its floor is `fullSpins` |
| Orbit.MoonAngleAtDayZero | sim_dev/animation.js:28-29 | at `spinFraction == 0` every moon's angle is `-PI` |
| Orbit.MoonAngleAfterPeriods | sim_dev/animation.js:29-33 | adding `k` orbital periods of days to `spinFraction` adds exactly `k` turns to a moon's angle |
| Orbit.MoonsRealignAfterYear | sim_dev/animation.js:29-33 | after 420 days both moons are back at the same wrapped angle (6 and 12 whole orbits) |
| Orbit.EllipsePosition | sim_dev/animation.js:30-35 | a moon's position `(b cos, a sin + c)` lies in its ellipse's bounding box, shifted along `y` by the focus offset |
| Orbit.BearingDegrees | sim_dev/animation.js:79-80 | `radToDeg(atan2(y, x))` lies in `[-180, 180]` |
| Calendar.CurrentDay | sim_dev/animation.js:57 | for a non-negative day count the day of the year lies in `[1, 420]`, and it is congruent to `fullSpins + 1` modulo 420 |
| Calendar.SeasonIndex | sim_dev/animation.js:58 | the season index `i` is the one with `70 i <= day - 1 < 70 i + 70`; for a day in `[1, 420]` it indexes `SEASONS` |
| Calendar.MonthDay | sim_dev/animation.js:59 | the day of the half lies in `[1, 35]` and is congruent to the day modulo 35 |
| Calendar.SeasonName | sim_dev/animation.js:61 | the name is the "Unknown" fallback exactly when the index is outside the six seasons, and otherwise one of them |
| Calendar.DayDateRoundTrip | sim_dev/animation.js:57-60 | every day in `[1, 420]` decomposes into a valid season, half and day of half, and `70 seasonIndex + (isLow ? 0 : 35) + monthDay` gives the day back |
| Calendar.DateDayRoundTrip | sim_dev/animation.js:57-60 | every valid date names a day in `[1, 420]` whose decomposition is that date again, so the decomposition is a bijection |
| Calendar.DisplayInRange | sim_dev/animation.js:57-68 | for a non-negative day count the display shows a day in `[1, 420]`, a named season (never "Unknown"), a day of the half in `[1, 35]`, and the parts add up to the day |
| Calendar.DisplayYearPeriodic | sim_dev/animation.js:57-62 | day counts a year apart show the same display |
| Trails.NextIndex | sim_dev/animation.js:94 | the next write slot stays in `[0, MAX_TRAIL_POINTS)`: one more, or 0 after the last slot |
| Trails.SlotInBounds | sim_dev/main.js:31-32 | every slot below `MAX_TRAIL_POINTS` addresses three values inside a buffer of `MAX_TRAIL_POINTS * 3` |
| Trails.WritePoint | sim_dev/animation.js:92 | `positions.set([x, y, z], index * 3)` puts the point in the slot's three values and leaves every other value as it was |
| Trails.UpdateTrails | sim_dev/animation.js:96-99 | with trails off nothing changes; with trails on both indices advance together to the next slot; the buffers keep their size |
| Trails.UpdateTouchesOneSlot | sim_dev/animation.js:89-99 | an update changes only the three values of the slot being written, in each buffer, and leaves the flag alone |
| Trails.Toggle | sim_dev/main.js:54-61 | switching trails off zero-fills both buffers and rewinds both indices; switching on only sets the flag |
| Trails.IndexAfterUpdates | sim_dev/animation.js:94-98 | after `k` updates from slot 0 the write index is `k mod MAX_TRAIL_POINTS`: the ring wraps |
| Trails.UpdateTrailPoint | sim_dev/animation.js:89-95 | the in-place write of a slot of the `Float32Array` leaves the buffer equal to `WritePoint` of the old buffer and returns `NextIndex` |
| Trails.Fill | sim_dev/main.js:57-58 | `fill(0)` leaves every value of the buffer zero |
| Bridge.SharedState.constructor | sim_dev/sharedState.js:9-20 | the bridge starts with two 1024x1024 canvases, every number zero and not paused |
| Simulation.FrameTiming | sim_dev/animation.js:117-129 | paused (a jump pending): no time passes and the timestamps are untouched; running: the last timestamp becomes `now`, a pending pause start is consumed, an unset last timestamp gives a zero delta, and otherwise the delta is the elapsed milliseconds, rebased past a pause, divided by 1000 and multiplied by the speed |
| Simulation.AdvanceOrbit | sim_dev/animation.js:11-14 | the orbit angle changes exactly when the delta is positive, never decreases, and grows by `ORBIT_SPEED * delta` for a non-negative delta |
| Simulation.Tick | sim_dev/animation.js:115-142 | a frame paused with no jump pending changes nothing; a processed frame clears the pending jump, keeps the pause flag and speed, and never lowers the orbit angle or the day count |
| Simulation.Pause | sim_dev/main.js:43-52 | the pause click flips the flag; pausing records the click time, resuming leaves the pause start for the next frame; nothing else changes |
| Simulation.ChangeSpeed | sim_dev/main.js:75-77 | the speed change sets the multiplier and nothing else |
| Simulation.JumpToDay | sim_dev/main.js:78-84 | a day jump to `D` sets the day count to `D - 1` with a zero remainder, puts the orbit angle at `D / 420` of a turn, asks for a recompute, and changes nothing else |
| Simulation.PausedFramesChangeNothing | sim_dev/animation.js:115 | any number of frames while paused with no jump pending leave the clock and the last timestamp unchanged |
| Simulation.JumpWhilePausedRecomputesOnce | sim_dev/animation.js:115-133 | a jump while paused is applied by exactly one frame with a zero delta; that frame clears the flag and the frames after it change nothing |
| Simulation.SpinFollowsOrbit | sim_dev/animation.js:11-21 | a frame grows the spin total by exactly 420 times the growth of the orbit angle if and only if its delta is not negative |
| Simulation.TickKeepsSpinNormalised | sim_dev/animation.js:21-26 | a frame with a non-negative delta keeps the remainder in `[0, 2 PI)` |
| Simulation.RunningDeltaNotNegative | sim_dev/animation.js:118-128 | a running frame with timestamps that do not go backwards and a non-negative speed has a non-negative delta |
| Simulation.PauseExcludesPausedTime | sim_dev/animation.js:118-128 | pause at `pauseAt`, any paused frames, resume: the first running frame's delta is `(pauseAt - previousTimestamp) / 1000 * speed`, whatever the resume and frame times; it consumes the pause start and records the frame's time |
| Simulation.JumpForgetsPriorDay | sim_dev/main.js:78-84 | the result of a jump does not depend on the prior day count, remainder, orbit or pending flag |
| Simulation.JumpIdempotent | sim_dev/main.js:78-84 | jumping to the same day twice is jumping once |
| Simulation.JumpShowsDay | sim_dev/main.js:80 | for a slider day `D` in `[1, 420]`, the calendar after the jump shows day `D` |
| Simulation.JumpPutsOrbitOneDayAhead | sim_dev/main.js:80-82 | at start-up the spin total is 420 times the orbit angle; after a jump it is one turn short of that, so the orbit leads by one day |
| Simulation.PauseTwiceRestoresFlag | sim_dev/main.js:43-44 | two pause clicks restore the flag, and from running they leave the first click's time as the pause start |
| Simulation.SimulationState.constructor | sim_dev/main.js:22-39 | the initial record: clock at zero, not paused, no jump pending, speed 1, trails off with zeroed buffers and both indices 0, counters 0 |
| Simulation.SimulationState.OnPauseClick | sim_dev/main.js:43-52 | the clock becomes `Pause` of the old clock at the click time, the bridge mirrors the flag, and the state stays valid |
| Simulation.SimulationState.OnTrailsToggle | sim_dev/main.js:54-66 | the trail state becomes `Toggle` of the old one; the buffers are zero-filled in place |
| Simulation.SimulationState.OnSpeedChange | sim_dev/main.js:75-77 | the clock becomes `ChangeSpeed` of the old clock for one of the offered speeds, and the state stays valid |
| Simulation.SimulationState.OnDaySliderChange | sim_dev/main.js:78-84 | the clock becomes `JumpToDay` of the old clock, and the state stays valid (the day count stays non-negative) |
| Simulation.SimulationState.UpdatePlanetAndMoons | sim_dev/animation.js:10-43 | the orbit advances by `AdvanceOrbit`, the spin by `Accumulate`, each moon's orbital angle follows the new day count, and each moon's position is its ellipse position; the state stays valid |
| Simulation.SimulationState.AdvancePlanet | sim_dev/animation.js:11-26 | the orbit and spin lines follow `AdvanceOrbit` and `Accumulate`, and the day count stays non-negative |
| Simulation.SimulationState.PlaceMoons | sim_dev/animation.js:27-42 | the moon lines set each orbital angle from `spinFraction` and return each moon's ellipse position |
| Simulation.SimulationState.UpdateTrails | sim_dev/animation.js:88-100 | the trail state becomes `UpdateTrails` of the old one, written in place |
| Simulation.Animation.constructor | sim_dev/animation.js:104-107 | the loop starts with an unset (zero) last timestamp |
| Simulation.Animation.Animate | sim_dev/animation.js:109-142 | every call counts the label throttle and moves labels on even counts; the clock follows `Tick`; an unprocessed frame leaves trails, counters, moon angles and bridge alone; a processed one returns the calendar display, bumps the bitmap counter, extends the trails and publishes the frame; the bridge's pause flag is never written |
| Simulation.Animation.ProcessFrame | sim_dev/animation.js:115-142 | a processed frame follows `Tick`, recomputes the moons, publishes on the bridge without touching its pause flag, updates the trails and returns the display |
| Simulation.Animation.AdvanceFrame | sim_dev/animation.js:117-140 | timing, the pending flag, the bitmap counter and `updatePlanetAndMoons` together follow `Tick` |
| Simulation.Animation.FrameTimestamps | sim_dev/animation.js:117-129 | the timing lines leave the last timestamp, the pause start and the delta as `FrameTiming` says |
| Simulation.UpdateUIElements | sim_dev/animation.js:56-86 | returns the calendar display and publishes the moons' heights, bearings in degrees, the day count, the calendar day and the orbital angles on the bridge, and writes no other bridge field |
| SkyCanvas.MoonCmds | sim_dev/skyVis.js:27-39 | `drawMoon` draws one sprite exactly when the image exists and both its sides are non-zero, centred on the point, clipped to `size / 2 * clipScale` and turned by the roll plus `3 PI / 2` |
| SkyCanvas.HorizonCmds | sim_dev/skyVis.js:85-88 | the horizon is drawn exactly when it is loaded with a non-zero height, across the whole width, keeping its aspect ratio, with its bottom edge on the canvas's bottom edge (same at back/skyVis.js:108-111) |
| SkyCanvas.Canvas.constructor | sim_dev/skyVis.js:10-13 | a new canvas takes its element's client size and is empty |
| SkyCanvas.Canvas.Resize | sim_dev/skyVis.js:10-13 | `resizeCanvas` takes the client size and clears the canvas |
| SkyCanvas.Canvas.Clear | sim_dev/skyVis.js:42 | `clearRect` over the whole canvas leaves it empty |
| SkyCanvas.Canvas.StrokeEllipse | back/skyVis.js:60-68 | the guide ellipse's stroke appends its outline |
| SkyCanvas.Canvas.DrawMoon | sim_dev/skyVis.js:27-39 | `drawMoon` appends exactly `MoonCmds` |
| SkyCanvas.Canvas.DrawHorizon | sim_dev/skyVis.js:85-88 | the horizon lines append exactly `HorizonCmds` |
| SkySimDev.SkyEllipse | sim_dev/skyVis.js:44-49 | the sky ellipse has non-negative radii, stays within the canvas's width and is centred 40 pixels above its bottom |
| SkySimDev.CorrectedAngle | sim_dev/skyVis.js:68-72 | the corrected angle lies in `[-PI + c, PI + c)` for the 12.5 degree correction `c`, and differs from the orbital angle plus `c` by whole turns |
| SkySimDev.CorrectedAnglePeriodic | sim_dev/skyVis.js:71-72 | whole turns of the orbital angle do not change the corrected angle |
| SkySimDev.EllipseCoordinates | sim_dev/skyVis.js:21-25 | the point on the sky ellipse lies in its bounding box |
| SkySimDev.Scene | sim_dev/skyVis.js:41-88 | `draw` leaves exactly one sprite of each ready moon's image, mother first, then the horizon when loaded; every sprite is within the canvas's width and the ellipse's height and turned by between `3 PI / 2` and `5 PI / 2`; the horizon comes last and ends at the bottom edge |
| SkySimDev.ScenePeriodic | sim_dev/skyVis.js:71-82 | orbital angles that differ by whole turns draw the same scene |
| SkySimDev.Draw | sim_dev/skyVis.js:41-91 | `draw` leaves exactly `Scene` of the bridge's current values on the canvas |
| SkySimDev.DrawMoonOnEllipse | sim_dev/skyVis.js:71-75 | one moon's lines append exactly its `MoonScene` |
| SkyBack.VisibilityWindow | back/skyVis.js:21-31 | the rise and set angles add up to `PI`, the duration is `PI` minus twice the rise, and for a non-negative eccentricity the window opens at or below 0 and closes at or past `PI` |
| SkyBack.CircularOrbitWindow | back/skyVis.js:21-31 | eccentricity 0 gives the window `[0, PI]` of duration `PI` |
| SkyBack.UpperTestNeverFails | back/skyVis.js:86-88 | for a non-negative eccentricity a moon is in its window exactly when its wrapped angle has reached the rise angle |
| SkyBack.Progress | back/skyVis.js:89 | inside the window the progress lies in `[0, 1]`: 0 at the rise angle and 1 at the set angle |
| SkyBack.NormalizedAngle | back/skyVis.js:90 | a progress in `[0, 1]` gives a normalized angle in `[0, PI]` |
| SkyBack.SkyArc | back/skyVis.js:61-84 | the arc has non-negative radii, stays within the canvas's width and is centred 10 pixels above its bottom |
| SkyBack.ArcCoordinates | back/skyVis.js:36-41 | the arc point lies within the arc's width; for a normalized angle in `[0, PI]` it is on the upper half, below the centre line by at most `SIN_PI_BOUND` of the vertical radius, and on or above the line from `PI_ABOVE - PI` on |
| SkyBack.MoonScene | back/skyVis.js:86-95 | a moon is drawn exactly when its wrapped angle is in its window and its image is ready, and then on the upper half of the arc (within `SIN_PI_BOUND` of the radius below the centre line, and on or above it once past the rise point) |
| SkyBack.MotherWindow | back/skyVis.js:33 | the mother's window lasts at least `PI` |
| SkyBack.DaughterWindow | back/skyVis.js:34 | the daughter's window lasts at least `PI` |
| SkyBack.Scene | back/skyVis.js:57-111 | `draw` leaves the guide outline first, then exactly one sprite of each moon's image when its wrapped angle is in its window and the image is ready (mother first), none below the arc's centre line by more than `SIN_PI_BOUND` of the vertical radius, and the horizon last with its bottom edge on the canvas's bottom |
| SkyBack.ScenePeriodic | back/skyVis.js:86-99 | orbital angles that differ by whole turns draw the same scene |
| SkyBack.Overlay.constructor | back/skyVis.js:33-34 | the windows are computed once from the configured eccentricities |
| SkyBack.Overlay.Draw | back/skyVis.js:57-114 | `draw` leaves exactly `Scene` of the bridge's current values on the canvas |
| SkyBack.Overlay.DrawMoonOnArc | back/skyVis.js:86-95 | one moon's lines append exactly its `MoonScene` |
| Legacy.Step | html_dump/JS_SIM/halferth-simulator/main.js:254-309 | a frame with an unset last timestamp only records the timestamp; otherwise the timestamp is recorded, the throttle counts one more, the orbit grows by `ORBIT_SPEED * delta` and the spin total by the spin step, with no guard on the delta; the day count never goes back |
| Legacy.StepKeepsCoupling | html_dump/JS_SIM/halferth-simulator/main.js:266-282 | every frame keeps the spin total equal to 420 times the orbit angle, a non-negative day count and throttle, whatever its timestamp |
| Legacy.StepKeepsSpinNormalised | html_dump/JS_SIM/halferth-simulator/main.js:277-282 | with timestamps that do not go backwards the remainder stays in `[0, 2 PI)` |
| Legacy.StartupSkipsTwoFrames | html_dump/JS_SIM/halferth-simulator/main.js:257-260 | the script's own `animate()` call and the first scheduled frame only record a timestamp; the next frame advances |
| Legacy.LegacyDay | html_dump/JS_SIM/halferth-simulator/main.js:285 | the shown day `fullSpins % 420` lies in `[0, 419]` for a non-negative day count |
| Legacy.LegacyDayIsZeroBased | html_dump/JS_SIM/halferth-simulator/main.js:285 | the shown day is one less than the day sim_dev shows for the same count |
| Legacy.FrameShowsDay | html_dump/JS_SIM/halferth-simulator/main.js:285-309 | an advanced frame shows a day in `[0, 419]` and moves the labels exactly when the throttle was odd before the frame |
| Legacy.FrameShowsMoonLaps | html_dump/JS_SIM/halferth-simulator/main.js:289-294 | with the spin coupled to the orbit, the mother's angle is `6 orbitAngle - PI` and the daughter's `12 orbitAngle - PI`: six and twelve laps a year, starting at `-PI` |
| Legacy.LegacySimulator.constructor | html_dump/JS_SIM/halferth-simulator/main.js:38-41 | the clock variables (with `labelUpdateThrottle` and `previousTimestamp`, declared at lines 200 and 202) start at zero |
| Legacy.LegacySimulator.Animate | html_dump/JS_SIM/halferth-simulator/main.js:254-320 | the variables follow `Step`, the frame is `FrameOf` the old state, and the moon meshes are placed on their ellipses |
| Legacy.LegacySimulator.AdvanceSpin | html_dump/JS_SIM/halferth-simulator/main.js:266-282 | the orbit grows by `ORBIT_SPEED * delta` unconditionally and the spin follows `Accumulate` |
| Legacy.LegacySimulator.ShowFrame | html_dump/JS_SIM/halferth-simulator/main.js:285-309 | the day, moon angle and throttle lines produce `Show` of the new state and count one more frame |

## Left out

- Rendering is not modelled: Three.js scene construction, the render-target passes and layer toggling, `renderer.render`, `controls.update`, and the GPU readback into the off-screen moon canvases. These are foreign library calls. The bitmap counter is modelled; the readback it gates is not.
- The planet's position on its orbit circle, the spinning group's rotation and the moons' facing (`rotation.z = atan2(y, x) + Math.PI`, sim_dev/animation.js:39-40) are not modelled. They are trigonometric scene writes with no state of their own.
- The values of `sqrt`, `sin`, `cos`, `asin` and `atan2` are left out. Only the range facts in `Lawful` are used, so pixel coordinates and world positions are bounded, not computed. `getWorldPosition` is a parameter (`World`).
- Floating-point rounding is left out. All arithmetic is exact; `Math.PI` is the exact value of its double.
- NaN, `undefined` and Infinity are left out. The legacy script's initial `animate()` call, with no timestamp, is modelled as timestamp 0, which is equally falsy. The bridge's orbital-angle fields, which sharedState.js does not declare, start at 0.
- The scheduling between the two `requestAnimationFrame` loops is not modelled. The bridge is a record that the 3D loop writes and the overlay reads; the interleaving of the two loops is not captured.
- DOM work is left out: the `innerHTML` texts (the values they show are modelled as `Calendar.Display`), the label projection through `camera.project` (only when it happens is modelled), the pause button's text, `onLinesToggle`, `onLabelsToggle` and the camera resize handlers.
- `parseInt` on the slider value is assumed to yield an integer in the slider's range.
- The legacy script's unused `previousTime` variable and its module-level `motherAngle`/`daughterAngle`, which the frame's own constants shadow, are not modelled.
- SkyBack.VisibilityWindow: requires an eccentricity in `[-1, 1]`. Outside it `Math.asin` yields NaN, which the model does not represent.
- SkyBack.Progress: requires a positive window duration. The source divides without a guard, but the configured eccentricities give a duration of at least `PI`.
- SkyBack.ArcCoordinates: the sprite is not promised to sit on or above the centre line for the whole window. `Math.PI` is just below pi, so at the rise point (`normalizedAngle = 0`) `Math.sin(Math.PI)` is about 1.2e-16 and the point is that fraction of the vertical radius below the line. The contract bounds that slack by `SIN_PI_BOUND` and is exact from `PI_ABOVE - PI` on.
- SkyBack.MoonScene: the same rise-point slack as `ArcCoordinates`. The sprite is on or above the centre line only once its normalized angle is at least `PI_ABOVE - PI`.
- SkyBack.Scene: moon sprites may lie below the centre line by the same rise-point slack, so the bound is `height - 10 + 0.85 * height * SIN_PI_BOUND`, not `height - 10`.
- Orbit.BearingDegrees: the range is closed at -180 because `atan2(-0, -1)` is `-Math.PI`; the model does not distinguish -0 from 0.
- SkyCanvas.HorizonCmds: requires that a picture with a height also has a width. A browser reports both sizes or neither.
- Simulation.SimulationState.OnSpeedChange: requires one of the speeds the UI offers, 0.25, 1 or 4.
- Simulation.SimulationState.OnDaySliderChange: requires a day in the slider's range `[1, 420]`.
