/** The earlier sky overlay (back/skyVis.js): a moon is shown only while
    its wrapped orbital angle lies in a visibility window derived from its
    eccentricity, and is then placed along the upper half of an arc by how
    far through the window it is. */
module SkyBack {
  import opened JsMath
  import opened Angles
  import Bridge
  import Config
  import Orbit
  import opened SkyCanvas

  /** `calculateVisibilityAngles`' result. */
  datatype Window = Window(riseAngle: real, setAngle: real, visibleDuration: real)

  /** `calculateVisibilityAngles`: the window opens at `asin(-e)` and
      closes at its mirror image `PI - asin(-e)`. The two add up to `PI`,
      the duration is `PI` less twice the rise, and for a non-negative
      eccentricity the window opens at or below zero and closes at or past
      `PI`, so it lasts at least half a turn. */
  function VisibilityWindow(m: MathLib, eccentricity: real): (w: Window)
    requires Lawful(m) && -1.0 <= eccentricity <= 1.0
    ensures w.riseAngle + w.setAngle == PI
    ensures w.visibleDuration == PI - 2.0 * w.riseAngle
    ensures -PI / 2.0 <= w.riseAngle <= PI / 2.0 && 0.0 <= w.visibleDuration <= TWO_PI
    ensures 0.0 <= eccentricity ==> w.riseAngle <= 0.0 && PI <= w.setAngle && PI <= w.visibleDuration
  {
    var criticalAngle := m.asin(-eccentricity);
    var riseAngle := criticalAngle;
    var setAngle := PI - criticalAngle;
    Window(riseAngle, setAngle, setAngle - riseAngle)
  }

  /** A circular orbit is visible for exactly the half turn `[0, PI]`. */
  lemma CircularOrbitWindow(m: MathLib)
    requires Lawful(m)
    ensures VisibilityWindow(m, 0.0) == Window(0.0, PI, PI)
  {
    assert -0.0 == 0.0;
  }

  /** The visibility test of `draw`. */
  predicate InWindow(w: Window, angle: real) {
    w.riseAngle <= angle && angle <= w.setAngle
  }

  /** For a non-negative eccentricity the upper test never fails on a
      wrapped angle (which is below `PI`), so a moon is visible exactly when
      its wrapped angle has reached the rise angle. */
  lemma UpperTestNeverFails(m: MathLib, eccentricity: real, orbitalAngle: real)
    requires Lawful(m) && 0.0 <= eccentricity <= 1.0
    ensures InWindow(VisibilityWindow(m, eccentricity), WrapAngle(orbitalAngle))
        <==> VisibilityWindow(m, eccentricity).riseAngle <= WrapAngle(orbitalAngle)
  {
  }

  /** `progress`: how far through its window a moon is, from 0 at the rise
      angle to 1 at the set angle. */
  function Progress(w: Window, angle: real): (p: real)
    requires 0.0 < w.visibleDuration && w.visibleDuration == w.setAngle - w.riseAngle
    ensures InWindow(w, angle) ==> 0.0 <= p <= 1.0
    ensures angle == w.riseAngle ==> p == 0.0
    ensures angle == w.setAngle ==> p == 1.0
  {
    var d := angle - w.riseAngle;
    assert InWindow(w, angle) ==> d <= w.visibleDuration;
    d / w.visibleDuration
  }

  /** `normalizedAngle`: progress as a half turn. */
  function NormalizedAngle(progress: real): (a: real)
    ensures 0.0 <= progress <= 1.0 ==> 0.0 <= a <= PI
  {
    progress * PI
  }

  /** `arcParams`. */
  datatype ArcParams = ArcParams(centerX: real, centerY: real, radiusX: real, radiusY: real)

  /** The arc `draw` lays out for a canvas: centred across the canvas, 10
      pixels above its bottom edge, 95% of the half width wide and 85% of
      the height tall. It stays within the canvas's width. */
  function SkyArc(width: nat, height: nat): (a: ArcParams)
    ensures 0.0 <= a.radiusX && 0.0 <= a.radiusY
    ensures 0.0 <= a.centerX - a.radiusX && a.centerX + a.radiusX <= width as real
    ensures a.centerY == height as real - 10.0
  {
    var horizontalRadius := (width as real / 2.0) * 0.95;
    var verticalRadius := height as real * 0.85;
    ArcParams(width as real / 2.0, height as real - 10.0, horizontalRadius, verticalRadius)
  }

  /** `getCoordinatesOnArc`: the arc point half a turn on from the
      normalized angle. Across the window (`[0, PI]`) that is the upper
      half of the arc: the point stays within the arc's width, and is never
      below the centre line (canvas `y` grows downwards) by more than
      `SIN_PI_BOUND` of the vertical radius. Only near the rise point can it
      be below the line at all: `Math.PI` is just under pi, so
      `Math.sin(0 + Math.PI)` is a tiny positive number; from
      `PI_ABOVE - PI` on the point is on or above the line. */
  function ArcCoordinates(m: MathLib, normalizedAngle: real, a: ArcParams): (p: Orbit.Point)
    requires Lawful(m) && 0.0 <= a.radiusX && 0.0 <= a.radiusY
    ensures a.centerX - a.radiusX <= p.x <= a.centerX + a.radiusX
    ensures 0.0 <= normalizedAngle <= PI ==>
      a.centerY - a.radiusY <= p.y <= a.centerY + a.radiusY * SIN_PI_BOUND
    ensures PI_ABOVE - PI <= normalizedAngle <= PI ==> p.y <= a.centerY
  {
    var canvasAngle := normalizedAngle + PI;
    ArcAt(a, m.cos(canvasAngle), m.sin(canvasAngle))
  }

  /** The point `(cx + rx cos, cy + ry sin)` from given cosine and sine. */
  function ArcAt(a: ArcParams, cos: real, sin: real): (p: Orbit.Point)
    requires 0.0 <= a.radiusX && 0.0 <= a.radiusY
    requires -1.0 <= cos <= 1.0 && -1.0 <= sin <= 1.0
    ensures a.centerX - a.radiusX <= p.x <= a.centerX + a.radiusX
    ensures a.centerY - a.radiusY <= p.y <= a.centerY + a.radiusY
    ensures sin <= 0.0 ==> p.y <= a.centerY
    ensures sin <= SIN_PI_BOUND ==> p.y <= a.centerY + a.radiusY * SIN_PI_BOUND
  {
    Orbit.Point(a.centerX + Lift(a.radiusX, cos), a.centerY + Lift(a.radiusY, sin))
  }

  /** A radius times a cosine or sine stays within the radius, and a
      factor below a bound gives a product below the radius times the
      bound. */
  function Lift(r: real, u: real): (d: real)
    requires 0.0 <= r && -1.0 <= u <= 1.0
    ensures -r <= d <= r
    ensures u <= 0.0 ==> d <= 0.0
    ensures u <= SIN_PI_BOUND ==> d <= r * SIN_PI_BOUND
  {
    Orbit.ScaledUnit(r, u);
    assert r * (0.0 - u) >= 0.0 <== u <= 0.0;
    assert u <= SIN_PI_BOUND ==> r * u <= r * SIN_PI_BOUND by {
      var slack := SIN_PI_BOUND - u;
      assert r * slack == r * SIN_PI_BOUND - r * u;
      if u <= SIN_PI_BOUND {
        assert 0.0 <= r * slack;
      }
    }
    r * u
  }

  /** One moon's part of `draw`: nothing outside its window or while its
      image is not ready; otherwise its sprite on the upper half of the
      arc, placed by its progress through the window and rolled by its
      direction. The sprite is on or above the centre line once its
      progress is past the rise point by `PI_ABOVE - PI` of a half turn; at
      the rise point itself it may be below the line by at most
      `SIN_PI_BOUND` of the vertical radius. */
  function MoonScene(m: MathLib, a: ArcParams, w: Window, img: Bridge.Image, orbitalAngle: real,
                     degrees: real, size: real, clipScale: real): (r: seq<DrawCmd>)
    requires Lawful(m) && 0.0 <= a.radiusX && 0.0 <= a.radiusY
    requires 0.0 < w.visibleDuration && w.visibleDuration == w.setAngle - w.riseAngle
    ensures |r| <= 1
    ensures |r| == 1 <==> InWindow(w, WrapAngle(orbitalAngle)) && Bridge.Ready(img)
    ensures |r| == 1 ==>
      && r[0].MoonSprite? && r[0].image == img
      && a.centerY - a.radiusY <= r[0].y <= a.centerY + a.radiusY * SIN_PI_BOUND
    ensures |r| == 1 && PI_ABOVE - PI <= NormalizedAngle(Progress(w, WrapAngle(orbitalAngle))) ==>
      r[0].y <= a.centerY
  {
    var wrapped := WrapAngle(orbitalAngle);
    if InWindow(w, wrapped) then
      var p := ArcCoordinates(m, NormalizedAngle(Progress(w, wrapped)), a);
      MoonCmds(img, p.x, p.y, size, clipScale, Roll(m, degrees))
    else
      []
  }

  /** The windows of both moons, from their configured eccentricities. */
  function MotherWindow(m: MathLib): (w: Window)
    requires Lawful(m)
    ensures PI <= w.visibleDuration && w.visibleDuration == w.setAngle - w.riseAngle
  {
    Config.ConfigConsistent();
    VisibilityWindow(m, Config.MOTHER.eccentricity)
  }

  function DaughterWindow(m: MathLib): (w: Window)
    requires Lawful(m)
    ensures PI <= w.visibleDuration && w.visibleDuration == w.setAngle - w.riseAngle
  {
    Config.ConfigConsistent();
    VisibilityWindow(m, Config.DAUGHTER.eccentricity)
  }

  /** A moon is drawn when its wrapped orbital angle is in its window and
      its image is ready. */
  predicate Shown(w: Window, img: Bridge.Image, orbitalAngle: real) {
    InWindow(w, WrapAngle(orbitalAngle)) && Bridge.Ready(img)
  }

  /** What one call of `draw` leaves on the cleared canvas: the guide
      arc's outline, the mother and the daughter each when shown (one
      sprite of that moon's image), then the horizon when it is loaded. Every sprite is on the
      upper half of the arc (below the centre line by at most
      `SIN_PI_BOUND` of the vertical radius, at a rise point), and the
      horizon, when drawn, comes last and ends at the canvas's bottom
      edge. */
  function Scene(m: MathLib, width: nat, height: nat, s: Bridge.Snapshot, horizon: HorizonImage)
    : (r: seq<DrawCmd>)
    requires Lawful(m) && Consistent(horizon)
    ensures var mother := if Shown(MotherWindow(m), s.motherCanvas, s.motherOrbitalAngle) then 1 else 0;
      var daughter := if Shown(DaughterWindow(m), s.daughterCanvas, s.daughterOrbitalAngle) then 1 else 0;
      && |r| == 1 + mother + daughter + (if horizon.complete && horizon.naturalHeight != 0 then 1 else 0)
      && (forall i :: 1 <= i < 1 + mother + daughter ==> r[i].MoonSprite?)
      && (mother == 1 ==> r[1].image == s.motherCanvas)
      && (daughter == 1 ==> r[1 + mother].image == s.daughterCanvas)
    ensures r[0] == Outline(width as real / 2.0, height as real - 10.0,
                            (width as real / 2.0) * 0.95, height as real * 0.85)
    ensures forall i :: 1 <= i < |r| && r[i].MoonSprite? ==>
      r[i].y <= height as real - 10.0 + (height as real * 0.85) * SIN_PI_BOUND
    ensures horizon.complete && horizon.naturalHeight != 0 ==>
      && r[|r| - 1].HorizonStrip?
      && r[|r| - 1].top + r[|r| - 1].stripHeight == height as real
  {
    var a := SkyArc(width, height);
    var mother := MoonScene(m, a, MotherWindow(m), s.motherCanvas, s.motherOrbitalAngle, s.motherAngle, 60.0, 1.0);
    var daughter := MoonScene(m, a, DaughterWindow(m), s.daughterCanvas, s.daughterOrbitalAngle,
                              s.daughterAngle, 45.0, 0.6);
    [Outline(a.centerX, a.centerY, a.radiusX, a.radiusY)] + mother + daughter + HorizonCmds(horizon, width, height)
  }

  /** The sky drawn for a moon depends on its orbital angle only modulo
      whole turns. */
  lemma ScenePeriodic(m: MathLib, width: nat, height: nat, s: Bridge.Snapshot, horizon: HorizonImage,
                      j: int, k: int)
    requires Lawful(m) && Consistent(horizon)
    ensures Scene(m, width, height, s.(motherOrbitalAngle := s.motherOrbitalAngle + Turns(j),
                                      daughterOrbitalAngle := s.daughterOrbitalAngle + Turns(k)), horizon)
         == Scene(m, width, height, s, horizon)
  {
    WrapAnglePeriodic(s.motherOrbitalAngle, j);
    WrapAnglePeriodic(s.daughterOrbitalAngle, k);
  }

  /** The overlay as the page sets it up: its canvas and the two windows,
      computed once when the page loads. */
  class Overlay {
    const canvas: Canvas
    const motherVisAngles: Window
    const daughterVisAngles: Window

    constructor (canvas: Canvas, m: MathLib)
      requires Lawful(m)
      ensures this.canvas == canvas
      ensures motherVisAngles == MotherWindow(m) && daughterVisAngles == DaughterWindow(m)
    {
      this.canvas := canvas;
      Config.ConfigConsistent();
      motherVisAngles := VisibilityWindow(m, Config.MOTHER.eccentricity);
      daughterVisAngles := VisibilityWindow(m, Config.DAUGHTER.eccentricity);
    }

    /** `draw`: clears the canvas, strokes the guide arc, draws each moon
        that is in its window, and the horizon. */
    method Draw(m: MathLib, shared: Bridge.SharedState, horizon: HorizonImage)
      requires Lawful(m) && Consistent(horizon)
      requires motherVisAngles == MotherWindow(m) && daughterVisAngles == DaughterWindow(m)
      modifies canvas`drawn
      ensures canvas.drawn == Scene(m, canvas.width, canvas.height, shared.Read(), horizon)
    {
      canvas.Clear();
      var horizontalRadius := (canvas.width as real / 2.0) * 0.95;
      var verticalRadius := canvas.height as real * 0.85;
      var yCenter := canvas.height as real - 10.0;
      canvas.StrokeEllipse(canvas.width as real / 2.0, yCenter, horizontalRadius, verticalRadius);
      var s := shared.Read();
      var arcParams := ArcParams(canvas.width as real / 2.0, yCenter, horizontalRadius, verticalRadius);
      assert arcParams == SkyArc(canvas.width, canvas.height);
      ghost var outline := canvas.drawn;
      DrawMoonOnArc(m, arcParams, motherVisAngles, s.motherCanvas, s.motherOrbitalAngle, s.motherAngle, 60.0, 1.0);
      ghost var mother := MoonScene(m, arcParams, motherVisAngles, s.motherCanvas, s.motherOrbitalAngle,
                                    s.motherAngle, 60.0, 1.0);
      DrawMoonOnArc(m, arcParams, daughterVisAngles, s.daughterCanvas, s.daughterOrbitalAngle,
                    s.daughterAngle, 45.0, 0.6);
      ghost var daughter := MoonScene(m, arcParams, daughterVisAngles, s.daughterCanvas, s.daughterOrbitalAngle,
                                      s.daughterAngle, 45.0, 0.6);
      canvas.DrawHorizon(horizon);
      assert canvas.drawn == outline + mother + daughter + HorizonCmds(horizon, canvas.width, canvas.height);
    }

    /** The per-moon lines of `draw`: wrap, test the window, place by
        progress, roll, draw. */
    method DrawMoonOnArc(m: MathLib, arcParams: ArcParams, vis: Window, img: Bridge.Image,
                         orbitalAngle: real, degrees: real, size: real, clipScale: real)
      requires Lawful(m) && 0.0 <= arcParams.radiusX && 0.0 <= arcParams.radiusY
      requires 0.0 < vis.visibleDuration && vis.visibleDuration == vis.setAngle - vis.riseAngle
      modifies canvas`drawn
      ensures canvas.drawn
           == old(canvas.drawn) + MoonScene(m, arcParams, vis, img, orbitalAngle, degrees, size, clipScale)
    {
      var wrappedAngle := WrapAngle(orbitalAngle);
      if wrappedAngle >= vis.riseAngle && wrappedAngle <= vis.setAngle {
        var progress := (wrappedAngle - vis.riseAngle) / vis.visibleDuration;
        var normalizedAngle := progress * PI;
        var coords := ArcCoordinates(m, normalizedAngle, arcParams);
        var roll := ((m.cos(degrees * PI / 180.0) + 1.0) / 2.0) * PI;
        canvas.DrawMoon(img, coords.x, coords.y, size, clipScale, roll);
      } else {
        assert canvas.drawn + MoonScene(m, arcParams, vis, img, orbitalAngle, degrees, size, clipScale)
            == canvas.drawn;
      }
    }
  }
}
