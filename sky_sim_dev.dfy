/** The sky overlay of sim_dev (sim_dev/skyVis.js): each frame it places
    both moons on a fixed ellipse by their wrapped orbital angle plus a
    12.5 degree correction, turns each sprite by a roll taken from the
    moon's direction, and lays the horizon picture over them. */
module SkySimDev {
  import opened JsMath
  import opened Angles
  import Bridge
  import Orbit
  import opened SkyCanvas

  /** `correctionValue`: 12.5 degrees, in radians. */
  const CORRECTION: real := 12.5 * (PI / 180.0)

  const MOTHER_SIZE: real := 60.0
  const MOTHER_CLIP: real := 1.0
  const DAUGHTER_SIZE: real := 45.0
  const DAUGHTER_CLIP: real := 0.6

  /** `ellipseParams`. */
  datatype EllipseParams = EllipseParams(centerX: real, centerY: real, radiusX: real, radiusY: real)

  /** The ellipse `draw` lays out for a canvas: centred across the canvas,
      40 pixels above its bottom edge, 95% of the half width wide and three
      quarters of the height tall. It stays within the canvas's width. */
  function SkyEllipse(width: nat, height: nat): (e: EllipseParams)
    ensures 0.0 <= e.radiusX && 0.0 <= e.radiusY
    ensures 0.0 <= e.centerX - e.radiusX && e.centerX + e.radiusX <= width as real
    ensures e.centerY == height as real - 40.0
  {
    EllipseParams(width as real / 2.0, height as real - 40.0,
                  (width as real / 2.0) * 0.95, height as real * 0.75)
  }

  /** The corrected angle: the wrapped orbital angle plus the correction,
      so it lies in `[-PI + CORRECTION, PI + CORRECTION)` and differs from
      the orbital angle plus the correction by whole turns. */
  function CorrectedAngle(orbitalAngle: real): (c: real)
    ensures -PI + CORRECTION <= c < PI + CORRECTION
    ensures exists k: int :: c == orbitalAngle + CORRECTION - Turns(k)
  {
    WrapAngle(orbitalAngle) + CORRECTION
  }

  /** Whole turns of a moon's orbital angle do not move it in the sky. */
  lemma CorrectedAnglePeriodic(orbitalAngle: real, k: int)
    ensures CorrectedAngle(orbitalAngle + Turns(k)) == CorrectedAngle(orbitalAngle)
  {
    WrapAnglePeriodic(orbitalAngle, k);
  }

  /** `getCoordinatesOnEllipse`: a point of the ellipse, inside its
      bounding box. */
  function EllipseCoordinates(m: MathLib, angle: real, e: EllipseParams): (p: Orbit.Point)
    requires Lawful(m) && 0.0 <= e.radiusX && 0.0 <= e.radiusY
    ensures e.centerX - e.radiusX <= p.x <= e.centerX + e.radiusX
    ensures e.centerY - e.radiusY <= p.y <= e.centerY + e.radiusY
  {
    EllipseAt(e, m.cos(angle), m.sin(angle))
  }

  /** The point `(cx - rx cos, cy - ry sin)` from given cosine and sine. */
  function EllipseAt(e: EllipseParams, cos: real, sin: real): (p: Orbit.Point)
    requires 0.0 <= e.radiusX && 0.0 <= e.radiusY
    requires -1.0 <= cos <= 1.0 && -1.0 <= sin <= 1.0
    ensures e.centerX - e.radiusX <= p.x <= e.centerX + e.radiusX
    ensures e.centerY - e.radiusY <= p.y <= e.centerY + e.radiusY
  {
    Orbit.Point(e.centerX - Offset(e.radiusX, cos), e.centerY - Offset(e.radiusY, sin))
  }

  /** A radius times a cosine or sine stays within the radius. */
  function Offset(r: real, u: real): (d: real)
    requires 0.0 <= r && -1.0 <= u <= 1.0
    ensures -r <= d <= r
  {
    Orbit.ScaledUnit(r, u);
    r * u
  }

  /** One moon's part of `draw`: its sprite at the corrected angle on the
      sky ellipse, rolled by its direction, when its image is ready. */
  function MoonScene(m: MathLib, e: EllipseParams, img: Bridge.Image, orbitalAngle: real,
                     degrees: real, size: real, clipScale: real): seq<DrawCmd>
    requires Lawful(m) && 0.0 <= e.radiusX && 0.0 <= e.radiusY
  {
    var p := EllipseCoordinates(m, CorrectedAngle(orbitalAngle), e);
    MoonCmds(img, p.x, p.y, size, clipScale, Roll(m, degrees))
  }

  /** What one call of `draw` leaves on the cleared canvas: the mother,
      then the daughter, each when its image is ready (one sprite of that
      moon's image), then the horizon when it is loaded. Every sprite lies within the canvas's width and
      the ellipse's height, and is turned by between three quarters of a
      turn and one and a quarter turns; the horizon, when drawn, comes
      last, on top of the moons, and ends at the canvas's bottom edge. */
  function Scene(m: MathLib, width: nat, height: nat, s: Bridge.Snapshot, horizon: HorizonImage)
    : (r: seq<DrawCmd>)
    requires Lawful(m) && Consistent(horizon)
    ensures |r| == (if Bridge.Ready(s.motherCanvas) then 1 else 0)
                 + (if Bridge.Ready(s.daughterCanvas) then 1 else 0)
                 + (if horizon.complete && horizon.naturalHeight != 0 then 1 else 0)
    ensures forall i :: 0 <= i < |r| && r[i].MoonSprite? ==>
      && 0.0 <= r[i].x <= width as real
      && height as real - 40.0 - height as real * 0.75 <= r[i].y <= height as real - 40.0 + height as real * 0.75
      && 3.0 * PI / 2.0 <= r[i].rotation <= 5.0 * PI / 2.0
    ensures horizon.complete && horizon.naturalHeight != 0 ==>
      && r[|r| - 1].HorizonStrip?
      && r[|r| - 1].top + r[|r| - 1].stripHeight == height as real
    ensures forall i :: 0 <= i < |r| - (if horizon.complete && horizon.naturalHeight != 0 then 1 else 0) ==>
      r[i].MoonSprite?
    ensures Bridge.Ready(s.motherCanvas) ==> r[0].MoonSprite? && r[0].image == s.motherCanvas
    ensures var d := if Bridge.Ready(s.motherCanvas) then 1 else 0;
      Bridge.Ready(s.daughterCanvas) ==> r[d].MoonSprite? && r[d].image == s.daughterCanvas
  {
    var e := SkyEllipse(width, height);
    var mother := MoonScene(m, e, s.motherCanvas, s.motherOrbitalAngle, s.motherAngle, MOTHER_SIZE, MOTHER_CLIP);
    var daughter := MoonScene(m, e, s.daughterCanvas, s.daughterOrbitalAngle, s.daughterAngle,
                              DAUGHTER_SIZE, DAUGHTER_CLIP);
    mother + daughter + HorizonCmds(horizon, width, height)
  }

  /** The sky drawn for a moon depends on its orbital angle only modulo
      whole turns: a snapshot whose orbital angles differ by whole turns
      draws the same scene. */
  lemma ScenePeriodic(m: MathLib, width: nat, height: nat, s: Bridge.Snapshot, horizon: HorizonImage,
                      j: int, k: int)
    requires Lawful(m) && Consistent(horizon)
    ensures Scene(m, width, height, s.(motherOrbitalAngle := s.motherOrbitalAngle + Turns(j),
                                      daughterOrbitalAngle := s.daughterOrbitalAngle + Turns(k)), horizon)
         == Scene(m, width, height, s, horizon)
  {
    CorrectedAnglePeriodic(s.motherOrbitalAngle, j);
    CorrectedAnglePeriodic(s.daughterOrbitalAngle, k);
  }

  /** `draw`: clears the canvas, reads the bridge, draws both moons and the
      horizon. */
  method Draw(canvas: Canvas, m: MathLib, shared: Bridge.SharedState, horizon: HorizonImage)
    requires Lawful(m) && Consistent(horizon)
    modifies canvas`drawn
    ensures canvas.drawn == Scene(m, canvas.width, canvas.height, shared.Read(), horizon)
  {
    canvas.Clear();
    var ellipse := EllipseParams(canvas.width as real / 2.0, canvas.height as real - 40.0,
                                 (canvas.width as real / 2.0) * 0.95, canvas.height as real * 0.75);
    assert ellipse == SkyEllipse(canvas.width, canvas.height);
    var s := shared.Read();
    ghost var mother := MoonScene(m, ellipse, s.motherCanvas, s.motherOrbitalAngle, s.motherAngle,
                                  MOTHER_SIZE, MOTHER_CLIP);
    ghost var daughter := MoonScene(m, ellipse, s.daughterCanvas, s.daughterOrbitalAngle, s.daughterAngle,
                                    DAUGHTER_SIZE, DAUGHTER_CLIP);
    DrawMoonOnEllipse(canvas, m, ellipse, s.motherCanvas, s.motherOrbitalAngle, s.motherAngle, 60.0, 1.0);
    assert canvas.drawn == mother;
    DrawMoonOnEllipse(canvas, m, ellipse, s.daughterCanvas, s.daughterOrbitalAngle, s.daughterAngle, 45.0, 0.6);
    assert canvas.drawn == mother + daughter;
    canvas.DrawHorizon(horizon);
    assert canvas.drawn == mother + daughter + HorizonCmds(horizon, canvas.width, canvas.height);
  }

  /** The per-moon lines of `draw`: wrap, correct, place, roll, draw. */
  method DrawMoonOnEllipse(canvas: Canvas, m: MathLib, ellipse: EllipseParams, img: Bridge.Image,
                           orbitalAngle: real, degrees: real, size: real, clipScale: real)
    requires Lawful(m) && 0.0 <= ellipse.radiusX && 0.0 <= ellipse.radiusY
    modifies canvas`drawn
    ensures canvas.drawn
         == old(canvas.drawn) + MoonScene(m, ellipse, img, orbitalAngle, degrees, size, clipScale)
  {
    var correctionValue := 12.5 * (PI / 180.0);
    var wrappedAngle := WrapAngle(orbitalAngle);
    var correctedAngle := wrappedAngle + correctionValue;
    var coords := EllipseCoordinates(m, correctedAngle, ellipse);
    var roll := ((m.cos(degrees * PI / 180.0) + 1.0) / 2.0) * PI;
    canvas.DrawMoon(img, coords.x, coords.y, size, clipScale, roll);
  }
}
