/** The shared-state bridge (`window.sharedState`, created in
    sim_dev/sharedState.js): one record that the 3D view writes once per
    processed frame and the sky overlay reads once per its own frame. */
module Bridge {

  /** An image source as `drawMoon` sees it: missing, or present with a
      size (a canvas, or a picture that may not be decoded yet). */
  datatype Image = NoImage | Image(width: int, height: int)

  /** `drawMoon`'s readiness guard `!img || !img.width || !img.height`,
      negated: there is an image and neither side is zero. */
  predicate Ready(img: Image) {
    img.Image? && img.width != 0 && img.height != 0
  }

  /** What the sky overlay reads from the bridge in one of its frames. */
  datatype Snapshot = Snapshot(
    motherCanvas: Image,
    daughterCanvas: Image,
    motherAngle: real,           // degrees, from atan2 of the moon's position
    daughterAngle: real,
    motherOrbitalAngle: real,    // radians, unwrapped
    daughterOrbitalAngle: real)

  /** Side length of the off-screen canvases the moons are rendered into. */
  const MOON_CANVAS_SIZE: int := 1024

  class SharedState {
    const motherCanvas: Image
    const daughterCanvas: Image
    var motherAngle: real
    var daughterAngle: real
    var motherY: real
    var daughterY: real
    var fullSpins: int
    var totalSpin: real
    var calendarDay: int
    var isPaused: bool
    var motherOrbitalAngle: real
    var daughterOrbitalAngle: real

    /** The record as sharedState.js creates it: two 1024x1024 canvases and
        every number zero, not paused. */
    constructor ()
      ensures motherCanvas == Image(MOON_CANVAS_SIZE, MOON_CANVAS_SIZE)
      ensures daughterCanvas == Image(MOON_CANVAS_SIZE, MOON_CANVAS_SIZE)
      ensures motherAngle == 0.0 && daughterAngle == 0.0
      ensures motherY == 0.0 && daughterY == 0.0
      ensures fullSpins == 0 && totalSpin == 0.0 && calendarDay == 0
      ensures !isPaused
      ensures motherOrbitalAngle == 0.0 && daughterOrbitalAngle == 0.0
    {
      motherCanvas := Image(MOON_CANVAS_SIZE, MOON_CANVAS_SIZE);
      daughterCanvas := Image(MOON_CANVAS_SIZE, MOON_CANVAS_SIZE);
      motherAngle, daughterAngle := 0.0, 0.0;
      motherY, daughterY := 0.0, 0.0;
      fullSpins, totalSpin, calendarDay := 0, 0.0, 0;
      isPaused := false;
      motherOrbitalAngle, daughterOrbitalAngle := 0.0, 0.0;
    }

    /** The fields the sky overlay destructures. */
    function Read(): (s: Snapshot)
      reads this
      ensures s.motherOrbitalAngle == motherOrbitalAngle && s.daughterOrbitalAngle == daughterOrbitalAngle
      ensures s.motherAngle == motherAngle && s.daughterAngle == daughterAngle
    {
      Snapshot(motherCanvas, daughterCanvas, motherAngle, daughterAngle,
               motherOrbitalAngle, daughterOrbitalAngle)
    }
  }
}
