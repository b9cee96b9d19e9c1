/** The drawing surface the two sky-overlay renderers share
    (sim_dev/skyVis.js and back/skyVis.js define `resizeCanvas`, `drawMoon`
    and the horizon lines of `draw` identically). A canvas is modelled by
    its size and the list of draw commands issued since it was last
    cleared; pixels, transforms and compositing are left out. */
module SkyCanvas {
  import opened JsMath
  import Bridge

  /** The horizon picture as `draw` tests it. */
  datatype HorizonImage = HorizonImage(complete: bool, naturalWidth: nat, naturalHeight: nat)

  /** A decoded picture with a height also has a width (a browser reports
      both sizes or neither). */
  predicate Consistent(img: HorizonImage) {
    img.naturalHeight != 0 ==> img.naturalWidth != 0
  }

  /** What a draw call leaves on the canvas. */
  datatype DrawCmd =
    | Outline(centerX: real, centerY: real, radiusX: real, radiusY: real)
    | MoonSprite(image: Bridge.Image, x: real, y: real, size: real, clipRadius: real, rotation: real)
    | HorizonStrip(left: real, top: real, stripWidth: real, stripHeight: real)

  /** `drawMoon(imageSource, x, y, size, clipScale, rotationAngle)`: an
      image that is missing or has a zero side draws nothing; otherwise one
      sprite centred on `(x, y)`, clipped to a circle of `size / 2` times
      `clipScale`, turned by the roll plus three quarter turns. */
  function MoonCmds(img: Bridge.Image, x: real, y: real, size: real, clipScale: real, roll: real)
    : (r: seq<DrawCmd>)
    ensures |r| <= 1
    ensures |r| == 1 <==> Bridge.Ready(img)
    ensures |r| == 1 ==>
      && r[0].MoonSprite? && r[0].image == img && r[0].x == x && r[0].y == y
      && r[0].size == size && r[0].clipRadius == (size / 2.0) * clipScale
      && r[0].rotation == roll + 3.0 * PI / 2.0
  {
    if !Bridge.Ready(img) then []
    else [MoonSprite(img, x, y, size, (size / 2.0) * clipScale, roll + 3.0 * PI / 2.0)]
  }

  /** The horizon lines of `draw`: once the picture is loaded with a
      non-zero height, it is drawn across the whole width, scaled to keep
      its aspect ratio, with its bottom edge on the canvas's bottom edge. */
  function HorizonCmds(img: HorizonImage, width: nat, height: nat): (r: seq<DrawCmd>)
    requires Consistent(img)
    ensures |r| <= 1
    ensures |r| == 1 <==> img.complete && img.naturalHeight != 0
    ensures |r| == 1 ==>
      && r[0].HorizonStrip? && r[0].left == 0.0 && r[0].stripWidth == width as real
      && r[0].top + r[0].stripHeight == height as real
      && r[0].stripHeight * (img.naturalWidth as real) == (width as real) * (img.naturalHeight as real)
  {
    if img.complete && img.naturalHeight != 0 then
      var drawnHeight := ScaledHeight(width as real, img.naturalWidth as real, img.naturalHeight as real);
      [HorizonStrip(0.0, height as real - drawnHeight, width as real, drawnHeight)]
    else
      []
  }

  /** The height a picture is drawn at when stretched to a given width:
      the width times the picture's height-to-width ratio. */
  function ScaledHeight(width: real, naturalWidth: real, naturalHeight: real): (h: real)
    requires naturalWidth != 0.0
    ensures h * naturalWidth == width * naturalHeight
  {
    var ratio := naturalHeight / naturalWidth;
    assert ratio * naturalWidth == naturalHeight;
    width * ratio
  }

  /** The `<canvas>` element the overlay draws on. */
  class Canvas {
    var width: nat
    var height: nat
    var drawn: seq<DrawCmd>

    constructor (clientWidth: nat, clientHeight: nat)
      ensures width == clientWidth && height == clientHeight && drawn == []
    {
      width, height := clientWidth, clientHeight;
      drawn := [];
    }

    /** `resizeCanvas`: the canvas takes its element's client size (which
        also clears it). */
    method Resize(clientWidth: nat, clientHeight: nat)
      modifies this
      ensures width == clientWidth && height == clientHeight && drawn == []
    {
      width := clientWidth;
      height := clientHeight;
      drawn := [];
    }

    /** `ctx.clearRect(0, 0, canvas.width, canvas.height)`. */
    method Clear()
      modifies this`drawn
      ensures drawn == []
    {
      drawn := [];
    }

    /** `ctx.stroke()` of the guide ellipse. */
    method StrokeEllipse(centerX: real, centerY: real, radiusX: real, radiusY: real)
      modifies this`drawn
      ensures drawn == old(drawn) + [Outline(centerX, centerY, radiusX, radiusY)]
    {
      drawn := drawn + [Outline(centerX, centerY, radiusX, radiusY)];
    }

    /** `drawMoon`. */
    method DrawMoon(img: Bridge.Image, x: real, y: real, size: real, clipScale: real, roll: real)
      modifies this`drawn
      ensures drawn == old(drawn) + MoonCmds(img, x, y, size, clipScale, roll)
    {
      if img.NoImage? || img.width == 0 || img.height == 0 {
        assert drawn + MoonCmds(img, x, y, size, clipScale, roll) == drawn;
        return;
      }
      var radius := size / 2.0;
      var sprite := MoonSprite(img, x, y, size, radius * clipScale, roll + 3.0 * PI / 2.0);
      assert sprite.clipRadius == (size / 2.0) * clipScale;
      assert [sprite] == MoonCmds(img, x, y, size, clipScale, roll);
      drawn := drawn + [sprite];
    }

    /** The horizon lines at the end of `draw`. */
    method DrawHorizon(img: HorizonImage)
      requires Consistent(img)
      modifies this`drawn
      ensures drawn == old(drawn) + HorizonCmds(img, width, height)
    {
      if img.complete && img.naturalHeight != 0 {
        var drawnHeight := ScaledHeight(width as real, img.naturalWidth as real, img.naturalHeight as real);
        var strip := HorizonStrip(0.0, height as real - drawnHeight, width as real, drawnHeight);
        assert [strip] == HorizonCmds(img, width, height);
        drawn := drawn + [strip];
      } else {
        assert drawn + HorizonCmds(img, width, height) == drawn;
      }
    }
  }
}
