/**
 * `createWindowTexture` (src/app/components/GithubCity.tsx): a 32 x 32 canvas
 * painted with a wall colour and four window rectangles, wrapped in a texture
 * that repeats on both axes. The canvas is modelled by the list of rectangles
 * painted on it, in painting order.
 */
module Textures {

  import opened Wrappers
  import opened Scales

  /** A canvas fill style: CSS `rgb()` / `rgba()` channels on 0..255 and an alpha in [0, 1]. */
  datatype Style = Style(r: real, g: real, b: real, a: real)

  /** The initial `fillStyle` of a 2D context, "#000000". */
  const Black: Style := Style(0.0, 0.0, 0.0, 1.0)

  /** `rgba(255, 255, 255, 0.9)`: the window colour. */
  const WindowLight: Style := Style(255.0, 255.0, 255.0, 0.9)

  /** `rgb(color.r * 255 * 0.85, ...)`: the wall colour for a building colour. */
  function WallStyle(color: Rgb): Style {
    Style(color.r * 255.0 * SideShade, color.g * 255.0 * SideShade, color.b * 255.0 * SideShade, 1.0)
  }

  datatype Rect = Rect(x: int, y: int, w: int, h: int)

  /** One `fillRect` call with the fill style current at that time. */
  datatype Paint = Paint(rect: Rect, style: Style)

  /** A canvas element together with its 2D context. */
  class Canvas {
    var width: nat
    var height: nat
    /** Whether `getContext("2d")` yields a context; it is null where canvases cannot draw. */
    const hasContext: bool
    var fillStyle: Style
    /** Everything painted so far, oldest first. */
    var paints: seq<Paint>

    /** `document.createElement("canvas")`: 300 x 150 and blank. */
    constructor (hasContext: bool)
      ensures width == 300 && height == 150
      ensures this.hasContext == hasContext && fillStyle == Black && paints == []
    {
      width, height := 300, 150;
      this.hasContext := hasContext;
      fillStyle := Black;
      paints := [];
    }

    /** `context.fillRect(x, y, w, h)` with the current fill style. */
    method FillRect(x: int, y: int, w: int, h: int)
      modifies this`paints
      ensures paints == old(paints) + [Paint(Rect(x, y, w, h), fillStyle)]
    {
      paints := paints + [Paint(Rect(x, y, w, h), fillStyle)];
    }
  }

  datatype Wrapping = ClampToEdge | RepeatWrapping

  /** A THREE.CanvasTexture: its canvas's size and paint, wrap modes and repeat factors. */
  datatype Texture = Texture(width: nat, height: nat, paints: seq<Paint>,
                             wrapS: Wrapping, wrapT: Wrapping, repeatX: int, repeatY: int)

  const TextureSize: nat := 32

  /** The four windows: two rows of two 8 x 8 squares. */
  const Windows: seq<Rect> := [Rect(4, 4, 8, 8), Rect(20, 4, 8, 8), Rect(4, 20, 8, 8), Rect(20, 20, 8, 8)]

  /** What `createWindowTexture` paints for a building colour, in order. */
  function WindowPaints(color: Rgb): seq<Paint> {
    [Paint(Rect(0, 0, 32, 32), WallStyle(color)),
     Paint(Windows[0], WindowLight), Paint(Windows[1], WindowLight),
     Paint(Windows[2], WindowLight), Paint(Windows[3], WindowLight)]
  }

  /** The result of `createWindowTexture(color)`: null when no 2D context is available. */
  function WindowTexture(color: Rgb, hasContext: bool): Option<Texture> {
    if hasContext then Some(Texture(TextureSize, TextureSize, WindowPaints(color), RepeatWrapping, RepeatWrapping, 1, 1))
    else None
  }

  method CreateWindowTexture(color: Rgb, hasContext: bool) returns (texture: Option<Texture>)
    ensures texture == WindowTexture(color, hasContext)
    ensures texture.Some? <==> hasContext
  {
    var canvas := new Canvas(hasContext);
    canvas.width := 32;
    canvas.height := 32;
    if !canvas.hasContext {
      return None;
    }
    canvas.fillStyle := WallStyle(color);
    canvas.FillRect(0, 0, 32, 32);
    canvas.fillStyle := WindowLight;
    canvas.FillRect(4, 4, 8, 8);
    canvas.FillRect(20, 4, 8, 8);
    canvas.FillRect(4, 20, 8, 8);
    canvas.FillRect(20, 20, 8, 8);
    assert canvas.width == 32 && canvas.height == 32;
    assert canvas.paints == WindowPaints(color);
    texture := Some(Texture(canvas.width, canvas.height, canvas.paints, RepeatWrapping, RepeatWrapping, 1, 1));
  }

  // ---------------------------------------------------------------------------
  // The layout of the texture

  predicate Covers(r: Rect, x: int, y: int) { r.x <= x < r.x + r.w && r.y <= y < r.y + r.h }

  predicate Inside(r: Rect, width: nat, height: nat) {
    0 <= r.x && 0 <= r.w && r.x + r.w <= width && 0 <= r.y && 0 <= r.h && r.y + r.h <= height
  }

  predicate Disjoint(r: Rect, s: Rect) {
    r.x + r.w <= s.x || s.x + s.w <= r.x || r.y + r.h <= s.y || s.y + s.h <= r.y
  }

  /** The number of paints in the list that cover pixel (x, y). */
  function CoverCount(paints: seq<Paint>, x: int, y: int): (n: nat)
    ensures n <= |paints|
  {
    if paints == [] then 0
    else CoverCount(paints[..|paints| - 1], x, y) + (if Covers(paints[|paints| - 1].rect, x, y) then 1 else 0)
  }

  /** A pixel lies in a window when both coordinates are at 4..11 within their 16-pixel half. */
  predicate InWindow(x: int, y: int) { 4 <= x % 16 < 12 && 4 <= y % 16 < 12 }

  /**
   * The texture is first filled entirely with the wall colour, then four 8 x 8
   * windows in the window colour, each inside the canvas and no two overlapping.
   */
  lemma WindowLayout(color: Rgb)
    ensures |WindowPaints(color)| == 5
    ensures WindowPaints(color)[0] == Paint(Rect(0, 0, TextureSize, TextureSize), WallStyle(color))
    ensures forall i :: 1 <= i < 5 ==>
              var r := WindowPaints(color)[i].rect;
              WindowPaints(color)[i].style == WindowLight && r.w == 8 && r.h == 8 && Inside(r, TextureSize, TextureSize)
    ensures forall i, j :: 1 <= i < j < 5 ==> Disjoint(WindowPaints(color)[i].rect, WindowPaints(color)[j].rect)
  {
  }

  /**
   * Every pixel of the canvas is covered by the wall fill, and by exactly one
   * window when it lies in a window cell and by none otherwise: the pattern
   * repeats every 16 pixels in both directions.
   */
  lemma WindowPixels(color: Rgb, x: int, y: int)
    requires 0 <= x < TextureSize && 0 <= y < TextureSize
    ensures Covers(WindowPaints(color)[0].rect, x, y)
    ensures CoverCount(WindowPaints(color)[1..], x, y) == if InWindow(x, y) then 1 else 0
  {
    var ws := WindowPaints(color)[1..];
    assert ws[..1][..0] == [] && ws[..2][..1] == ws[..1] && ws[..3][..2] == ws[..2] && ws[..3] == ws[..|ws| - 1];
    var c := seq(4, i requires 0 <= i < 4 => if Covers(Windows[i], x, y) then 1 else 0);
    assert CoverCount(ws[..1], x, y) == c[0];
    assert CoverCount(ws[..2], x, y) == c[0] + c[1];
    assert CoverCount(ws[..3], x, y) == c[0] + c[1] + c[2];
    assert CoverCount(ws, x, y) == c[0] + c[1] + c[2] + c[3];
  }

  /** The wall of the texture has the side faces' colour, on the 0..255 scale. */
  lemma WallIsSideColor(color: Rgb)
    requires IsUnitColor(color)
    ensures var side := SideColor(color);
            WallStyle(color) == Style(side.r * 255.0, side.g * 255.0, side.b * 255.0, 1.0)
  {
  }
}
