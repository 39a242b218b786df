/**
 * The unified TMX converter that aligns the drawn grid with pathfinding:
 * TMX pixels (32 per tile) are scaled to visual tiles (18 pixels) drawn from
 * a fixed offset, and screen pixels are scaled back.  Both directions
 * truncate to integers.
 */
module AlignTmx {
  import opened PyMath
  import TmxCoords

  datatype Unified = Unified(tmxTile: int, gridWidth: int, gridHeight: int,
                             screenWidth: int, screenHeight: int,
                             visualTile: int, offsetX: int, offsetY: int)

  /** Converters with non-zero tile sizes, which is what the constructor builds. */
  type Converter = u: Unified | u.tmxTile > 0 && u.visualTile > 0
    witness Unified(32, 30, 30, 1200, 700, 18, 50, 50)

  /** The converter as constructed: 30x30 tiles of 32 pixels shown as 18-pixel tiles from (50, 50). */
  const Default: Converter := Unified(32, 30, 30, 1200, 700, 18, 50, 50)

  function WorldWidth(u: Converter): (w: int)
    ensures w == u.tmxTile * u.gridWidth
  {
    u.tmxTile * u.gridWidth
  }

  function WorldHeight(u: Converter): (h: int)
    ensures h == u.tmxTile * u.gridHeight
  {
    u.tmxTile * u.gridHeight
  }

  /** The forward map before truncation: TMX pixel to tile, then tile to screen. */
  function ToScreenExact(t: int, v: int, off: int, x: real): real
    requires t > 0
  {
    (x / t as real) * v as real + off as real
  }

  /** The backward map before truncation: screen to tile, then tile to TMX pixel. */
  function ToTmxExact(t: int, v: int, off: int, s: real): real
    requires v > 0
  {
    ((s - off as real) / v as real) * t as real
  }

  /** Before truncation the two maps are exact inverses, in both orders. */
  lemma ExactInverse(t: int, v: int, off: int, x: real, s: real)
    requires t > 0 && v > 0
    ensures ToTmxExact(t, v, off, ToScreenExact(t, v, off, x)) == x
    ensures ToScreenExact(t, v, off, ToTmxExact(t, v, off, s)) == s
  {
    var tr := t as real;
    var vr := v as real;
    var a := x / tr;
    assert a * tr == x;
    assert ((a * vr + off as real) - off as real) / vr == a;
    var b := (s - off as real) / vr;
    assert b * vr == s - off as real;
    assert (b * tr) / tr == b;
    calc {
      ToScreenExact(t, v, off, ToTmxExact(t, v, off, s));
    ==
      ((b * tr) / tr) * vr + off as real;
    ==
      b * vr + off as real;
    ==
      s;
    }
  }

  /** `tmx_pixel_to_screen`. */
  function TmxPixelToScreen(u: Converter, x: real, y: real): (r: (int, int))
    ensures r.0 == Trunc(ToScreenExact(u.tmxTile, u.visualTile, u.offsetX, x))
    ensures r.1 == Trunc(ToScreenExact(u.tmxTile, u.visualTile, u.offsetY, y))
  {
    (Trunc((x / u.tmxTile as real) * u.visualTile as real + u.offsetX as real),
     Trunc((y / u.tmxTile as real) * u.visualTile as real + u.offsetY as real))
  }

  /** `screen_to_tmx_pixel`. */
  function ScreenToTmxPixel(u: Converter, sx: real, sy: real): (r: (int, int))
    ensures r.0 == Trunc(ToTmxExact(u.tmxTile, u.visualTile, u.offsetX, sx))
    ensures r.1 == Trunc(ToTmxExact(u.tmxTile, u.visualTile, u.offsetY, sy))
  {
    (Trunc(((sx - u.offsetX as real) / u.visualTile as real) * u.tmxTile as real),
     Trunc(((sy - u.offsetY as real) / u.visualTile as real) * u.tmxTile as real))
  }

  datatype ScreenRect = ScreenRect(x: int, y: int, w: int, h: int)

  /** `get_visual_grid_rect`: the screen square of a tile. */
  function GetVisualGridRect(u: Converter, tx: int, ty: int): (r: ScreenRect)
    ensures r.w == u.visualTile && r.h == u.visualTile
    ensures r.x - u.offsetX == tx * u.visualTile && r.y - u.offsetY == ty * u.visualTile
  {
    ScreenRect(tx * u.visualTile + u.offsetX, ty * u.visualTile + u.offsetY, u.visualTile, u.visualTile)
  }

  /**
   * `get_layout_bounds_on_screen`: from the offset to the offset plus one
   * visual tile per grid column and row.
   */
  function GetLayoutBoundsOnScreen(u: Converter): (b: TmxCoords.Rect)
    ensures b.minX == u.offsetX && b.maxX - b.minX == u.visualTile * u.gridWidth
    ensures b.minY == u.offsetY && b.maxY - b.minY == u.visualTile * u.gridHeight
  {
    TmxCoords.Rect(u.offsetX, u.offsetY, u.offsetX + u.visualTile * u.gridWidth,
                   u.offsetY + u.visualTile * u.gridHeight)
  }

  /** Every tile's square lies inside the layout bounds. */
  lemma TileInsideBounds(u: Converter, tx: int, ty: int)
    requires 0 <= tx < u.gridWidth && 0 <= ty < u.gridHeight
    ensures var r := GetVisualGridRect(u, tx, ty); var b := GetLayoutBoundsOnScreen(u);
      b.minX <= r.x && r.x + r.w <= b.maxX && b.minY <= r.y && r.y + r.h <= b.maxY
  {
    MulLe(tx + 1, u.gridWidth, u.visualTile);
    MulLe(ty + 1, u.gridHeight, u.visualTile);
  }

  lemma MulLe(a: int, b: int, t: int)
    requires a <= b && t > 0
    ensures a * t <= b * t
  {
  }

  // ---------------------------------------------------------------------
  // The pixel round trip of the constructed converter.
  // ---------------------------------------------------------------------

  lemma FloorUnique(v: real, n: int)
    requires n as real <= v < n as real + 1.0
    ensures Floor(v) == n
  {
  }

  /** For a non-negative integer pixel the forward map is `50 + 9x div 16`. */
  lemma ForwardInt(x: int)
    requires x >= 0
    ensures TmxPixelToScreen(Default, x as real, 0.0).0 == (9 * x) / 16 + 50
  {
    var q := (9 * x) / 16;
    var v := (x as real / 32.0) * 18.0 + 50.0;
    assert v == (9 * x) as real / 16.0 + 50.0;
    FloorUnique(v, q + 50);
  }

  /** For a screen pixel at or right of the offset the backward map is `32(s-50) div 18`. */
  lemma BackwardInt(s: int)
    requires s >= 50
    ensures ScreenToTmxPixel(Default, s as real, 50.0).0 == (16 * (s - 50)) / 9
  {
    var v := ((s as real - 50.0) / 18.0) * 32.0;
    assert v == (16 * (s - 50)) as real / 9.0;
    FloorUnique(v, (16 * (s - 50)) / 9);
  }

  /** TMX pixel to screen and back, as the alignment test performs it. */
  function RoundTrip(x: int): int
  {
    ScreenToTmxPixel(Default, TmxPixelToScreen(Default, x as real, 0.0).0 as real, 50.0).0
  }

  /** The round trip never gains and loses at most two pixels. */
  lemma RoundTripWithinTwo(x: int)
    requires x >= 0
    ensures x - 2 <= RoundTrip(x) <= x
  {
    ForwardInt(x);
    var q := (9 * x) / 16;
    BackwardInt(q + 50);
  }

  /** Pixel 10 comes back as 8: the alignment test's one-pixel tolerance does not hold for every pixel. */
  lemma RoundTripMissesByTwo()
    ensures RoundTrip(10) == 8
  {
    ForwardInt(10);
    BackwardInt(55);
  }

  /** The forward map rounding to the nearest screen pixel instead of truncating. */
  function TmxPixelToScreenRounded(u: Converter, x: real): int
  {
    Floor((x / u.tmxTile as real) * u.visualTile as real + u.offsetX as real + 0.5)
  }

  lemma ForwardRoundedInt(x: int)
    requires x >= 0
    ensures TmxPixelToScreenRounded(Default, x as real) == (9 * x + 8) / 16 + 50
  {
    var v := (x as real / 32.0) * 18.0 + 50.0 + 0.5;
    assert v == (9 * x + 8) as real / 16.0 + 50.0;
    FloorUnique(v, (9 * x + 8) / 16 + 50);
  }

  function RoundTripRounded(x: int): int
  {
    ScreenToTmxPixel(Default, TmxPixelToScreenRounded(Default, x as real) as real, 50.0).0
  }

  /** With the rounding forward map every non-negative pixel comes back within one. */
  lemma RoundTripRoundedWithinOne(x: int)
    requires x >= 0
    ensures x - 1 <= RoundTripRounded(x) <= x
  {
    ForwardRoundedInt(x);
    var q := (9 * x + 8) / 16;
    BackwardInt(q + 50);
  }

  /** The constructed converter's layout fits its 1200x700 screen. */
  lemma DefaultFitsScreen()
    ensures var b := GetLayoutBoundsOnScreen(Default);
      b.maxX <= Default.screenWidth && b.maxY <= Default.screenHeight
      && WorldWidth(Default) == 960 && WorldHeight(Default) == 960
  {
  }
}
