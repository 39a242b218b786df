/**
 * The process-wide TMX coordinate authority.  While a TMX layout is active
 * every pixel is checked against the layout's world rectangle; otherwise the
 * legacy 1900x900 screen rectangle applies.  The module also converts between
 * pixels and grid cells, answers navigability questions from the layout's
 * navigation matrix, and holds the hand-written WH1 parser's tile-id mapping.
 *
 * Pixel positions are real numbers (operators move continuously); grid cells
 * and the positions derived from them are integers.
 */
module TmxCoords {
  import opened Wrappers
  import opened Seqs
  import opened PyMath
  import opened Grid
  import Strs

  /** An inclusive pixel rectangle. */
  datatype Rect = Rect(minX: int, minY: int, maxX: int, maxY: int)

  /** The legacy screen rectangle used whenever no TMX layout is active. */
  const DefaultBounds: Rect := Rect(0, 0, 1900, 900)

  /** The tile size the hand-written WH1 parser and `activate` fall back to. */
  const DefaultTile: int := 32

  /** The bounds derived from an active layout. */
  datatype TmxBounds = TmxBounds(rect: Rect, tileWidth: int, tileHeight: int, gridWidth: int, gridHeight: int)

  datatype Placement = Placement(tile: Cell, pixel: Cell)

  datatype SpecialLocations = SpecialLocations(
    depot: seq<Placement>, inbound: seq<Placement>, picking: seq<Placement>, parking: seq<Placement>)

  const NoLocations := SpecialLocations([], [], [], [])

  datatype LayoutInfo = LayoutInfo(name: string, path: string, width: int, height: int,
                                   tileWidth: Option<int>, tileHeight: Option<int>)

  datatype LayoutData = LayoutData(info: LayoutInfo, navigation: Option<seq<seq<int>>>,
                                   special: SpecialLocations)

  /**
   * Optional `scale`, `offset_x`, `offset_y` entries of a visual
   * configuration; `extra` says whether the dictionary holds any other key.
   */
  datatype VisualConfig = VisualConfig(scale: Option<real>, offsetX: Option<real>, offsetY: Option<real>, extra: bool)

  /** Python's truth value of the dictionary: it is non-empty. */
  predicate VisualTruthy(v: Option<VisualConfig>)
  {
    v.Some? && (v.value.scale.Some? || v.value.offsetX.Some? || v.value.offsetY.Some? || v.value.extra)
  }

  datatype Coords = Coords(tmxActive: bool, current: Option<LayoutData>, bounds: Option<TmxBounds>,
                           scale: real, offsetX: real, offsetY: real)

  const Initial: Coords := Coords(false, None, None, 1.0, 0.0, 0.0)

  function TileW(info: LayoutInfo): int { info.tileWidth.GetOr(DefaultTile) }
  function TileH(info: LayoutInfo): int { info.tileHeight.GetOr(DefaultTile) }

  /**
   * Layouts whose effective tile sizes are positive; a zero tile size would
   * make every later pixel-to-grid conversion divide by zero.
   */
  predicate TilesPositive(d: Option<LayoutData>)
  {
    d.Some? ==> TileW(d.value.info) > 0 && TileH(d.value.info) > 0
  }

  /** What every reachable state satisfies: a loaded layout always has bounds. */
  predicate Inv(c: Coords)
  {
    && (c.current.Some? ==> c.bounds.Some?)
    && (c.bounds.Some? ==> c.bounds.value.tileWidth > 0 && c.bounds.value.tileHeight > 0)
  }

  predicate Ordered(b: Rect) { b.minX <= b.maxX && b.minY <= b.maxY }

  /** The bounds an activation computes: the world rectangle minus one pixel. */
  function BoundsOf(info: LayoutInfo): (b: TmxBounds)
    ensures b.rect.minX == 0 && b.rect.minY == 0
    ensures b.rect.maxX + 1 == info.width * TileW(info)
    ensures b.rect.maxY + 1 == info.height * TileH(info)
    ensures b.gridWidth == info.width && b.gridHeight == info.height
    ensures b.tileWidth == TileW(info) && b.tileHeight == TileH(info)
  {
    TmxBounds(Rect(0, 0, info.width * TileW(info) - 1, info.height * TileH(info) - 1),
              TileW(info), TileH(info), info.width, info.height)
  }

  predicate IsWh1(d: Option<LayoutData>)
  {
    d.Some? && Strs.Contains(d.value.info.path, "WH1")
  }

  /**
   * `activate_tmx_mode`.  A layout whose path names WH1 is replaced by the
   * result of the hand-written parser, `manual` (the file reading is outside
   * the model); when that parser failed the call reports false and changes
   * nothing.  Otherwise TMX mode is switched on with the (possibly absent)
   * layout and, when there is a layout, its bounds and, for a non-empty
   * visual configuration, its visual settings.
   */
  function Activate(c: Coords, data: Option<LayoutData>, visual: Option<VisualConfig>,
                    manual: Option<LayoutData>): (r: (Coords, bool))
    ensures r.1 && r.0.current.Some? && VisualTruthy(visual) ==>
      && r.0.scale == visual.value.scale.GetOr(1.0)
      && r.0.offsetX == visual.value.offsetX.GetOr(0.0)
      && r.0.offsetY == visual.value.offsetY.GetOr(0.0)
    ensures !(r.1 && r.0.current.Some? && VisualTruthy(visual)) ==>
      r.0.scale == c.scale && r.0.offsetX == c.offsetX && r.0.offsetY == c.offsetY
  {
    var ld := if IsWh1(data) then manual else data;
    if IsWh1(data) && manual.None? then (c, false)
    else
      var c1 := c.(tmxActive := true, current := ld);
      if ld.None? then (c1, true)
      else
        var c2 := c1.(bounds := Some(BoundsOf(ld.value.info)));
        if !VisualTruthy(visual) then (c2, true)
        else (c2.(scale := visual.value.scale.GetOr(1.0),
                  offsetX := visual.value.offsetX.GetOr(0.0),
                  offsetY := visual.value.offsetY.GetOr(0.0)), true)
  }

  /** `deactivate_tmx_mode`: back to the legacy screen. */
  function Deactivate(c: Coords): (r: Coords)
    ensures !IsTmxActive(r) && Inv(r)
    ensures GetBounds(r) == DefaultBounds
    ensures r.scale == c.scale && r.offsetX == c.offsetX && r.offsetY == c.offsetY
  {
    c.(tmxActive := false, current := None, bounds := None)
  }

  predicate IsTmxActive(c: Coords)
  {
    c.tmxActive && c.current.Some?
  }

  /** `get_bounds`: the TMX rectangle while a layout is active, else the screen. */
  function GetBounds(c: Coords): (b: Rect)
    ensures IsTmxActive(c) && c.bounds.Some? ==> b == c.bounds.value.rect
    ensures !IsTmxActive(c) ==> b == Rect(0, 0, 1900, 900)
  {
    if IsTmxActive(c) && c.bounds.Some? then c.bounds.value.rect else DefaultBounds
  }

  predicate InRectR(b: Rect, x: real, y: real)
  {
    b.minX as real <= x <= b.maxX as real && b.minY as real <= y <= b.maxY as real
  }

  /** `is_point_valid`: both coordinates inside the current bounds, ends included. */
  function IsPointValid(c: Coords, x: real, y: real): (r: bool)
    ensures r <==> InRectR(GetBounds(c), x, y)
  {
    var b := GetBounds(c);
    b.minX as real <= x <= b.maxX as real && b.minY as real <= y <= b.maxY as real
  }

  /** `max(lo, min(v, hi))`, with no assumption that `lo <= hi`. */
  function ClampTo(v: real, lo: int, hi: int): (r: real)
    ensures lo <= hi ==> lo as real <= r <= hi as real
    ensures lo as real <= v <= hi as real ==> r == v
    ensures hi < lo ==> r == lo as real
  {
    MaxR(lo as real, MinR(v, hi as real))
  }

  /**
   * `clamp_point`.  The result is a valid point whenever the bounds are not
   * empty (a layout of width or height zero has no valid point at all), and
   * a valid point is returned unchanged.
   */
  function ClampPoint(c: Coords, x: real, y: real): (r: (real, real))
    ensures Ordered(GetBounds(c)) ==> IsPointValid(c, r.0, r.1)
    ensures IsPointValid(c, x, y) ==> r == (x, y)
  {
    var b := GetBounds(c);
    (ClampTo(x, b.minX, b.maxX), ClampTo(y, b.minY, b.maxY))
  }

  /** Clamping twice is clamping once, whatever the bounds. */
  lemma ClampIdempotent(c: Coords, x: real, y: real)
    ensures ClampPoint(c, ClampPoint(c, x, y).0, ClampPoint(c, x, y).1) == ClampPoint(c, x, y)
  {
    var b := GetBounds(c);
    if b.minX > b.maxX || b.minY > b.maxY {
      var p := ClampPoint(c, x, y);
      assert ClampTo(p.0, b.minX, b.maxX) == p.0;
      assert ClampTo(p.1, b.minY, b.maxY) == p.1;
    }
  }

  /** The legacy screen is never empty, nor is an active layout with tiles. */
  lemma BoundsOrdered(c: Coords)
    requires Inv(c)
    requires IsTmxActive(c) ==> c.current.value.info.width >= 1 && c.current.value.info.height >= 1
    requires IsTmxActive(c) ==> c.bounds.value == BoundsOf(c.current.value.info)
    ensures Ordered(GetBounds(c))
  {
    if IsTmxActive(c) {
      var info := c.current.value.info;
      PositiveFactor(info.width, TileW(info));
      PositiveFactor(info.height, TileH(info));
    }
  }

  lemma PositiveFactor(n: int, t: int)
    requires n >= 1 && t >= 1
    ensures n * t >= 1
  {
  }

  /**
   * `pixel_to_grid`: None while no layout is active; otherwise the floor of
   * the pixel over the tile size, clamped into `[0, grid - 1]`.
   */
  function PixelToGrid(c: Coords, x: real, y: real): (r: Option<Cell>)
    requires Inv(c)
    ensures r.None? <==> !IsTmxActive(c)
    ensures r.Some? ==> var b := c.bounds.value;
      && (b.gridWidth >= 1 ==> 0 <= r.value.x < b.gridWidth)
      && (b.gridHeight >= 1 ==> 0 <= r.value.y < b.gridHeight)
  {
    if !IsTmxActive(c) then None
    else
      var b := c.bounds.value;
      var gx := Floor(x / b.tileWidth as real);
      var gy := Floor(y / b.tileHeight as real);
      Some(Cell(Max(0, Min(gx, b.gridWidth - 1)), Max(0, Min(gy, b.gridHeight - 1))))
  }

  /** Inside the world rectangle no clamping happens: the cell is the tile holding the pixel. */
  lemma PixelToGridInside(c: Coords, x: real, y: real)
    requires Inv(c) && IsTmxActive(c)
    requires var b := c.bounds.value;
      0.0 <= x < (b.gridWidth * b.tileWidth) as real && 0.0 <= y < (b.gridHeight * b.tileHeight) as real
    ensures var g := PixelToGrid(c, x, y).value; var b := c.bounds.value;
      && (g.x * b.tileWidth) as real <= x < ((g.x + 1) * b.tileWidth) as real
      && (g.y * b.tileHeight) as real <= y < ((g.y + 1) * b.tileHeight) as real
  {
    var b := c.bounds.value;
    FloorInside(x, b.tileWidth, b.gridWidth);
    FloorInside(y, b.tileHeight, b.gridHeight);
  }

  /** For `0 <= v < n*t` the tile index `floor(v/t)` lies in `[0, n)` and brackets `v`. */
  lemma FloorInside(v: real, t: int, n: int)
    requires t > 0 && 0.0 <= v < (n * t) as real
    ensures var q := Floor(v / t as real);
      0 <= q < n && Max(0, Min(q, n - 1)) == q
      && (q * t) as real <= v < ((q + 1) * t) as real
  {
    var q := Floor(v / t as real);
    var tr := t as real;
    MulBracket(v, tr, q as real);
    assert (q * t) as real == q as real * tr;
    assert ((q + 1) * t) as real == (q as real + 1.0) * tr;
    LtFromMul(q, n, t);
    LtFromMul(-1, q, t);
  }

  /** Cancelling a positive factor from a strict product inequality. */
  lemma LtFromMul(a: int, b: int, t: int)
    requires t > 0 && a * t < (b + 1) * t
    ensures a <= b
  {
    if a > b { MonoMul(b + 1, a, t); }
  }

  lemma MonoMul(a: int, b: int, t: int)
    requires a <= b && t > 0
    ensures a * t <= b * t
  {
  }

  /** Multiplying the bracket `q <= v/t < q+1` through by `t > 0`. */
  lemma MulBracket(v: real, t: real, q: real)
    requires t > 0.0 && q <= v / t < q + 1.0
    ensures q * t <= v
    ensures v < (q + 1.0) * t
  {
    var a := v / t;
    assert a * t == v;
    assert q * t <= v by { MulLe(q, a, t); }
    var b := q + 1.0;
    MulLt(a, b, t);
    calc {
      v;
    ==
      a * t;
    <
      b * t;
    }
  }

  lemma MulLe(a: real, b: real, t: real)
    requires a <= b && t > 0.0
    ensures a * t <= b * t
  {
  }

  lemma MulLt(a: real, b: real, t: real)
    requires a < b && t > 0.0
    ensures a * t < b * t
  {
    assert b * t - a * t == (b - a) * t;
  }

  /** `grid_to_pixel`: the centre of the tile, or None while no layout is active. */
  function GridToPixel(c: Coords, gx: int, gy: int): (r: Option<Cell>)
    requires Inv(c)
    ensures r.None? <==> !IsTmxActive(c)
    ensures r.Some? ==> var b := c.bounds.value;
      && gx * b.tileWidth <= r.value.x < (gx + 1) * b.tileWidth
      && gy * b.tileHeight <= r.value.y < (gy + 1) * b.tileHeight
  {
    if !IsTmxActive(c) then None
    else
      var b := c.bounds.value;
      Some(Cell(gx * b.tileWidth + b.tileWidth / 2, gy * b.tileHeight + b.tileHeight / 2))
  }

  /** A grid cell survives the trip to its centre pixel and back. */
  lemma GridPixelRoundTrip(c: Coords, gx: int, gy: int)
    requires Inv(c) && IsTmxActive(c)
    requires 0 <= gx < c.bounds.value.gridWidth && 0 <= gy < c.bounds.value.gridHeight
    ensures var p := GridToPixel(c, gx, gy).value;
      PixelToGrid(c, p.x as real, p.y as real) == Some(Cell(gx, gy))
  {
    var b := c.bounds.value;
    var p := GridToPixel(c, gx, gy).value;
    CentreTile(gx, b.tileWidth, b.gridWidth, p.x);
    CentreTile(gy, b.tileHeight, b.gridHeight, p.y);
  }

  /** The tile index of a pixel inside tile `g` is `g`. */
  lemma CentreTile(g: int, t: int, n: int, p: int)
    requires t > 0 && 0 <= g < n && g * t <= p < (g + 1) * t
    ensures Max(0, Min(Floor(p as real / t as real), n - 1)) == g
  {
    var q := Floor(p as real / t as real);
    var tr := t as real;
    MulBracket(p as real, tr, q as real);
    assert (q * t) as real == q as real * tr;
    assert ((q + 1) * t) as real == (q as real + 1.0) * tr;
    assert q * t <= p < (q + 1) * t;
    if q < g { MonoMul(q + 1, g, t); }
    if q > g { MonoMul(g + 1, q, t); }
  }

  /** `get_navigation_matrix`: the active layout's matrix, if it has one. */
  function GetNavigationMatrix(c: Coords): (r: Option<seq<seq<int>>>)
    ensures r.Some? ==> IsTmxActive(c) && c.current.value.navigation == r
    ensures IsTmxActive(c) ==> r == c.current.value.navigation
  {
    if IsTmxActive(c) then c.current.value.navigation else None
  }

  /**
   * `is_grid_cell_walkable`.  Without a matrix every cell is walkable; the
   * range check uses the matrix height and the length of its FIRST row, so a
   * short later row raises an index error, modelled as `Err`.
   */
  function IsGridCellWalkable(c: Coords, gx: int, gy: int): (r: Result<bool>)
    ensures GetNavigationMatrix(c).None? ==> r == Ok(true)
    ensures GetNavigationMatrix(c).Some? ==> var m := GetNavigationMatrix(c).value;
      && (!(0 <= gy < |m| && 0 <= gx < |m[0]|) ==> r == Ok(false))
      && (0 <= gy < |m| && 0 <= gx < |m[gy]| && gx < |m[0]| ==> r == Ok(m[gy][gx] == 1))
      && (r.Err? <==> 0 <= gy < |m| && |m[gy]| <= gx < |m[0]|)
  {
    match GetNavigationMatrix(c)
    case None => Ok(true)
    case Some(m) =>
      if gy < 0 || gy >= |m| || gx < 0 || gx >= |m[0]| then Ok(false)
      else if gx < |m[gy]| then Ok(m[gy][gx] == 1)
      else Err("IndexError: list index out of range")
  }

  /** On a rectangular matrix the lookup never fails. */
  lemma WalkableRectangular(c: Coords, gx: int, gy: int)
    requires GetNavigationMatrix(c).Some? ==> Rectangular(GetNavigationMatrix(c).value)
    ensures IsGridCellWalkable(c, gx, gy).Ok?
  {
    match GetNavigationMatrix(c)
    case None =>
    case Some(m) =>
      if 0 <= gy < |m| && 0 <= gx < |m[0]| {
        assert |m[gy]| == |m[0]|;
      }
  }

  /**
   * `is_pixel_walkable`: invalid pixels are not walkable, without a layout
   * every valid pixel is, and otherwise the answer is the cell's.
   */
  function IsPixelWalkable(c: Coords, x: real, y: real): (r: Result<bool>)
    requires Inv(c)
    ensures !IsPointValid(c, x, y) ==> r == Ok(false)
    ensures IsPointValid(c, x, y) && !IsTmxActive(c) ==> r == Ok(true)
    ensures IsPointValid(c, x, y) && IsTmxActive(c) ==>
      r == IsGridCellWalkable(c, PixelToGrid(c, x, y).value.x, PixelToGrid(c, x, y).value.y)
  {
    if !IsPointValid(c, x, y) then Ok(false)
    else match PixelToGrid(c, x, y)
      case None => Ok(true)
      case Some(g) => IsGridCellWalkable(c, g.x, g.y)
  }

  /**
   * `get_safe_starting_position`.  With an active layout that has parking
   * points, one of them (`pick` stands for the random choice) is clamped into
   * bounds; otherwise the point 100 pixels in from the top-left corner is.
   */
  function GetSafeStartingPosition(c: Coords, pick: nat): (r: (real, real))
    ensures Ordered(GetBounds(c)) ==> IsPointValid(c, r.0, r.1)
    ensures IsTmxActive(c) && c.current.value.special.parking != [] ==>
      exists i :: 0 <= i < |c.current.value.special.parking| &&
        r == ClampPoint(c, c.current.value.special.parking[i].pixel.x as real,
                           c.current.value.special.parking[i].pixel.y as real)
    ensures !IsTmxActive(c) ==> r == (100.0, 100.0)
  {
    var parking := if IsTmxActive(c) then c.current.value.special.parking else [];
    if parking != [] then
      var p := parking[pick % |parking|].pixel;
      ClampPoint(c, p.x as real, p.y as real)
    else
      var b := GetBounds(c);
      ClampPoint(c, (b.minX + 100) as real, (b.minY + 100) as real)
  }

  /** Activation and deactivation keep the state invariant. */
  lemma ActivateInv(c: Coords, data: Option<LayoutData>, visual: Option<VisualConfig>, manual: Option<LayoutData>)
    requires Inv(c) && TilesPositive(data) && TilesPositive(manual)
    ensures Inv(Activate(c, data, visual, manual).0)
  {
  }

  /**
   * What activation promises: a failed WH1 parse changes nothing; otherwise
   * TMX mode is on, the effective layout (the parsed one for WH1) is
   * current, and its world rectangle is the bounds.  The visual settings
   * change only with a layout and a non-empty visual configuration, to its
   * entries or their defaults 1.0, 0 and 0.
   */
  lemma ActivateSpec(c: Coords, data: Option<LayoutData>, visual: Option<VisualConfig>, manual: Option<LayoutData>)
    ensures var (r, ok) := Activate(c, data, visual, manual);
      && (!ok <==> IsWh1(data) && manual.None?)
      && (!ok ==> r == c)
      && (ok ==> r.tmxActive && r.current == (if IsWh1(data) then manual else data))
      && (ok && r.current.Some? ==>
            && IsTmxActive(r)
            && GetBounds(r) == Rect(0, 0, r.current.value.info.width * TileW(r.current.value.info) - 1,
                                          r.current.value.info.height * TileH(r.current.value.info) - 1))
      && (ok && r.current.None? ==> GetBounds(r) == DefaultBounds)
      && (ok && r.current.Some? && VisualTruthy(visual) ==>
            r.scale == visual.value.scale.GetOr(1.0) && r.offsetX == visual.value.offsetX.GetOr(0.0)
            && r.offsetY == visual.value.offsetY.GetOr(0.0))
      && (!(ok && r.current.Some? && VisualTruthy(visual)) ==>
            r.scale == c.scale && r.offsetX == c.offsetX && r.offsetY == c.offsetY)
  {
  }

  /** An empty visual configuration `{}` keeps the previous scale and offsets. */
  lemma EmptyVisualKeepsSettings(c: Coords, data: LayoutData)
    requires !IsWh1(Some(data))
    ensures var (r, ok) := Activate(c, Some(data), Some(VisualConfig(None, None, None, false)), None);
      ok && IsTmxActive(r) && r.scale == c.scale && r.offsetX == c.offsetX && r.offsetY == c.offsetY
  {
  }

  // ---------------------------------------------------------------------
  // The hand-written WH1 parser: tile ids, navigation values, special cells.
  // ---------------------------------------------------------------------

  /** One entry of the tileset mapping file: its 0-based id, walkability and type. */
  datatype TileDef = TileDef(id: int, name: string, walkable: bool, tileType: string)

  /** Index of the last entry whose 1-based id is `k`, or -1. */
  function LastWithId(tiles: seq<TileDef>, k: int): (j: int)
    ensures -1 <= j < |tiles|
    ensures j >= 0 ==> tiles[j].id + 1 == k
    ensures forall i :: j < i < |tiles| ==> tiles[i].id + 1 != k
  {
    if tiles == [] then -1
    else if tiles[|tiles| - 1].id + 1 == k then |tiles| - 1
    else LastWithId(tiles[..|tiles| - 1], k)
  }

  /**
   * The TMX-id dictionary: each entry is stored under its id plus one, a
   * later entry with the same id replacing an earlier one.
   */
  function TileMap(tiles: seq<TileDef>): (m: map<int, TileDef>)
    ensures forall k :: k in m <==> LastWithId(tiles, k) >= 0
    ensures forall k :: k in m ==> m[k] == tiles[LastWithId(tiles, k)]
  {
    if tiles == [] then map[]
    else TileMap(tiles[..|tiles| - 1])[tiles[|tiles| - 1].id + 1 := tiles[|tiles| - 1]]
  }

  /** Every entry of the mapping file is reachable under its id plus one. */
  lemma {:induction false} TileMapCovers(tiles: seq<TileDef>, i: int)
    requires 0 <= i < |tiles|
    ensures tiles[i].id + 1 in TileMap(tiles)
  {
    assert LastWithId(tiles, tiles[i].id + 1) >= i;
  }

  /** Mapped walkable ids become 1; mapped obstacles and unmapped ids become 0. */
  function NavValue(m: map<int, TileDef>, id: int): (v: int)
    ensures v == 1 <==> id in m && m[id].walkable
    ensures v == 0 <==> !(id in m && m[id].walkable)
  {
    if id in m then (if m[id].walkable then 1 else 0) else 0
  }

  function NavMatrix(m: map<int, TileDef>, rows: seq<seq<int>>): (nav: seq<seq<int>>)
    ensures |nav| == |rows|
    ensures forall y :: 0 <= y < |rows| ==> |nav[y]| == |rows[y]|
    ensures forall y, x :: 0 <= y < |rows| && 0 <= x < |rows[y]| ==> nav[y][x] == NavValue(m, rows[y][x])
  {
    seq(|rows|, (y: int) requires 0 <= y < |rows| =>
      seq(|rows[y]|, (x: int) requires 0 <= x < |rows[y]| => NavValue(m, rows[y][x])))
  }

  /**
   * A navigation cell is 1 exactly when the last mapping entry with id
   * `tile - 1` exists and is walkable; the matrix keeps the CSV's shape.
   */
  lemma NavMatrixSpec(tiles: seq<TileDef>, rows: seq<seq<int>>, y: int, x: int)
    requires 0 <= y < |rows| && 0 <= x < |rows[y]|
    ensures var j := LastWithId(tiles, rows[y][x]);
      NavMatrix(TileMap(tiles), rows)[y][x] == 1 <==> j >= 0 && tiles[j].walkable
  {
  }

  predicate KindAt(m: map<int, TileDef>, id: int, kind: string)
  {
    id in m && m[id].tileType == kind
  }

  /** The manual parser's placement for cell `(x, y)`: pixels are `32 *` the tile position. */
  function PlacementAt(x: int, y: int): Placement
  {
    Placement(Cell(x, y), Cell(x * 32, y * 32))
  }

  function KindRow(m: map<int, TileDef>, row: seq<int>, y: int, x: nat, kind: string): (r: seq<Placement>)
    requires x <= |row|
    decreases |row| - x
    ensures forall p :: p in r ==> x <= p.tile.x < |row| && p == PlacementAt(p.tile.x, y) && KindAt(m, row[p.tile.x], kind)
    ensures forall i :: x <= i < |row| && KindAt(m, row[i], kind) ==> PlacementAt(i, y) in r
  {
    if x == |row| then []
    else (if KindAt(m, row[x], kind) then [PlacementAt(x, y)] else []) + KindRow(m, row, y, x + 1, kind)
  }

  function KindRows(m: map<int, TileDef>, rows: seq<seq<int>>, y: nat, kind: string): (r: seq<Placement>)
    requires y <= |rows|
    decreases |rows| - y
    ensures forall p :: p in r ==>
      && y <= p.tile.y < |rows| && 0 <= p.tile.x < |rows[p.tile.y]|
      && p == PlacementAt(p.tile.x, p.tile.y) && KindAt(m, rows[p.tile.y][p.tile.x], kind)
    ensures forall j, i :: y <= j < |rows| && 0 <= i < |rows[j]| && KindAt(m, rows[j][i], kind) ==>
      PlacementAt(i, j) in r
  {
    if y == |rows| then []
    else KindRow(m, rows[y], y, 0, kind) + KindRows(m, rows, y + 1, kind)
  }

  function Locations(m: map<int, TileDef>, rows: seq<seq<int>>): SpecialLocations
  {
    SpecialLocations(KindRows(m, rows, 0, "depot"), KindRows(m, rows, 0, "inbound"),
                     KindRows(m, rows, 0, "picking"), KindRows(m, rows, 0, "parking"))
  }

  /**
   * A parking placement is exactly a cell whose mapped tile has type
   * `parking`, at 32 pixels per tile.
   */
  lemma ParkingIff(m: map<int, TileDef>, rows: seq<seq<int>>, x: int, y: int)
    requires 0 <= y < |rows| && 0 <= x < |rows[y]|
    ensures PlacementAt(x, y) in Locations(m, rows).parking <==> KindAt(m, rows[y][x], "parking")
  {
  }

  function NonEmptyRows(rows: seq<seq<int>>): (r: seq<seq<int>>)
    ensures forall i :: 0 <= i < |r| ==> r[i] != []
    ensures |r| <= |rows|
  {
    if rows == [] then []
    else (if rows[0] != [] then [rows[0]] else []) + NonEmptyRows(rows[1..])
  }

  /**
   * `_load_wh1_manual` after the file reads: the `width`/`height` attributes
   * (None when the pattern did not match), the CSV rows as integers, and the
   * tileset mapping.  The CSV overrides the declared size; an empty CSV makes
   * the walkable-percentage division fail, so the parse yields None.
   */
  function ManualParse(widthAttr: Option<int>, heightAttr: Option<int>, csvRows: seq<seq<int>>,
                       tiles: seq<TileDef>): (r: Option<LayoutData>)
  {
    if widthAttr.None? || heightAttr.None? then None
    else
      var rows := NonEmptyRows(csvRows);
      var height := |rows|;
      var width := if rows != [] then |rows[0]| else widthAttr.value;
      if width * height == 0 then None
      else
        var m := TileMap(tiles);
        Some(LayoutData(LayoutInfo("WH1_MANUAL_CORRECTO", "layouts/WH1.tmx", width, height, Some(32), Some(32)),
                        Some(NavMatrix(m, rows)), Locations(m, rows)))
  }

  /**
   * The parse succeeds exactly when both attributes matched and the CSV has
   * a non-empty row; the layout then takes its size from the CSV, uses
   * 32-pixel tiles, and its navigation matrix maps every cell through the
   * tileset.
   */
  lemma ManualParseSpec(widthAttr: Option<int>, heightAttr: Option<int>, csvRows: seq<seq<int>>, tiles: seq<TileDef>)
    ensures var r := ManualParse(widthAttr, heightAttr, csvRows, tiles);
      var rows := NonEmptyRows(csvRows);
      && (r.Some? <==> widthAttr.Some? && heightAttr.Some? && rows != [])
      && (r.Some? ==>
            && r.value.info.height == |rows| && r.value.info.width == |rows[0]|
            && TilesPositive(r)
            && r.value.navigation == Some(NavMatrix(TileMap(tiles), rows))
            && |r.value.navigation.value[0]| == r.value.info.width)
  {
    var rows := NonEmptyRows(csvRows);
    if rows != [] {
      PositiveFactor(|rows[0]|, |rows|);
    }
  }
}
