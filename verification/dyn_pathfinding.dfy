/**
 * Pathfinding on a loaded TMX layout: a calibrator that scales the layout
 * onto the 1900x900 screen exactly as the layout is drawn, converts between
 * screen pixels and grid cells, moves blocked endpoints to a nearby walkable
 * cell, and hands the search to an external A* library (a parameter here).
 * A wrapper falls back to the straight route `[start, end]`.
 */
module DynamicPathfinding {
  import opened Wrappers
  import opened Seqs
  import opened PyMath
  import opened Grid
  import NearestSearch

  type Point = (real, real)

  const ScreenWidth: int := 1900
  const ScreenHeight: int := 900
  const MaxVisualTile: int := 25
  /** How far `_find_nearest_walkable` looks, in Chebyshev rings. */
  const SearchRadius: nat := 3

  /**
   * A constructed calibrator.  `hasGrid` is false when the pathfinding
   * library could not be set up, which sends every route to the fallback.
   */
  datatype Calibrator = Calibrator(gridWidth: int, gridHeight: int, tileSize: int,
                                   offsetX: int, offsetY: int,
                                   nav: seq<seq<int>>, hasGrid: bool)

  /** `nav` has `h` rows of `w` values, the shape the layout loader builds. */
  predicate Shaped(nav: seq<seq<int>>, w: int, h: int)
  {
    |nav| == h && forall y :: 0 <= y < |nav| ==> |nav[y]| == w
  }

  /** What a successful construction guarantees. */
  predicate Wf(k: Calibrator)
  {
    && 1 <= k.tileSize <= MaxVisualTile
    && k.gridWidth >= 1 && k.gridHeight >= 1
    && Shaped(k.nav, k.gridWidth, k.gridHeight)
  }

  /** The visual tile size: the largest that fits the drawable area, capped at 25. */
  function TileSize(gw: int, gh: int): int
    requires gw > 0 && gh > 0
  {
    Min(Min((ScreenWidth - 100) / gw, (ScreenHeight - 150) / gh), MaxVisualTile)
  }

  /**
   * The constructor with `_calculate_world_scaling`: the grid size comes from
   * the layout info (50x30 when absent).  A zero width or height fails the
   * integer division, and a tile size of zero fails `1.0 / tile_size`.
   */
  function NewCalibrator(width: Option<int>, height: Option<int>, nav: seq<seq<int>>,
                         libraryAvailable: bool): (r: Result<Calibrator>)
    requires width.GetOr(50) >= 0 && height.GetOr(30) >= 0
    requires Shaped(nav, width.GetOr(50), height.GetOr(30))
    ensures r.Ok? <==> 1 <= width.GetOr(50) <= ScreenWidth - 100 && 1 <= height.GetOr(30) <= ScreenHeight - 150
    ensures r.Ok? ==> Wf(r.value) && r.value.nav == nav && r.value.hasGrid == libraryAvailable
    ensures r.Ok? ==> var k := r.value;
      && k.gridWidth * k.tileSize <= ScreenWidth - 100
      && k.gridHeight * k.tileSize <= ScreenHeight - 150
      && 2 * k.offsetX <= ScreenWidth - k.gridWidth * k.tileSize < 2 * k.offsetX + 2
  {
    var gw := width.GetOr(50);
    var gh := height.GetOr(30);
    if gw == 0 || gh == 0 then Err("ZeroDivisionError: integer division or modulo by zero")
    else
      var ts := TileSize(gw, gh);
      TileSizeFacts(gw, gh);
      if ts == 0 then Err("ZeroDivisionError: float division by zero")
      else
        Ok(Calibrator(gw, gh, ts,
                      FloorDiv(ScreenWidth - gw * ts, 2),
                      FloorDiv(ScreenHeight - gh * ts - 120, 2) + 20,
                      nav, libraryAvailable))
  }

  /** The tile size is positive exactly when the grid fits the drawable area, and then the grid fits at that size. */
  lemma TileSizeFacts(gw: int, gh: int)
    requires gw > 0 && gh > 0
    ensures 0 <= TileSize(gw, gh) <= MaxVisualTile
    ensures TileSize(gw, gh) != 0 <==> gw <= ScreenWidth - 100 && gh <= ScreenHeight - 150
    ensures gw * TileSize(gw, gh) <= ScreenWidth - 100 && gh * TileSize(gw, gh) <= ScreenHeight - 150
  {
    var ts := TileSize(gw, gh);
    DivPositive(ScreenWidth - 100, gw);
    DivPositive(ScreenHeight - 150, gh);
    FitsBelow(ScreenWidth - 100, gw, ts);
    FitsBelow(ScreenHeight - 150, gh, ts);
  }

  lemma DivPositive(a: nat, n: int)
    requires n > 0
    ensures a / n >= 0
    ensures a / n >= 1 <==> n <= a
  {
    assert a == n * (a / n) + a % n;
    if a / n >= 1 {
      MulMono(n, a / n, 1);
    }
  }

  /** A tile no larger than `avail / n` fits `n` times into `avail`. */
  lemma FitsBelow(avail: nat, n: int, t: int)
    requires n > 0 && 0 <= t <= avail / n
    ensures n * t <= avail
  {
    assert n * t <= n * (avail / n) by { MulMono(n, avail / n, t); }
  }

  lemma MulMono(a: nat, b: int, c: int)
    requires c <= b
    ensures a * c <= a * b
  {
    assert a * b - a * c == a * (b - c);
  }

  /** One axis of `world_to_grid` before clamping: `int((w - offset) * (1/tile))`. */
  function AxisToGrid(w: real, offset: int, tile: int): int
    requires tile >= 1
  {
    Trunc((w - offset as real) * (1.0 / tile as real))
  }

  /** `world_to_grid`: the scaled position on each axis, clamped into the grid. */
  function WorldToGrid(k: Calibrator, wx: real, wy: real): (c: Cell)
    requires Wf(k)
    ensures InRect(c, k.gridWidth, k.gridHeight)
    ensures 0 <= AxisToGrid(wx, k.offsetX, k.tileSize) < k.gridWidth ==> c.x == AxisToGrid(wx, k.offsetX, k.tileSize)
    ensures 0 <= AxisToGrid(wy, k.offsetY, k.tileSize) < k.gridHeight ==> c.y == AxisToGrid(wy, k.offsetY, k.tileSize)
  {
    var gx := AxisToGrid(wx, k.offsetX, k.tileSize);
    var gy := AxisToGrid(wy, k.offsetY, k.tileSize);
    Cell(Max(0, Min(gx, k.gridWidth - 1)), Max(0, Min(gy, k.gridHeight - 1)))
  }

  /** `grid_to_world`: a pixel inside the drawn square of the cell (its centre). */
  function GridToWorld(k: Calibrator, g: Cell): (p: (int, int))
    requires Wf(k)
    ensures k.offsetX + g.x * k.tileSize <= p.0 < k.offsetX + g.x * k.tileSize + k.tileSize
    ensures k.offsetY + g.y * k.tileSize <= p.1 < k.offsetY + g.y * k.tileSize + k.tileSize
  {
    (k.offsetX + g.x * k.tileSize + k.tileSize / 2, k.offsetY + g.y * k.tileSize + k.tileSize / 2)
  }

  /** A cell's centre pixel converts back to the cell. */
  lemma GridWorldRoundTrip(k: Calibrator, g: Cell)
    requires Wf(k) && InRect(g, k.gridWidth, k.gridHeight)
    ensures var p := GridToWorld(k, g); WorldToGrid(k, p.0 as real, p.1 as real) == g
  {
    var p := GridToWorld(k, g);
    AxisRoundTrip(k.offsetX, g.x, k.tileSize, p.0);
    AxisRoundTrip(k.offsetY, g.y, k.tileSize, p.1);
    var c := WorldToGrid(k, p.0 as real, p.1 as real);
    assert c.x == g.x && c.y == g.y;
  }

  lemma AxisRoundTrip(off: int, g: int, t: int, p: int)
    requires t >= 1 && g >= 0 && off + g * t <= p < off + g * t + t
    ensures AxisToGrid(p as real, off, t) == g
  {
    var tr := t as real;
    var d := p as real - off as real;
    ProductAsReal(g, t);
    ScaledBetween(g as real, tr, d);
    TruncOfBetween(d * (1.0 / tr), g);
  }

  lemma ProductAsReal(a: int, b: int)
    ensures (a * b) as real == a as real * b as real
  {
  }

  /** Scaling by `1/t` a value between `a * t` and `(a + 1) * t` gives a value between `a` and `a + 1`. */
  lemma ScaledBetween(a: real, t: real, d: real)
    requires t > 0.0 && a * t <= d < a * t + t
    ensures a <= d * (1.0 / t) < a + 1.0
  {
    assert d * (1.0 / t) == d / t;
    DivBelow(a, t, d);
    assert (a + 1.0) * t == a * t + t;
    DivAbove(a + 1.0, t, d);
  }

  lemma TruncOfBetween(v: real, g: nat)
    requires g as real <= v < g as real + 1.0
    ensures Trunc(v) == g
  {
  }

  lemma DivBelow(a: real, t: real, d: real)
    requires t > 0.0 && a * t <= d
    ensures a <= d / t
  {
  }

  lemma DivAbove(a: real, t: real, d: real)
    requires t > 0.0 && d < a * t
    ensures d / t < a
  {
  }

  /** `navigation_matrix[y][x] == 1` for a cell inside the grid. */
  predicate Walkable(k: Calibrator, c: Cell)
    requires Wf(k)
  {
    InRect(c, k.gridWidth, k.gridHeight) && k.nav[c.y][c.x] == 1
  }

  function Centre(k: Calibrator): Cell
  {
    Cell(k.gridWidth / 2, k.gridHeight / 2)
  }

  /**
   * `_find_nearest_walkable`: the cell itself when walkable, else the first
   * walkable cell of rings 1 to 3, else the grid centre.
   */
  function FindNearestWalkable(k: Calibrator, g: Cell): (c: Cell)
    requires Wf(k)
    ensures Walkable(k, g) ==> c == g
    ensures Walkable(k, c) || c == Centre(k)
    ensures InRect(c, k.gridWidth, k.gridHeight)
    ensures c != g && c != Centre(k) ==> Abs(c.x - g.x) <= SearchRadius && Abs(c.y - g.y) <= SearchRadius
  {
    if Walkable(k, g) then g
    else match NearestSearch.Search(g, SearchRadius, (c: Cell) => Walkable(k, c))
      case Some(c) => c
      case None => Centre(k)
  }

  /** When some walkable cell lies within three rings, the result is a walkable cell within three rings. */
  lemma NearestFindsNearby(k: Calibrator, g: Cell, w: Cell)
    requires Wf(k) && Walkable(k, w)
    requires Abs(w.x - g.x) <= SearchRadius && Abs(w.y - g.y) <= SearchRadius
    ensures var c := FindNearestWalkable(k, g);
      Walkable(k, c) && Abs(c.x - g.x) <= SearchRadius && Abs(c.y - g.y) <= SearchRadius
  {
    if !Walkable(k, g) {
      var ok := (c: Cell) => Walkable(k, c);
      if NearestSearch.Search(g, SearchRadius, ok).None? {
        NearestSearch.SearchNoneComplete(g, SearchRadius, ok, w);
      }
    }
  }

  /** The grid cells the route is searched between. */
  function RouteEnds(k: Calibrator, start: Point, end: Point): (e: (Cell, Cell))
    requires Wf(k)
    ensures InRect(e.0, k.gridWidth, k.gridHeight) && InRect(e.1, k.gridWidth, k.gridHeight)
    ensures (Walkable(k, e.0) || e.0 == Centre(k)) && (Walkable(k, e.1) || e.1 == Centre(k))
  {
    (FindNearestWalkable(k, WorldToGrid(k, start.0, start.1)),
     FindNearestWalkable(k, WorldToGrid(k, end.0, end.1)))
  }

  function ToPoint(p: (int, int)): Point { (p.0 as real, p.1 as real) }

  /**
   * `calculate_route_enhanced`: without the library the straight route;
   * otherwise the library's path between the adjusted ends, converted to
   * pixels, or None when it found no path.  The library's search is
   * `finder`.
   */
  function CalculateRouteEnhanced(k: Calibrator, start: Point, end: Point,
                                  finder: (Cell, Cell) -> seq<Cell>): (r: Option<seq<Point>>)
    requires Wf(k)
    ensures !k.hasGrid ==> r == Some([start, end])
    ensures k.hasGrid ==> var (s, e) := RouteEnds(k, start, end);
      && (r.None? <==> finder(s, e) == [])
      && (r.Some? ==> |r.value| == |finder(s, e)|
                      && forall i :: 0 <= i < |r.value| ==> r.value[i] == ToPoint(GridToWorld(k, finder(s, e)[i])))
  {
    if !k.hasGrid then Some([start, end])
    else
      var (s, e) := RouteEnds(k, start, end);
      var path := finder(s, e);
      if path == [] then None
      else Some(seq(|path|, (i: int) requires 0 <= i < |path| => ToPoint(GridToWorld(k, path[i]))))
  }

  /** `DynamicPathfindingIntegration.calculate_route`: None without a calibrator. */
  function IntegrationRoute(calibrator: Option<Calibrator>, start: Point, end: Point,
                            finder: (Cell, Cell) -> seq<Cell>): (r: Option<seq<Point>>)
    requires calibrator.Some? ==> Wf(calibrator.value)
    ensures calibrator.None? ==> r.None?
    ensures r.Some? ==> |r.value| > 0
  {
    match calibrator
    case None => None
    case Some(k) => CalculateRouteEnhanced(k, start, end, finder)
  }

  /**
   * The wrapper's `calculate_route`: the straight route when uninitialised
   * or when the layout route is missing or empty, so never an empty list.
   */
  function WrapperRoute(initialized: bool, calibrator: Option<Calibrator>, start: Point, end: Point,
                        finder: (Cell, Cell) -> seq<Cell>): (r: seq<Point>)
    requires calibrator.Some? ==> Wf(calibrator.value)
    ensures |r| > 0
    ensures !initialized ==> r == [start, end]
    ensures r != [start, end] ==> initialized && IntegrationRoute(calibrator, start, end, finder) == Some(r)
  {
    if !initialized then [start, end]
    else
      match IntegrationRoute(calibrator, start, end, finder)
      case Some(route) => if |route| > 0 then route else [start, end]
      case None => [start, end]
  }

  /** The special locations of the loaded layout, as pixel positions. */
  datatype Special = Special(depot: seq<Point>, inbound: seq<Point>, picking: seq<Point>)

  /** The first layout point, or the configured position when the layout has none. */
  function FirstOr(points: seq<Point>, fallback: Point): (r: Point)
    ensures r in points || (points == [] && r == fallback)
    ensures points != [] ==> r == points[0]
  {
    if points != [] then points[0] else fallback
  }

  /** `get_depot_position`; `configured` is the `POS_DEPOT` setting. */
  function GetDepotPosition(layout: Option<Special>, configured: Point): (r: Point)
    ensures layout.None? ==> r == configured
    ensures layout.Some? ==> r == FirstOr(layout.value.depot, configured)
  {
    match layout
    case None => configured
    case Some(s) => FirstOr(s.depot, configured)
  }

  /** `get_inbound_position`; `configured` is the `POS_INBOUND` setting. */
  function GetInboundPosition(layout: Option<Special>, configured: Point): (r: Point)
    ensures layout.None? ==> r == configured
    ensures layout.Some? ==> r == FirstOr(layout.value.inbound, configured)
  {
    match layout
    case None => configured
    case Some(s) => FirstOr(s.inbound, configured)
  }

  /** `get_picking_locations`: empty without a layout. */
  function GetPickingLocations(layout: Option<Special>): (r: seq<Point>)
    ensures layout.None? ==> r == []
    ensures layout.Some? ==> r == layout.value.picking
  {
    match layout
    case None => []
    case Some(s) => s.picking
  }
}
