/**
 * The drop-in pathfinding adapter: a 0/1 walkability matrix loaded from a
 * TMX layer, generated from the rack layout, or a built-in 15x7 default;
 * a uniform scale between world pixels and cells; endpoints moved off
 * obstacles; and the external A* search as a parameter.
 */
module TiledAdapter {
  import opened Wrappers
  import opened Seqs
  import opened PyMath
  import opened Grid
  import Strs
  import NearestSearch

  type Point = (real, real)

  const SearchRadius: nat := 3

  /**
   * A loaded adapter.  Every loader installs a grid, so `hasGrid` is true
   * after construction; the route function still handles its absence.
   */
  datatype Adapter = Adapter(source: string, matrix: seq<seq<int>>, width: int, height: int,
                             scale: real, offsetX: real, offsetY: real, hasGrid: bool)

  /** `matrix` has `height` rows of `width` values and the scale is positive. */
  predicate Wf(a: Adapter)
  {
    && a.width >= 0 && a.height >= 0 && a.scale > 0.0
    && |a.matrix| == a.height
    && (forall y :: 0 <= y < |a.matrix| ==> |a.matrix[y]| == a.width)
  }

  const DefaultMatrix: seq<seq<int>> := [
    [1,1,1,1,1,1,1,1,1,1,1,1,1,1,1],
    [1,0,0,1,0,0,1,0,0,1,0,0,1,0,1],
    [1,0,0,1,0,0,1,0,0,1,0,0,1,0,1],
    [1,1,1,1,1,1,1,1,1,1,1,1,1,1,1],
    [1,0,0,1,0,0,1,0,0,1,0,0,1,0,1],
    [1,0,0,1,0,0,1,0,0,1,0,0,1,0,1],
    [1,1,1,1,1,1,1,1,1,1,1,1,1,1,1]
  ]

  /** `_load_default_matrix`: the 15x7 test matrix, unit scale, no offset. */
  function LoadDefault(source: string): (a: Adapter)
    ensures Wf(a) && a.width == 15 && a.height == 7 && a.hasGrid
    ensures a.scale == 1.0 && a.offsetX == 0.0 && a.offsetY == 0.0
    ensures a.matrix[0][0] == 1 && a.matrix[1][1] == 0
  {
    Adapter(source, DefaultMatrix, |DefaultMatrix[0]|, |DefaultMatrix|, 1.0, 0.0, 0.0, true)
  }

  /**
   * One cell of the rack layout: the three top and three bottom rows are
   * aisles, and within every group of four columns the middle two are racks.
   */
  function RackCell(x: int, y: int, gh: int): (v: int)
    ensures v == 0 <==> (3 <= y <= gh - 4 && (x % 4 == 1 || x % 4 == 2))
    ensures v == 0 || v == 1
  {
    if y < 3 || y > gh - 4 then 1
    else if x % 4 == 1 || x % 4 == 2 then 0
    else 1
  }

  function RackMatrix(gw: nat, gh: nat): (m: seq<seq<int>>)
    ensures |m| == gh && forall y :: 0 <= y < gh ==> |m[y]| == gw
    ensures forall y, x :: 0 <= y < gh && 0 <= x < gw ==> m[y][x] == RackCell(x, y, gh)
  {
    seq(gh, (y: int) => seq(gw, (x: int) => RackCell(x, y, gh)))
  }

  /**
   * `_load_from_current_system`: four cells per rack column and 30 rows,
   * scaled so the grid spans the screen width.  Missing settings, or zero
   * columns (the scale divides by the width), fall back to the default.
   */
  function LoadFromCurrentSystem(source: string, rackColumns: Option<nat>, screenWidth: nat): (a: Adapter)
    requires screenWidth > 0
    ensures Wf(a) && a.hasGrid
    ensures rackColumns.Some? && rackColumns.value > 0 ==>
      && a.width == 4 * rackColumns.value && a.height == 30
      && a.scale == screenWidth as real / (4 * rackColumns.value) as real
      && a.matrix == RackMatrix(4 * rackColumns.value, 30)
    ensures rackColumns.None? || rackColumns.value == 0 ==> a == LoadDefault(source)
  {
    match rackColumns
    case None => LoadDefault(source)
    case Some(cols) =>
      var gw := 4 * cols;
      if gw == 0 then LoadDefault(source)
      else Adapter(source, RackMatrix(gw, 30), gw, 30, screenWidth as real / gw as real, 0.0, 0.0, true)
  }

  /**
   * What the TMX library reports for a tile: no tile object, or a tile whose
   * properties may carry a `walkable` string.
   */
  datatype TileInfo = NoTile | TileProps(walkable: Option<string>)

  /** The navigation value of one gid of the data layer. */
  function TmxCell(gid: int, lookup: int -> TileInfo): (v: int)
    ensures gid == 0 ==> v == 0
    ensures v == 1 <==> gid != 0 && match lookup(gid)
      case NoTile => gid == 1
      case TileProps(w) => Strs.Lower(w.GetOr("false")) == "true"
    ensures v == 0 || v == 1
  {
    if gid == 0 then 0
    else match lookup(gid)
      case TileProps(w) => if Strs.Lower(w.GetOr("false")) == "true" then 1 else 0
      case NoTile => if gid == 1 then 1 else 0
  }

  /** A parsed TMX map: its size and the first layer that has tile data. */
  datatype TmxMap = TmxMap(width: nat, height: nat, layer: Option<seq<seq<int>>>, lookup: int -> TileInfo)

  /** The layer covers every cell `layer[y][x]` the loader reads. */
  predicate Covers(layer: seq<seq<int>>, w: nat, h: nat)
  {
    |layer| >= h && forall y :: 0 <= y < h ==> |layer[y]| >= w
  }

  /**
   * `_load_from_tmx`: without the library, without a data layer, or with a
   * layer too short for the map (an index error), the default matrix.
   */
  function LoadFromTmx(source: string, tmx: Option<TmxMap>): (a: Adapter)
    ensures Wf(a) && a.hasGrid && a.scale == 1.0
    ensures tmx.Some? && tmx.value.layer.Some? && Covers(tmx.value.layer.value, tmx.value.width, tmx.value.height) ==>
      var t := tmx.value;
      && a.width == t.width && a.height == t.height
      && forall y, x :: 0 <= y < t.height && 0 <= x < t.width ==> a.matrix[y][x] == TmxCell(t.layer.value[y][x], t.lookup)
    ensures !(tmx.Some? && tmx.value.layer.Some? && Covers(tmx.value.layer.value, tmx.value.width, tmx.value.height)) ==>
      a == LoadDefault(source)
  {
    match tmx
    case None => LoadDefault(source)
    case Some(t) =>
      match t.layer
      case None => LoadDefault(source)
      case Some(layer) =>
        if !Covers(layer, t.width, t.height) then LoadDefault(source)
        else
          var m := seq(t.height, (y: int) requires 0 <= y < t.height =>
            seq(t.width, (x: int) requires 0 <= x < t.width => TmxCell(layer[y][x], t.lookup)));
          Adapter(source, m, t.width, t.height, 1.0, 0.0, 0.0, true)
  }

  /** `_load_pathfinding_data`: the loader picked by the configured source name. */
  function Load(source: string, warehouse: Option<TmxMap>, torture: Option<TmxMap>,
                rackColumns: Option<nat>, screenWidth: nat): (a: Adapter)
    requires screenWidth > 0
    ensures Wf(a) && a.hasGrid && a.source == source
    ensures source == "tmx_warehouse" ==> a == LoadFromTmx(source, warehouse)
    ensures source == "tmx_torture" ==> a == LoadFromTmx(source, torture)
    ensures source == "current_system" ==> a == LoadFromCurrentSystem(source, rackColumns, screenWidth)
    ensures source !in {"tmx_warehouse", "tmx_torture", "current_system"} ==> a == LoadDefault(source)
  {
    if source == "tmx_warehouse" then LoadFromTmx(source, warehouse)
    else if source == "tmx_torture" then LoadFromTmx(source, torture)
    else if source == "current_system" then LoadFromCurrentSystem(source, rackColumns, screenWidth)
    else LoadDefault(source)
  }

  /** `world_to_grid`: `int((w - offset) / scale)`, clamped into the grid. */
  function WorldToGrid(a: Adapter, wx: real, wy: real): (c: Cell)
    requires Wf(a)
    ensures a.width >= 1 && a.height >= 1 ==> InRect(c, a.width, a.height)
    ensures var gx := Trunc((wx - a.offsetX) / a.scale); 0 <= gx < a.width ==> c.x == gx
    ensures var gy := Trunc((wy - a.offsetY) / a.scale); 0 <= gy < a.height ==> c.y == gy
  {
    var gx := Trunc((wx - a.offsetX) / a.scale);
    var gy := Trunc((wy - a.offsetY) / a.scale);
    Cell(Max(0, Min(gx, a.width - 1)), Max(0, Min(gy, a.height - 1)))
  }

  /** `grid_to_world`: the cell's corner, `g * scale + offset`. */
  function GridToWorld(a: Adapter, g: Cell): (p: Point)
    requires Wf(a)
    ensures (p.0 - a.offsetX) / a.scale == g.x as real && (p.1 - a.offsetY) / a.scale == g.y as real
  {
    (g.x as real * a.scale + a.offsetX, g.y as real * a.scale + a.offsetY)
  }

  /** A cell's world corner converts back to the cell. */
  lemma GridWorldRoundTrip(a: Adapter, g: Cell)
    requires Wf(a) && InRect(g, a.width, a.height)
    ensures var p := GridToWorld(a, g); WorldToGrid(a, p.0, p.1) == g
  {
  }

  predicate Walkable(a: Adapter, c: Cell)
    requires Wf(a)
  {
    InRect(c, a.width, a.height) && a.matrix[c.y][c.x] == 1
  }

  /**
   * `_find_nearest_walkable`: the first walkable cell of rings 1 to 3 (the
   * cell itself is not looked at), else the cell unchanged.
   */
  function FindNearestWalkable(a: Adapter, g: Cell): (c: Cell)
    requires Wf(a)
    ensures c == g || (Walkable(a, c) && Abs(c.x - g.x) <= SearchRadius && Abs(c.y - g.y) <= SearchRadius)
  {
    match NearestSearch.Search(g, SearchRadius, (c: Cell) => Walkable(a, c))
    case Some(c) => c
    case None => g
  }

  /** The cell comes back unchanged only when nothing within three rings is walkable, or it was found itself. */
  lemma NearestUnchanged(a: Adapter, g: Cell, w: Cell)
    requires Wf(a) && Walkable(a, w) && Abs(w.x - g.x) <= SearchRadius && Abs(w.y - g.y) <= SearchRadius
    ensures Walkable(a, FindNearestWalkable(a, g))
  {
    var ok := (c: Cell) => Walkable(a, c);
    if NearestSearch.Search(g, SearchRadius, ok).None? {
      NearestSearch.SearchNoneComplete(g, SearchRadius, ok, w);
    }
  }

  /** The search ends: the clamped cells, each replaced when it is an obstacle. */
  function RouteEnds(a: Adapter, from: Point, to: Point): (e: (Cell, Cell))
    requires Wf(a) && a.width >= 1 && a.height >= 1
    ensures InRect(e.0, a.width, a.height) && InRect(e.1, a.width, a.height)
    ensures var s := WorldToGrid(a, from.0, from.1); Walkable(a, s) ==> e.0 == s
    ensures var t := WorldToGrid(a, to.0, to.1); Walkable(a, t) ==> e.1 == t
  {
    var s := WorldToGrid(a, from.0, from.1);
    var t := WorldToGrid(a, to.0, to.1);
    (if Walkable(a, s) then s else FindNearestWalkable(a, s),
     if Walkable(a, t) then t else FindNearestWalkable(a, t))
  }

  /**
   * `calcular_ruta_realista`: the library's path between the adjusted ends
   * in world coordinates; the straight route `[from, to]` without a grid, on
   * an empty grid (the node lookup fails) or when no path is found.
   */
  function CalcularRutaRealista(a: Adapter, from: Point, to: Point,
                                finder: (Cell, Cell) -> seq<Cell>): (r: seq<Point>)
    requires Wf(a)
    ensures |r| > 0
    ensures !a.hasGrid || a.width == 0 || a.height == 0 ==> r == [from, to]
    ensures a.hasGrid && a.width >= 1 && a.height >= 1 ==>
      var (s, e) := RouteEnds(a, from, to);
      var path := finder(s, e);
      && (path == [] ==> r == [from, to])
      && (path != [] ==> |r| == |path| && forall i :: 0 <= i < |r| ==> r[i] == GridToWorld(a, path[i]))
  {
    if !a.hasGrid || a.width == 0 || a.height == 0 then [from, to]
    else
      var (s, e) := RouteEnds(a, from, to);
      var path := finder(s, e);
      if path == [] then [from, to]
      else seq(|path|, (i: int) requires 0 <= i < |path| => GridToWorld(a, path[i]))
  }

  datatype Stats = Stats(totalCells: int, walkableCells: int, obstacleCells: int, walkablePercentage: real)

  function RowSums(m: seq<seq<int>>): (r: seq<int>)
    ensures |r| == |m| && forall y :: 0 <= y < |m| ==> r[y] == Sum(m[y])
  {
    seq(|m|, (y: int) requires 0 <= y < |m| => Sum(m[y]))
  }

  /** `sum(sum(row) for row in matrix)`. */
  function Walkables(m: seq<seq<int>>): int
  {
    Sum(RowSums(m))
  }

  /**
   * `obtener_estadisticas`: nothing without a matrix; a zero-width matrix
   * fails the percentage division.
   */
  function ObtenerEstadisticas(a: Adapter): (r: Result<Option<Stats>>)
    requires Wf(a)
    ensures a.matrix == [] <==> r == Ok(None)
    ensures r.Ok? && r.value.Some? ==> var s := r.value.value;
      && s.totalCells == a.width * a.height
      && s.walkableCells + s.obstacleCells == s.totalCells
      && s.walkableCells == Walkables(a.matrix)
    ensures r.Err? <==> a.matrix != [] && a.width == 0
  {
    if a.matrix == [] then Ok(None)
    else
      var total := a.width * a.height;
      var walkable := Walkables(a.matrix);
      if total == 0 then Err("ZeroDivisionError: division by zero")
      else Ok(Some(Stats(total, walkable, total - walkable, walkable as real / total as real * 100.0)))
  }

  /** A 0/1 matrix. */
  predicate Binary(m: seq<seq<int>>)
  {
    forall y, x :: 0 <= y < |m| && 0 <= x < |m[y]| ==> m[y][x] == 0 || m[y][x] == 1
  }

  /** On a 0/1 matrix the walkable count lies between none and all of the cells. */
  lemma {:induction false} WalkablesBounded(m: seq<seq<int>>, w: nat)
    requires Binary(m) && forall y :: 0 <= y < |m| ==> |m[y]| == w
    ensures 0 <= Walkables(m) <= w * |m|
  {
    if m != [] {
      var init := m[..|m| - 1];
      WalkablesBounded(init, w);
      assert RowSums(m) == RowSums(init) + [Sum(m[|m| - 1])];
      SumAppend(RowSums(init), [Sum(m[|m| - 1])]);
      RowBounded(m[|m| - 1]);
      assert w * |m| == w * |init| + w;
    }
  }

  lemma {:induction false} RowBounded(row: seq<int>)
    requires forall x :: 0 <= x < |row| ==> row[x] == 0 || row[x] == 1
    ensures 0 <= Sum(row) <= |row|
  {
    if row != [] {
      RowBounded(row[..|row| - 1]);
    }
  }

  /** The loaders only produce 0/1 matrices, so the statistics are percentages. */
  lemma StatsPercentage(a: Adapter)
    requires Wf(a) && Binary(a.matrix)
    ensures var r := ObtenerEstadisticas(a);
      r.Ok? && r.value.Some? ==> 0.0 <= r.value.value.walkablePercentage <= 100.0
  {
    WalkablesBounded(a.matrix, a.width);
    var r := ObtenerEstadisticas(a);
    if r.Ok? && r.value.Some? {
      var s := r.value.value;
      assert a.width * |a.matrix| == s.totalCells;
      PercentBounded(s.walkableCells, s.totalCells);
    }
  }

  lemma PercentBounded(w: int, t: int)
    requires 0 <= w <= t && t > 0
    ensures 0.0 <= w as real / t as real * 100.0 <= 100.0
  {
    assert w as real / t as real <= 1.0;
  }

  /** Every loader's matrix is 0/1. */
  lemma LoadBinary(source: string, warehouse: Option<TmxMap>, torture: Option<TmxMap>,
                   rackColumns: Option<nat>, screenWidth: nat)
    requires screenWidth > 0
    ensures Binary(Load(source, warehouse, torture, rackColumns, screenWidth).matrix)
  {
  }
}
