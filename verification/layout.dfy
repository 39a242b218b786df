/**
 The TMX layout manager: grid/pixel conversion on a map of `gridWidth` ×
 `gridHeight` tiles of `tileWidth` × `tileHeight` pixels, the collision
 matrix merged from the tile layers, walkability, neighbours and picking
 points. The TMX file itself is given as its parsed layers.
 */
module LayoutManager {
  import opened Wrappers
  import opened Seqs
  import opened Grid
  import opened PyMath
  import opened Json
  import opened Dicts
  import opened Strs

  /** The properties dictionary of the tile at a cell; `None` where there is no tile. */
  type TileProps = Option<Fields>

  /** A visible layer: tile layers carry a row-major grid of tiles, object groups carry none. */
  datatype Layer = TileLayer(tiles: seq<seq<TileProps>>) | ObjectLayer

  datatype RawLayout = RawLayout(gridWidth: nat, gridHeight: nat, tileWidth: int, tileHeight: int,
                                 layers: seq<Layer>)

  /** A loaded map: tiles have a positive pixel size. */
  type Layout = l: RawLayout | l.tileWidth > 0 && l.tileHeight > 0 witness RawLayout(0, 0, 1, 1, [])

  function PixelWidth(l: Layout): int { l.gridWidth * l.tileWidth }
  function PixelHeight(l: Layout): int { l.gridHeight * l.tileHeight }

  // ---------------------------------------------------------------- conversion

  /** `grid_to_pixel`: the centre of the tile, `g * tile + tile // 2` per axis. */
  function GridToPixel(l: Layout, g: Cell): (p: Cell)
    ensures g.x * l.tileWidth <= p.x < (g.x + 1) * l.tileWidth
    ensures g.y * l.tileHeight <= p.y < (g.y + 1) * l.tileHeight
  {
    Cell(g.x * l.tileWidth + FloorDiv(l.tileWidth, 2), g.y * l.tileHeight + FloorDiv(l.tileHeight, 2))
  }

  /** `max(0, min(v, n - 1))`: an index clamped into `[0, n - 1]`, and 0 on an empty axis. */
  function ClampIndex(v: int, n: nat): (r: int)
    ensures n > 0 ==> 0 <= r < n
    ensures n == 0 ==> r == 0
    ensures 0 <= v < n ==> r == v
    ensures v < 0 ==> r == 0
    ensures n > 0 && v >= n ==> r == n - 1
  {
    Max(0, Min(v, n - 1))
  }

  /** `pixel_to_grid`: the tile containing the pixel (floor division), clamped to the map. */
  function PixelToGrid(l: Layout, p: Cell): (g: Cell)
    ensures l.gridWidth > 0 && l.gridHeight > 0 ==> InRect(g, l.gridWidth, l.gridHeight)
    ensures 0 <= p.x < PixelWidth(l) ==> g.x * l.tileWidth <= p.x < (g.x + 1) * l.tileWidth
    ensures 0 <= p.y < PixelHeight(l) ==> g.y * l.tileHeight <= p.y < (g.y + 1) * l.tileHeight
  {
    Cell(AxisCell(p.x, l.tileWidth, l.gridWidth), AxisCell(p.y, l.tileHeight, l.gridHeight))
  }

  /** One axis of `pixel_to_grid`: the tile index of `v`, clamped into `[0, n - 1]`. */
  function AxisCell(v: int, tile: int, n: nat): (q: int)
    requires tile > 0
    ensures n > 0 ==> 0 <= q < n
    ensures 0 <= v < n * tile ==> q * tile <= v < (q + 1) * tile
  {
    var f := FloorDiv(v, tile);
    assert 0 <= v < n * tile ==> 0 <= f < n by {
      if 0 <= v < n * tile {
        CellOfPixel(v, tile, f, n);
      }
    }
    ClampIndex(f, n)
  }

  /** A positive multiple has a positive factor. */
  lemma PositiveFactor(a: int, b: int)
    requires a > 0 && a * b > 0
    ensures b > 0
  {
  }

  /** A pixel inside an axis of `n` tiles lies in a tile numbered `0 .. n - 1`. */
  lemma CellOfPixel(v: int, tile: int, q: int, n: nat)
    requires tile > 0 && 0 <= v < n * tile
    requires tile * q <= v < tile * q + tile
    ensures 0 <= q < n
  {
    PositiveFactor(tile, q + 1);
    PositiveFactor(tile, n - q);
  }

  /** The tile index is the unique `q` with `q * tile <= v < (q + 1) * tile`. */
  lemma FloorDivUnique(v: int, tile: int, q: int)
    requires tile > 0 && q * tile <= v < (q + 1) * tile
    ensures FloorDiv(v, tile) == q
  {
    var f := FloorDiv(v, tile);
    PositiveFactor(tile, f - q + 1);
    PositiveFactor(tile, q - f + 1);
  }

  /** Round trip: converting a cell of the map to its pixel centre and back gives the cell. */
  lemma PixelToGridOfGridToPixel(l: Layout, g: Cell)
    requires InRect(g, l.gridWidth, l.gridHeight)
    ensures PixelToGrid(l, GridToPixel(l, g)) == g
  {
    var p := GridToPixel(l, g);
    FloorDivUnique(p.x, l.tileWidth, g.x);
    FloorDivUnique(p.y, l.tileHeight, g.y);
  }

  /** Round trip the other way: a pixel of the map lands in the tile whose centre is in the same tile. */
  lemma GridToPixelOfPixelToGrid(l: Layout, p: Cell)
    requires 0 <= p.x < PixelWidth(l) && 0 <= p.y < PixelHeight(l)
    ensures PixelToGrid(l, GridToPixel(l, PixelToGrid(l, p))) == PixelToGrid(l, p)
  {
    var g := PixelToGrid(l, p);
    CellOfPixel(p.x, l.tileWidth, g.x, l.gridWidth);
    CellOfPixel(p.y, l.tileHeight, g.y, l.gridHeight);
    PixelToGridOfGridToPixel(l, g);
  }

  // ---------------------------------------------------------------- collision matrix

  /** The tile at a cell, or none where the layer has no data there (the lookup raising and being skipped). */
  function TileAt(layer: Layer, x: int, y: int): TileProps
  {
    if layer.TileLayer? && 0 <= y < |layer.tiles| && 0 <= x < |layer.tiles[y]| then layer.tiles[y][x] else None
  }

  /** Python truthiness of the property dictionary: an empty dict is no tile. */
  predicate HasTile(t: TileProps)
  {
    t.Some? && |t.value.keys| > 0
  }

  /** `walkable` defaults to the string "true"; strings compare case-insensitively, other values by truthiness. */
  predicate TileWalkable(props: Fields)
  {
    var w := GetOr(props, "walkable", Str("true"));
    if w.Str? then Lower(w.s) == "true" else Truthy(w)
  }

  /** Some layer has a tile at the cell whose `walkable` property is false. */
  predicate MarkedBlocked(layers: seq<Layer>, x: int, y: int)
  {
    exists i :: 0 <= i < |layers| && HasTile(TileAt(layers[i], x, y)) && !TileWalkable(TileAt(layers[i], x, y).value)
  }

  /** The cell after the layers `0 .. n - 1` have been applied, starting walkable. */
  function CellAfter(layers: seq<Layer>, x: int, y: int, n: nat): (r: bool)
    requires n <= |layers|
    ensures !r <==> exists i :: 0 <= i < n && HasTile(TileAt(layers[i], x, y)) && !TileWalkable(TileAt(layers[i], x, y).value)
  {
    if n == 0 then true
    else
      var t := TileAt(layers[n - 1], x, y);
      if HasTile(t) && !TileWalkable(t.value) then false else CellAfter(layers, x, y, n - 1)
  }

  /**
   `_build_collision_matrix`: all cells start walkable; each tile layer in
   turn blocks the cells where its tile says `walkable` is false.
   */
  function BuildCollisionMatrix(l: Layout): (m: seq<seq<bool>>)
    ensures |m| == l.gridHeight
    ensures forall y :: 0 <= y < |m| ==> |m[y]| == l.gridWidth
  {
    seq(l.gridHeight, y => seq(l.gridWidth, x => CellAfter(l.layers, x, y, |l.layers|)))
  }

  /** A cell is blocked iff some layer marks it non-walkable; with no such tile it stays walkable. */
  lemma BlockedIffMarked(l: Layout, x: nat, y: nat)
    requires x < l.gridWidth && y < l.gridHeight
    ensures !BuildCollisionMatrix(l)[y][x] <==> MarkedBlocked(l.layers, x, y)
  {
  }

  // ---------------------------------------------------------------- queries

  /** `is_walkable`: false off the map, else the collision matrix. */
  function IsWalkable(l: Layout, c: Cell): (r: bool)
    ensures r <==> InRect(c, l.gridWidth, l.gridHeight) && !MarkedBlocked(l.layers, c.x, c.y)
  {
    if c.x < 0 || c.x >= l.gridWidth then false
    else if c.y < 0 || c.y >= l.gridHeight then false
    else BuildCollisionMatrix(l)[c.y][c.x]
  }

  /** N, E, S, W. */
  const CardinalOffsets: seq<Cell> := [Cell(0, -1), Cell(1, 0), Cell(0, 1), Cell(-1, 0)]
  /** NE, SE, SW, NW. */
  const DiagonalOffsets: seq<Cell> := [Cell(1, -1), Cell(1, 1), Cell(-1, 1), Cell(-1, -1)]

  function Offsets(includeDiagonals: bool): (r: seq<Cell>)
    ensures |r| == if includeDiagonals then 8 else 4
  {
    CardinalOffsets + (if includeDiagonals then DiagonalOffsets else [])
  }

  function Shift(c: Cell, d: Cell): Cell
  {
    Cell(c.x + d.x, c.y + d.y)
  }

  /** The walkable targets of the offsets `k ..`, in offset order. */
  function WalkableShifts(l: Layout, c: Cell, offs: seq<Cell>, k: nat): (r: seq<Cell>)
    requires k <= |offs|
    ensures |r| <= |offs| - k
    ensures forall i :: 0 <= i < |r| ==> IsWalkable(l, r[i]) && exists j :: k <= j < |offs| && r[i] == Shift(c, offs[j])
    ensures forall j :: k <= j < |offs| && IsWalkable(l, Shift(c, offs[j])) ==> Shift(c, offs[j]) in r
    decreases |offs| - k
  {
    if k == |offs| then []
    else
      var rest := WalkableShifts(l, c, offs, k + 1);
      if IsWalkable(l, Shift(c, offs[k])) then [Shift(c, offs[k])] + rest else rest
  }

  /** The offsets are exactly the king moves, or the rook moves of length one without diagonals. */
  lemma OffsetsExact(includeDiagonals: bool, d: Cell)
    ensures d in Offsets(includeDiagonals) <==>
              if includeDiagonals then d != Cell(0, 0) && Abs(d.x) <= 1 && Abs(d.y) <= 1
              else Abs(d.x) + Abs(d.y) == 1
  {
  }

  /** `n` is a move from `c`: a king move with diagonals, a rook step of one without. */
  predicate Step(c: Cell, n: Cell, includeDiagonals: bool)
  {
    if includeDiagonals then Adjacent(c, n) else Manhattan(c, n) == 1
  }

  /**
   `get_neighbors`: exactly the walkable cells among the four cardinal
   offsets, plus the four diagonals when asked, in that order.
   */
  function GetNeighbors(l: Layout, c: Cell, includeDiagonals: bool): (r: seq<Cell>)
    ensures |r| <= if includeDiagonals then 8 else 4
    ensures forall n :: n in r ==> IsWalkable(l, n) && Step(c, n, includeDiagonals)
    ensures forall n :: IsWalkable(l, n) && Step(c, n, includeDiagonals) ==> n in r
  {
    var r := WalkableShifts(l, c, Offsets(includeDiagonals), 0);
    NeighborsSound(l, c, includeDiagonals, r);
    NeighborsComplete(l, c, includeDiagonals, r);
    r
  }

  lemma NeighborsSound(l: Layout, c: Cell, includeDiagonals: bool, r: seq<Cell>)
    requires r == WalkableShifts(l, c, Offsets(includeDiagonals), 0)
    ensures forall n :: n in r ==> Step(c, n, includeDiagonals)
  {
    var offs := Offsets(includeDiagonals);
    forall n | n in r
      ensures Step(c, n, includeDiagonals)
    {
      var i :| 0 <= i < |r| && r[i] == n;
      var j :| 0 <= j < |offs| && r[i] == Shift(c, offs[j]);
      ShiftStep(c, offs[j], includeDiagonals);
    }
  }

  /** Every offset leads to a step. */
  lemma ShiftStep(c: Cell, d: Cell, includeDiagonals: bool)
    requires d in Offsets(includeDiagonals)
    ensures Step(c, Shift(c, d), includeDiagonals)
  {
    OffsetsExact(includeDiagonals, d);
  }

  lemma NeighborsComplete(l: Layout, c: Cell, includeDiagonals: bool, r: seq<Cell>)
    requires r == WalkableShifts(l, c, Offsets(includeDiagonals), 0)
    ensures forall n :: IsWalkable(l, n) && Step(c, n, includeDiagonals) ==> n in r
  {
    var offs := Offsets(includeDiagonals);
    forall n | IsWalkable(l, n) && Step(c, n, includeDiagonals)
      ensures n in r
    {
      var d := Cell(n.x - c.x, n.y - c.y);
      OffsetsExact(includeDiagonals, d);
      var j :| 0 <= j < |offs| && offs[j] == d;
      assert n == Shift(c, offs[j]);
    }
  }

  /** The walkable cells in row-major order (`y` outer, `x` inner). */
  function WalkableCells(l: Layout): (r: seq<Cell>)
    ensures forall c :: c in r <==> IsWalkable(l, c)
  {
    RowsFrom(l, 0)
  }

  function RowsFrom(l: Layout, y: nat): (r: seq<Cell>)
    requires y <= l.gridHeight
    ensures forall c :: c in r <==> y <= c.y && IsWalkable(l, c)
    decreases l.gridHeight - y
  {
    if y == l.gridHeight then [] else RowCells(l, y, 0) + RowsFrom(l, y + 1)
  }

  function RowCells(l: Layout, y: nat, x: nat): (r: seq<Cell>)
    requires y < l.gridHeight && x <= l.gridWidth
    ensures forall c :: c in r <==> c.y == y && x <= c.x && IsWalkable(l, c)
    decreases l.gridWidth - x
  {
    if x == l.gridWidth then []
    else
      var rest := RowCells(l, y, x + 1);
      RowCellsCons(l, y, x, rest);
      if IsWalkable(l, Cell(x, y)) then [Cell(x, y)] + rest else rest
  }

  lemma RowCellsCons(l: Layout, y: nat, x: nat, rest: seq<Cell>)
    requires forall c :: c in rest <==> c.y == y && x + 1 <= c.x && IsWalkable(l, c)
    ensures forall c :: c in (if IsWalkable(l, Cell(x, y)) then [Cell(x, y)] + rest else rest) <==>
      c.y == y && x <= c.x && IsWalkable(l, c)
  {
    forall c ensures c in (if IsWalkable(l, Cell(x, y)) then [Cell(x, y)] + rest else rest) <==>
      c.y == y && x <= c.x && IsWalkable(l, c)
    {
      if c.y == y && c.x == x {
        assert c == Cell(x, y);
      }
    }
  }

  /**
   `get_random_walkable_point`: `random.choice` over the walkable cells,
   the choice given as `pick`; nothing when no cell is walkable.
   */
  function GetRandomWalkablePoint(l: Layout, pick: nat): (r: Option<Cell>)
    ensures r.None? <==> forall c :: !IsWalkable(l, c)
    ensures r.Some? ==> IsWalkable(l, r.value)
  {
    var cells := WalkableCells(l);
    if |cells| == 0 then None
    else
      assert cells[pick % |cells|] in cells;
      Some(cells[pick % |cells|])
  }

  // ---------------------------------------------------------------- picking points

  datatype PickingPoint = PickingPoint(grid: Cell, pixel: Cell, name: string)

  function PickName(props: Fields, count: nat): string
  {
    var n := GetOr(props, "name", Null);
    if n.Str? then n.s else "Pick-" + NatToStr(count + 1)
  }

  predicate IsPickTile(t: TileProps)
  {
    HasTile(t) && GetOr(t.value, "type", Str("")) == Str("picking_location")
  }

  /** The picking points of one row of one layer, from column `x` on. */
  function PickRow(l: Layout, layer: Layer, y: nat, x: nat, acc: seq<PickingPoint>): (r: seq<PickingPoint>)
    requires x <= l.gridWidth
    ensures acc <= r
    ensures forall i :: |acc| <= i < |r| ==>
              && r[i].grid.y == y && x <= r[i].grid.x < l.gridWidth
              && IsPickTile(TileAt(layer, r[i].grid.x, y)) && r[i].pixel == GridToPixel(l, r[i].grid)
    decreases l.gridWidth - x
  {
    if x == l.gridWidth then acc
    else
      var t := TileAt(layer, x, y);
      var acc' := if IsPickTile(t) then acc + [PickingPoint(Cell(x, y), GridToPixel(l, Cell(x, y)), PickName(t.value, |acc|))] else acc;
      PickRow(l, layer, y, x + 1, acc')
  }

  function PickLayer(l: Layout, layer: Layer, y: nat, acc: seq<PickingPoint>): (r: seq<PickingPoint>)
    requires y <= l.gridHeight
    ensures acc <= r
    ensures forall i :: |acc| <= i < |r| ==>
              && InRect(r[i].grid, l.gridWidth, l.gridHeight) && y <= r[i].grid.y
              && IsPickTile(TileAt(layer, r[i].grid.x, r[i].grid.y)) && r[i].pixel == GridToPixel(l, r[i].grid)
    decreases l.gridHeight - y
  {
    if y == l.gridHeight then acc
    else PickLayer(l, layer, y + 1, PickRow(l, layer, y, 0, acc))
  }

  function PickLayers(l: Layout, k: nat, acc: seq<PickingPoint>): (r: seq<PickingPoint>)
    requires k <= |l.layers|
    ensures acc <= r
    ensures forall i :: |acc| <= i < |r| ==>
              && InRect(r[i].grid, l.gridWidth, l.gridHeight)
              && (exists j :: k <= j < |l.layers| && IsPickTile(TileAt(l.layers[j], r[i].grid.x, r[i].grid.y)))
              && r[i].pixel == GridToPixel(l, r[i].grid)
    decreases |l.layers| - k
  {
    if k == |l.layers| then acc
    else
      var m := PickLayer(l, l.layers[k], 0, acc);
      var r := PickLayers(l, k + 1, m);
      assert forall i :: |acc| <= i < |m| ==> r[i] == m[i];
      r
  }

  /**
   `_extract_picking_points`: every tile typed "picking_location", layer by
   layer in row-major order, at its tile centre, named by its `name`
   property or `Pick-<n>` after the points found so far.
   */
  function ExtractPickingPoints(l: Layout): (r: seq<PickingPoint>)
    ensures forall i :: 0 <= i < |r| ==> InRect(r[i].grid, l.gridWidth, l.gridHeight)
    ensures forall i :: 0 <= i < |r| ==> exists j :: 0 <= j < |l.layers| && IsPickTile(TileAt(l.layers[j], r[i].grid.x, r[i].grid.y))
    ensures forall i :: 0 <= i < |r| ==> r[i].pixel == GridToPixel(l, r[i].grid)
  {
    PickLayers(l, 0, [])
  }
}
