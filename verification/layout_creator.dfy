/**
 * The custom layout generator: four tile patterns for a `width`x`height`
 * map, the CSV text of the navigation layer, and the locations written into
 * the map.  Tile values are TMX gids of the generator's own tileset, in
 * which gid 2 (a rack) is the only blocked tile the patterns use.
 */
module LayoutCreator {
  import opened Wrappers
  import opened Seqs
  import Strs
  import CL = CustomLayout

  /** `range(n)` is empty for a negative `n`. */
  function Len(n: int): nat { if n < 0 then 0 else n }

  /** The generator's tile values. */
  const Floor: nat := 1
  const Rack: nat := 2
  const Corridor: nat := 7

  predicate Border(x: int, y: int, w: int, h: int)
  {
    y == 0 || y == h - 1 || x == 0 || x == w - 1
  }

  /** Basic: a walkable border and rack rows on every `y % 4 == 2`, two cells in from the sides. */
  function BasicTile(x: nat, y: nat, w: int, h: int): (t: nat)
    ensures Border(x, y, w, h) ==> t == Floor
    ensures t == Rack <==> !Border(x, y, w, h) && y % 4 == 2 && 2 <= x <= w - 3
    ensures t == Floor || t == Rack
  {
    if Border(x, y, w, h) then Floor
    else if y % 4 == 2 && 2 <= x <= w - 3 then Rack
    else Floor
  }

  /** Warehouse: two-cell outer aisles and rack pairs in every group of four columns. */
  function WarehouseTile(x: nat, y: nat, w: int, h: int): (t: nat)
    ensures y < 2 || y > h - 3 || x < 2 || x > w - 3 ==> t == Floor
    ensures t == Rack <==> !(y < 2 || y > h - 3 || x < 2 || x > w - 3)
                           && ((x - 2) % 4 == 1 || (x - 2) % 4 == 2) && 3 <= y <= h - 4
    ensures t == Floor || t == Rack
  {
    if y < 2 || y > h - 3 || x < 2 || x > w - 3 then Floor
    else if ((x - 2) % 4 == 1 || (x - 2) % 4 == 2) && 3 <= y <= h - 4 then Rack
    else Floor
  }

  /** Corridors: a main corridor across the middle row and column, racks in 2x2 blocks elsewhere. */
  function CorridorsTile(x: nat, y: nat, w: int, h: int): (t: nat)
    ensures y == FloorDivNat(h) || x == FloorDivNat(w) ==> t == Corridor
    ensures t == Rack <==> y != FloorDivNat(h) && x != FloorDivNat(w) && !Border(x, y, w, h)
                           && (x % 3 == 1 || x % 3 == 2) && (y % 3 == 1 || y % 3 == 2)
    ensures t == Floor || t == Rack || t == Corridor
  {
    if y == FloorDivNat(h) then Corridor
    else if x == FloorDivNat(w) then Corridor
    else if Border(x, y, w, h) then Floor
    else if (x % 3 == 1 || x % 3 == 2) && (y % 3 == 1 || y % 3 == 2) then Rack
    else Floor
  }

  /** `n // 2`, floor division (only non-negative sizes produce cells). */
  function FloorDivNat(n: int): int
  {
    if n >= 0 then n / 2 else -((-n + 1) / 2)
  }

  datatype Pattern = Basic | Warehouse | Corridors | Empty

  /** The pattern a name selects; unknown names give the empty pattern. */
  function PatternOf(name: string): (p: Pattern)
    ensures p == Empty <==> name !in {"basic", "warehouse", "corridors"}
  {
    if name == "basic" then Basic
    else if name == "warehouse" then Warehouse
    else if name == "corridors" then Corridors
    else Empty
  }

  function TileOf(p: Pattern, x: nat, y: nat, w: int, h: int): nat
  {
    match p
    case Basic => BasicTile(x, y, w, h)
    case Warehouse => WarehouseTile(x, y, w, h)
    case Corridors => CorridorsTile(x, y, w, h)
    case Empty => Floor
  }

  /** The matrix of a pattern: `height` rows of `width` tiles. */
  function CreatePattern(name: string, w: int, h: int): (m: seq<seq<nat>>)
    ensures |m| == Len(h) && forall y :: 0 <= y < |m| ==> |m[y]| == Len(w)
    ensures forall y, x :: 0 <= y < |m| && 0 <= x < Len(w) ==> m[y][x] == TileOf(PatternOf(name), x, y, w, h)
  {
    var p := PatternOf(name);
    seq(Len(h), (y: int) requires 0 <= y < Len(h) => seq(Len(w), (x: int) requires 0 <= x < Len(w) => TileOf(p, x, y, w, h)))
  }

  /** The empty pattern, and any unknown name, is all floor. */
  lemma EmptyAllFloor(name: string, w: int, h: int)
    requires name !in {"basic", "warehouse", "corridors"}
    ensures var m := CreatePattern(name, w, h);
      forall y, x :: 0 <= y < |m| && 0 <= x < |m[y]| ==> m[y][x] == Floor
  {
  }

  /** The tiles of the generator's tileset (ids 0 to 6, gids 1 to 7), as written into the map. */
  const Tileset: CL.Mapping := Some([
    CL.TileProps(0, Some(true), Some("floor"), None, None),
    CL.TileProps(1, Some(false), Some("rack"), None, None),
    CL.TileProps(2, Some(true), Some("picking"), None, None),
    CL.TileProps(3, Some(true), Some("depot"), None, None),
    CL.TileProps(4, Some(true), Some("inbound"), None, None),
    CL.TileProps(5, Some(false), Some("wall"), None, None),
    CL.TileProps(6, Some(true), Some("corridor"), None, None)])

  /** Read with its own tileset, a generated cell blocks navigation exactly when it is a rack. */
  lemma PatternWalkability(name: string, w: int, h: int, x: nat, y: nat)
    requires y < Len(h) && x < Len(w)
    ensures var t := CreatePattern(name, w, h)[y][x];
      CL.InterpretTmxTile(Tileset, t).walkable <==> t != Rack
  {
    var t := CreatePattern(name, w, h)[y][x];
    assert t == Floor || t == Rack || t == Corridor;
    TileWalkability(t);
  }

  lemma TileWalkability(t: nat)
    requires t == Floor || t == Rack || t == Corridor
    ensures CL.InterpretTmxTile(Tileset, t).walkable <==> t != Rack
  {
    if t == Floor {
      assert CL.PropsById(Tileset, 0).value.id == 0;
    } else if t == Rack {
      assert CL.PropsById(Tileset, 1).value.id == 1;
    } else {
      assert CL.PropsById(Tileset, 6).value.id == 6;
    }
  }

  /** One CSV row: the tiles separated by commas. */
  function CsvRow(row: seq<nat>): string
  {
    Strs.Join(seq(|row|, (i: int) requires 0 <= i < |row| => Strs.NatToStr(row[i])), ",")
  }

  /** The navigation layer's CSV: rows separated by a comma and a newline. */
  function CsvData(m: seq<seq<nat>>): string
  {
    Strs.Join(seq(|m|, (i: int) requires 0 <= i < |m| => CsvRow(m[i])), ",\n")
  }

  predicate IsNewline(c: char) { c == '\n' }

  /** A string without newlines. */
  predicate OneLine(s: string)
  {
    forall i :: 0 <= i < |s| ==> s[i] != '\n'
  }

  lemma {:induction false} JoinOneLine(parts: seq<string>, sep: string)
    requires forall i :: 0 <= i < |parts| ==> OneLine(parts[i])
    requires OneLine(sep)
    ensures OneLine(Strs.Join(parts, sep))
    decreases |parts|
  {
    if |parts| > 1 {
      JoinOneLine(parts[1..], sep);
    }
  }

  lemma CsvRowOneLine(row: seq<nat>)
    ensures OneLine(CsvRow(row))
  {
    var parts := seq(|row|, (i: int) requires 0 <= i < |row| => Strs.NatToStr(row[i]));
    forall i | 0 <= i < |parts| ensures OneLine(parts[i]) {
      assert forall j :: 0 <= j < |parts[i]| ==> Strs.IsDigit(parts[i][j]);
    }
    JoinOneLine(parts, ",");
  }

  /** The CSV has exactly one line per matrix row. */
  lemma CsvLines(m: seq<seq<nat>>)
    requires |m| >= 1
    ensures Count(CsvData(m), IsNewline) == |m| - 1
  {
    var rows := seq(|m|, (i: int) requires 0 <= i < |m| => CsvRow(m[i]));
    forall i | 0 <= i < |rows| ensures OneLine(rows[i]) {
      CsvRowOneLine(m[i]);
    }
    JoinLines(rows);
  }

  /** Joining one-line parts with `",\n"` puts a newline between each pair. */
  lemma {:induction false} JoinLines(parts: seq<string>)
    requires |parts| >= 1 && forall i :: 0 <= i < |parts| ==> OneLine(parts[i])
    ensures Count(Strs.Join(parts, ",\n"), IsNewline) == |parts| - 1
    decreases |parts|
  {
    OneLineCount(parts[0]);
    if |parts| > 1 {
      JoinLines(parts[1..]);
      var rest := Strs.Join(parts[1..], ",\n");
      assert Strs.Join(parts, ",\n") == parts[0] + ",\n" + rest;
      CountAppend(parts[0], ",\n", IsNewline);
      CountAppend(parts[0] + ",\n", rest, IsNewline);
      assert Count(",\n", IsNewline) == 1 by {
        assert ",\n"[..1] == ",";
      }
    }
  }

  lemma {:induction false} OneLineCount(s: string)
    requires OneLine(s)
    ensures Count(s, IsNewline) == 0
    decreases |s|
  {
    if |s| > 0 {
      OneLineCount(s[..|s| - 1]);
    }
  }

  /** The object positions written into the map, in pixels of 32-pixel tiles. */
  datatype Locations = Locations(depot: (int, int), inbound: (int, int), picking: seq<(int, int)>)

  function MapLocations(w: int, h: int): (l: Locations)
    ensures l.depot == ((w - 2) * 32, (h - 2) * 32)
    ensures |l.picking| == 2
  {
    Locations(((w - 2) * 32, (h - 2) * 32), (32, 32), [(128, 128), (256, 256)])
  }

  /** The depot sits on the tile diagonally inside the bottom-right corner. */
  lemma DepotInsideBorder(w: int, h: int)
    requires w >= 3 && h >= 3
    ensures var d := MapLocations(w, h).depot;
      d.0 / 32 == w - 2 && d.1 / 32 == h - 2 && 0 < d.0 / 32 < w - 1 && 0 < d.1 / 32 < h - 1
  {
  }
}
