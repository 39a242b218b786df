/**
 * The TMX-to-screen converter: a 30x30-tile layout is drawn centred in the
 * window with at most 25-pixel tiles, and TMX pixel positions are mapped
 * linearly onto that drawn area.
 */
module ScreenConverter {
  import opened Wrappers
  import opened Seqs
  import opened PyMath
  import opened Dicts
  import opened Json
  import TmxCoords

  /** The grid size the converter assumes for every layout. */
  const LayoutTiles: int := 30
  const MaxTile: int := 25

  datatype LayoutArea = LayoutArea(offsetX: int, offsetY: int, width: int, height: int, tileSize: int)

  datatype Converter = Converter(screenWidth: Option<int>, screenHeight: Option<int>,
                                 area: Option<LayoutArea>, tmxBounds: Option<TmxCoords.Rect>, initialized: bool)

  const Uninitialized: Converter := Converter(None, None, None, None, false)

  /**
   * The drawn area for a window: the tile is the largest that fits a 30x30
   * grid into the window less 100 pixels across and 150 down, capped at 25;
   * the grid is centred across, and centred down in the window less 120
   * pixels, then moved 20 pixels down.
   */
  function AreaFor(w: int, h: int): (a: LayoutArea)
    ensures a.tileSize <= MaxTile
    ensures a.width == LayoutTiles * a.tileSize && a.height == LayoutTiles * a.tileSize
    ensures a.width <= w - 100 && a.height <= h - 150
    ensures 2 * a.offsetX <= w - a.width <= 2 * a.offsetX + 1
    ensures 2 * (a.offsetY - 20) <= h - a.height - 120 <= 2 * (a.offsetY - 20) + 1
  {
    var ts := Min(Min(FloorDiv(w - 100, LayoutTiles), FloorDiv(h - 150, LayoutTiles)), MaxTile);
    var tw := LayoutTiles * ts;
    var th := LayoutTiles * ts;
    LayoutArea(FloorDiv(w - tw, 2), FloorDiv(h - th - 120, 2) + 20, tw, th, ts)
  }

  /** The drawn area keeps a margin of at least 50 pixels on the left and right. */
  lemma AreaMargins(w: int, h: int)
    ensures var a := AreaFor(w, h);
      a.offsetX >= 50 && a.offsetX + a.width <= w - 50 && a.offsetY >= 35
  {
  }

  /**
   * `initialize_for_screen`: the screen and drawn area are always recorded;
   * the converter becomes initialised, with the authority's bounds, only
   * while a TMX layout is active.
   */
  function InitializeForScreen(k: Converter, w: int, h: int, coords: TmxCoords.Coords): (r: (Converter, bool))
    ensures r.0.screenWidth == Some(w) && r.0.screenHeight == Some(h) && r.0.area == Some(AreaFor(w, h))
    ensures r.1 <==> TmxCoords.IsTmxActive(coords)
    ensures r.1 ==> r.0.initialized && r.0.tmxBounds == Some(TmxCoords.GetBounds(coords))
    ensures !r.1 ==> r.0.initialized == k.initialized && r.0.tmxBounds == k.tmxBounds
  {
    var k1 := k.(screenWidth := Some(w), screenHeight := Some(h), area := Some(AreaFor(w, h)));
    if TmxCoords.IsTmxActive(coords) then
      (k1.(tmxBounds := Some(TmxCoords.GetBounds(coords)), initialized := true), true)
    else (k1, false)
  }

  /** A converter that has been initialised has an area and bounds. */
  predicate Wf(k: Converter)
  {
    k.initialized ==> k.area.Some? && k.tmxBounds.Some?
  }

  lemma InitializeWf(k: Converter, w: int, h: int, coords: TmxCoords.Coords)
    requires Wf(k)
    ensures Wf(InitializeForScreen(k, w, h, coords).0)
  {
  }

  /** One axis of the linear map, `int(offset + v / max * size)`. */
  function MapAxis(v: real, max: int, offset: int, size: int): (s: int)
    requires max != 0
  {
    Trunc(AxisPoint(v, max, offset, size))
  }

  /** The exact position `offset + v / max * size` before truncation. */
  function AxisPoint(v: real, max: int, offset: int, size: int): real
    requires max != 0
  {
    offset as real + (v / max as real) * size as real
  }

  /**
   * `convert_tmx_to_screen`: the identity until initialised; afterwards the
   * linear map of `[0, max]` onto the drawn area.  A zero maximum divides by
   * zero, modelled as `Err`.
   */
  function ConvertTmxToScreen(k: Converter, x: real, y: real): (r: Result<(real, real)>)
    requires Wf(k)
    ensures !k.initialized ==> r == Ok((x, y))
    ensures k.initialized ==> (r.Err? <==> k.tmxBounds.value.maxX == 0 || k.tmxBounds.value.maxY == 0)
    ensures k.initialized && r.Ok? ==>
      && r.value.0 == MapAxis(x, k.tmxBounds.value.maxX, k.area.value.offsetX, k.area.value.width) as real
      && r.value.1 == MapAxis(y, k.tmxBounds.value.maxY, k.area.value.offsetY, k.area.value.height) as real
  {
    if !k.initialized then Ok((x, y))
    else
      var b := k.tmxBounds.value;
      var a := k.area.value;
      if b.maxX == 0 || b.maxY == 0 then Err("ZeroDivisionError: division by zero")
      else Ok((MapAxis(x, b.maxX, a.offsetX, a.width) as real, MapAxis(y, b.maxY, a.offsetY, a.height) as real))
  }

  /**
   * A position inside the TMX world lands inside the drawn area on that
   * axis; the two ends of the world land on the two edges.
   */
  lemma MapAxisInside(v: real, max: int, offset: int, size: int)
    requires max > 0 && size >= 0 && 0.0 <= v <= max as real
    ensures offset <= MapAxis(v, max, offset, size) <= offset + size
  {
    var m, s := max as real, size as real;
    FracBound(v, m, s);
    ShiftedTrunc(offset, size, (v / m) * s);
    assert AxisPoint(v, max, offset, size) == offset as real + (v / m) * s;
  }

  lemma ShiftedTrunc(offset: int, size: int, t: real)
    requires 0.0 <= t <= size as real
    ensures offset <= Trunc(offset as real + t) <= offset + size
  {
    TruncBetween(offset as real + t, offset, offset + size);
  }

  /** The two ends of the world land on the two edges of the drawn area. */
  lemma MapAxisEnds(max: int, offset: int, size: int)
    requires max > 0
    ensures MapAxis(0.0, max, offset, size) == offset
    ensures MapAxis(max as real, max, offset, size) == offset + size
  {
    var m := max as real;
    assert 0.0 / m == 0.0;
    assert m / m == 1.0;
    assert offset as real + 1.0 * size as real == (offset + size) as real;
  }

  lemma FracBound(v: real, m: real, s: real)
    requires m > 0.0 && s >= 0.0 && 0.0 <= v <= m
    ensures 0.0 <= (v / m) * s <= s
  {
    var f := v / m;
    assert 0.0 <= f <= 1.0 by { assert f * m == v; }
    assert f * s <= 1.0 * s;
  }

  /** Truncation keeps a real between two integers between them. */
  lemma TruncBetween(v: real, lo: int, hi: int)
    requires lo as real <= v <= hi as real
    ensures lo <= Trunc(v) <= hi
  {
  }

  /** The same linear map is monotone: a position further right is drawn no further left. */
  lemma MapAxisMonotone(u: real, v: real, max: int, offset: int, size: int)
    requires max > 0 && size >= 0 && u <= v
    ensures MapAxis(u, max, offset, size) <= MapAxis(v, max, offset, size)
  {
    AxisPointMono(u, v, max, offset, size);
    TruncMono(AxisPoint(u, max, offset, size), AxisPoint(v, max, offset, size));
  }

  lemma AxisPointMono(u: real, v: real, max: int, offset: int, size: int)
    requires max > 0 && size >= 0 && u <= v
    ensures AxisPoint(u, max, offset, size) <= AxisPoint(v, max, offset, size)
  {
    var m := max as real;
    DivMono(u, v, m);
    ScaleMono(u / m, v / m, size as real);
  }

  lemma ScaleMono(a: real, b: real, c: real)
    requires a <= b && c >= 0.0
    ensures a * c <= b * c
  {
    assert b * c - a * c == (b - a) * c;
  }

  lemma DivMono(u: real, v: real, m: real)
    requires m > 0.0 && u <= v
    ensures u / m <= v / m
  {
    assert (v / m) - (u / m) == (v - u) / m;
  }

  lemma TruncMono(a: real, b: real)
    requires a <= b
    ensures Trunc(a) <= Trunc(b)
  {
    if a >= 0.0 {
      FloorMono(a, b);
    } else if b < 0.0 {
      FloorMono(-b, -a);
    } else {
      assert Trunc(a) <= 0;
    }
  }

  lemma FloorMono(a: real, b: real)
    requires a <= b
    ensures Floor(a) <= Floor(b)
  {
  }

  /** `get_layout_bounds_on_screen`: None until initialised, else the drawn area. */
  function GetLayoutBoundsOnScreen(k: Converter): (r: Option<TmxCoords.Rect>)
    requires Wf(k)
    ensures r.None? <==> !k.initialized
    ensures r.Some? ==> var a := k.area.value;
      r.value.maxX - r.value.minX == a.width && r.value.maxY - r.value.minY == a.height
      && r.value.minX == a.offsetX && r.value.minY == a.offsetY
  {
    if !k.initialized then None
    else
      var a := k.area.value;
      Some(TmxCoords.Rect(a.offsetX, a.offsetY, a.offsetX + a.width, a.offsetY + a.height))
  }

  /** One operator record with its position converted and the original kept under `tmx_x`/`tmx_y`. */
  function ConvertRecord(k: Converter, data: Fields): (r: Result<Fields>)
    requires Wf(k)
  {
    var tx := GetOr(data, "x", Num(0.0));
    var ty := GetOr(data, "y", Num(0.0));
    if !k.initialized then Ok(Relocated(data, tx, ty, tx, ty))
    else if !tx.Num? || !ty.Num? then Err("TypeError: unsupported operand type")
    else match ConvertTmxToScreen(k, tx.n, ty.n)
      case Err(e) => Err(e)
      case Ok((sx, sy)) => Ok(Relocated(data, Num(sx), Num(sy), tx, ty))
  }

  /** The record with `x`, `y`, `tmx_x` and `tmx_y` written in that order. */
  function Relocated(data: Fields, x: Json.Value, y: Json.Value, tx: Json.Value, ty: Json.Value): (r: Fields)
    ensures r.vals == data.vals["x" := x]["y" := y]["tmx_x" := tx]["tmx_y" := ty]
  {
    Set(Set(Set(Set(data, "x", x), "y", y), "tmx_x", tx), "tmx_y", ty)
  }

  /**
   * A converted record keeps every other field, stores the screen position
   * under `x`/`y` and the original one (0 when absent) under `tmx_x`/`tmx_y`.
   */
  lemma ConvertRecordSpec(k: Converter, data: Fields)
    requires Wf(k)
    ensures var r := ConvertRecord(k, data);
      r.Ok? ==>
        && (forall f :: f in data.vals && f !in {"x", "y", "tmx_x", "tmx_y"} ==> f in r.value.vals && r.value.vals[f] == data.vals[f])
        && r.value.vals.Keys == data.vals.Keys + {"x", "y", "tmx_x", "tmx_y"}
        && r.value.vals["tmx_x"] == GetOr(data, "x", Num(0.0))
        && r.value.vals["tmx_y"] == GetOr(data, "y", Num(0.0))
        && (!k.initialized ==> r.value.vals["x"] == GetOr(data, "x", Num(0.0)))
  {
    var tx := GetOr(data, "x", Num(0.0));
    var ty := GetOr(data, "y", Num(0.0));
    if !k.initialized {
      RelocatedKeeps(data.vals, tx, ty, tx, ty);
    } else if tx.Num? && ty.Num? && ConvertTmxToScreen(k, tx.n, ty.n).Ok? {
      var p := ConvertTmxToScreen(k, tx.n, ty.n).value;
      RelocatedKeeps(data.vals, Num(p.0), Num(p.1), tx, ty);
    }
  }

  lemma RelocatedKeeps(m: map<string, Json.Value>, x: Json.Value, y: Json.Value, tx: Json.Value, ty: Json.Value)
    ensures var n := m["x" := x]["y" := y]["tmx_x" := tx]["tmx_y" := ty];
      && (forall f :: f in m && f !in {"x", "y", "tmx_x", "tmx_y"} ==> f in n && n[f] == m[f])
      && n.Keys == m.Keys + {"x", "y", "tmx_x", "tmx_y"}
      && n["x"] == x && n["tmx_x"] == tx && n["tmx_y"] == ty
  {
  }

  function ConvertAll(k: Converter, ops: Dict<string, Fields>, i: nat, acc: Dict<string, Fields>): (r: Result<Dict<string, Fields>>)
    requires Wf(k) && i <= |ops.keys|
    requires acc.keys == ops.keys[..i]
    decreases |ops.keys| - i
    ensures r.Ok? ==> r.value.keys == ops.keys
    ensures r.Ok? ==> forall id :: id in r.value.vals ==>
      || (id in acc.vals && r.value.vals[id] == acc.vals[id])
      || (id in ops.vals && ConvertRecord(k, ops.vals[id]) == Ok(r.value.vals[id]))
  {
    if i == |ops.keys| then
      assert ops.keys[..i] == ops.keys;
      Ok(acc)
    else
      var id := ops.keys[i];
      Dicts.HasIffKey(ops, id);
      match ConvertRecord(k, ops.vals[id])
      case Err(e) => Err(e)
      case Ok(d) =>
        ConvertAllStep(ops, i, acc, d);
        ConvertAll(k, ops, i + 1, Set(acc, id, d))
  }

  /** The next key is new to the accumulator, and adding it extends the key prefix by one. */
  lemma ConvertAllStep<V>(ops: Dict<string, Fields>, i: nat, acc: Dict<string, V>, d: V)
    requires i < |ops.keys| && acc.keys == ops.keys[..i]
    ensures ops.keys[i] !in acc.vals
    ensures Set(acc, ops.keys[i], d).keys == ops.keys[..i + 1]
    ensures Set(acc, ops.keys[i], d).vals == acc.vals[ops.keys[i] := d]
  {
    Dicts.HasIffKey(acc, ops.keys[i]);
    NoDupPrefixNotIn(ops.keys, i);
    assert ops.keys[..i + 1] == ops.keys[..i] + [ops.keys[i]];
  }

  lemma NoDupPrefixNotIn<T>(s: seq<T>, i: nat)
    requires NoDup(s) && i < |s|
    ensures s[i] !in s[..i]
  {
    assert forall j :: 0 <= j < i ==> s[..i][j] == s[j];
  }

  /**
   * `convert_operator_coordinates`: initialises the converter first if
   * needed, then converts every operator record, keeping the operators and
   * their order.
   */
  function ConvertOperatorCoordinates(k: Converter, ops: Dict<string, Fields>, w: int, h: int,
                                      coords: TmxCoords.Coords): (r: (Converter, Result<Dict<string, Fields>>))
    requires Wf(k)
    ensures Wf(r.0)
    ensures k.initialized ==> r.0 == k
    ensures r.1.Ok? ==> r.1.value.keys == ops.keys
    ensures r.1.Ok? ==> forall id :: id in r.1.value.vals ==>
      id in ops.vals && ConvertRecord(r.0, ops.vals[id]) == Ok(r.1.value.vals[id])
  {
    var k1 := if k.initialized then k else InitializeForScreen(k, w, h, coords).0;
    (k1, ConvertAll(k1, ops, 0, Empty()))
  }
}
