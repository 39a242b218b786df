/**
 * The simulation's data manager: it reads the picking locations and the
 * outbound staging areas from the warehouse workbook, falls back to seven
 * staging areas along the bottom edge, and checks them against the grid.
 * A workbook sheet is its rows of cell values; opening the workbook and
 * building the layout manager are parameters.
 */
module DataManager {
  import opened Wrappers
  import opened Seqs
  import opened Sorting
  import Strs

  // ---------------------------------------------------------------- cell values

  /** A cell value; numeric cells hold integers. */
  datatype Val = IntVal(n: int) | TextVal(s: string) | NoneVal

  /** Python truthiness of a cell. */
  predicate Truthy(v: Val)
  {
    match v
    case IntVal(n) => n != 0
    case TextVal(s) => s != ""
    case NoneVal => false
  }

  predicate AllDigits(s: string)
  {
    |s| > 0 && forall i :: 0 <= i < |s| ==> Strs.IsDigit(s[i])
  }

  /** `str(n)` for an integer of any sign. */
  function IntToStr(n: int): string
  {
    if n < 0 then "-" + Strs.NatToStr(-n) else Strs.NatToStr(n)
  }

  /** `int(v)`: None where Python raises (a non-numeric string, or None). */
  function PyInt(v: Val): (r: Option<int>)
    ensures v.IntVal? ==> r == Some(v.n)
    ensures v.NoneVal? ==> r.None?
  {
    match v
    case IntVal(n) => Some(n)
    case NoneVal => None
    case TextVal(s) =>
      if AllDigits(s) then Some(Strs.StrToNat(s))
      else if |s| > 1 && s[0] == '-' && AllDigits(s[1..]) then Some(0 - Strs.StrToNat(s[1..]) as int)
      else if |s| > 1 && s[0] == '+' && AllDigits(s[1..]) then Some(Strs.StrToNat(s[1..]))
      else None
  }

  /** A number written out as text reads back as itself. */
  lemma PyIntRoundTrip(n: int)
    ensures PyInt(TextVal(IntToStr(n))) == Some(n)
  {
    var s := IntToStr(n);
    if n < 0 {
      var d := Strs.NatToStr(-n);
      assert s == "-" + d;
      assert s[1..] == d;
      assert !AllDigits(s) by { assert !Strs.IsDigit(s[0]); }
      assert AllDigits(d);
      Strs.NatToStrRoundTrip(-n);
    } else {
      assert AllDigits(s);
      Strs.NatToStrRoundTrip(n);
    }
  }

  /** `str(v)`. */
  function StrOf(v: Val): string
  {
    match v
    case IntVal(n) => IntToStr(n)
    case TextVal(s) => s
    case NoneVal => "None"
  }

  // ---------------------------------------------------------------- rows as dictionaries

  /**
   * The dictionary key a header cell gives: a non-empty text.  A numeric
   * header can never equal a column name looked up by text, so it is dropped.
   */
  function HeaderOf(v: Val): Option<string>
  {
    if v.TextVal? && v.s != "" then Some(v.s) else None
  }

  type Headers = seq<Option<string>>

  function HeadersOf(row: seq<Val>): (h: Headers)
    ensures |h| == |row|
  {
    seq(|row|, (i: int) requires 0 <= i < |row| => HeaderOf(row[i]))
  }

  /** The value the row dictionary holds for `key`: the last column (below `n`) with that header. */
  function LastMatch(h: Headers, row: seq<Val>, key: string, n: nat): (r: Option<Val>)
    requires n <= |h| && n <= |row|
    ensures r.None? <==> forall i :: 0 <= i < n ==> h[i] != Some(key)
    ensures r.Some? ==> exists i :: 0 <= i < n && h[i] == Some(key) && row[i] == r.value
                                    && forall j :: i < j < n ==> h[j] != Some(key)
  {
    if n == 0 then None
    else if h[n - 1] == Some(key) then Some(row[n - 1])
    else LastMatch(h, row, key, n - 1)
  }

  /** `row_dict.get(key, default)`: only columns the row reaches are in the dictionary. */
  function Get(h: Headers, row: seq<Val>, key: string, default: Val): Val
  {
    LastMatch(h, row, key, Min(|h|, |row|)).GetOr(default)
  }

  /** A data row is used when it is non-empty and its first cell is truthy. */
  predicate Usable(row: seq<Val>)
  {
    |row| > 0 && Truthy(row[0])
  }

  /** The first of the first ten rows holding a cell that satisfies `p`. */
  function HeaderRow(sheet: seq<seq<Val>>, p: Val -> bool): (r: Option<nat>)
    ensures r.Some? ==> r.value < 10 && r.value < |sheet| && exists j :: 0 <= j < |sheet[r.value]| && p(sheet[r.value][j])
    ensures r.Some? ==> forall i :: 0 <= i < r.value ==> forall j :: 0 <= j < |sheet[i]| ==> !p(sheet[i][j])
    ensures r.None? ==> forall i :: 0 <= i < 10 && i < |sheet| ==> forall j :: 0 <= j < |sheet[i]| ==> !p(sheet[i][j])
  {
    HeaderRowFrom(sheet, p, 0)
  }

  function HeaderRowFrom(sheet: seq<seq<Val>>, p: Val -> bool, i: nat): (r: Option<nat>)
    ensures r.Some? ==> i <= r.value < 10 && r.value < |sheet| && exists j :: 0 <= j < |sheet[r.value]| && p(sheet[r.value][j])
    ensures r.Some? ==> forall k :: i <= k < r.value ==> forall j :: 0 <= j < |sheet[k]| ==> !p(sheet[k][j])
    ensures r.None? ==> forall k :: i <= k < 10 && k < |sheet| ==> forall j :: 0 <= j < |sheet[k]| ==> !p(sheet[k][j])
    decreases 10 - i
  {
    if i >= 10 || i >= |sheet| then None
    else if exists j :: 0 <= j < |sheet[i]| && p(sheet[i][j]) then Some(i)
    else HeaderRowFrom(sheet, p, i + 1)
  }

  // ---------------------------------------------------------------- picking locations

  datatype Point = Point(x: int, y: int, pickSequence: int, equipment: string, sku: string, qty: int,
                         workGroup: string, workArea: string, ubicacion: (int, int))

  /** A header cell reading `x` in any case. */
  predicate IsXHeader(v: Val)
  {
    v.TextVal? && Strs.Lower(v.s) == "x"
  }

  /** One picking row in the standard format; None when a number does not convert (the row is skipped). */
  function ToPoint(h: Headers, row: seq<Val>): (r: Option<Point>)
    ensures r.Some? ==> r.value.ubicacion == (r.value.x, r.value.y)
    ensures r.Some? ==> PyInt(Get(h, row, "pick_sequence", IntVal(0))) == Some(r.value.pickSequence)
  {
    var x := PyInt(Get(h, row, "x", IntVal(0)));
    var y := PyInt(Get(h, row, "y", IntVal(0)));
    var sq := PyInt(Get(h, row, "pick_sequence", IntVal(0)));
    var qty := PyInt(Get(h, row, "qty_initial", IntVal(1)));
    if x.None? || y.None? || sq.None? || qty.None? then None
    else Some(Point(x.value, y.value, sq.value,
                    StrOf(Get(h, row, "equipment_required", TextVal("GroundOperator"))),
                    StrOf(Get(h, row, "sku_initial", TextVal("SKU000"))),
                    qty.value,
                    StrOf(Get(h, row, "WorkGroup", TextVal("WG_Default"))),
                    StrOf(Get(h, row, "WorkArea", TextVal("Area_Ground"))),
                    (x.value, y.value)))
  }

  /** The converted usable rows, in sheet order. */
  function Converted(h: Headers, rows: seq<seq<Val>>): (r: seq<Point>)
    ensures |r| <= |rows|
    ensures forall k :: 0 <= k < |r| ==> r[k].ubicacion == (r[k].x, r[k].y)
  {
    if rows == [] then []
    else
      var p := if Usable(rows[0]) then ToPoint(h, rows[0]) else None;
      (if p.Some? then [p.value] else []) + Converted(h, rows[1..])
  }

  function BySequence(): (Point, Point) -> bool
  {
    (a: Point, b: Point) => a.pickSequence <= b.pickSequence
  }

  lemma BySequenceIsPreorder()
    ensures TotalPreorder(BySequence())
  {
  }

  const PickingHeaderMissing: string := "Header row with 'x' column not found in PickingLocations sheet"

  /**
   * `_process_picking_locations`: the rows below the header row, converted
   * and sorted by pick sequence (stably); an error when none of the first
   * ten rows has an `x` header.
   */
  function ProcessPicking(sheet: seq<seq<Val>>): (r: Result<seq<Point>>)
    ensures r.Err? <==> forall i :: 0 <= i < 10 && i < |sheet| ==> forall j :: 0 <= j < |sheet[i]| ==> !IsXHeader(sheet[i][j])
    ensures r.Ok? ==> forall i, j :: 0 <= i < j < |r.value| ==> r.value[i].pickSequence <= r.value[j].pickSequence
    ensures r.Ok? ==> forall k :: 0 <= k < |r.value| ==> r.value[k].ubicacion == (r.value[k].x, r.value[k].y)
    ensures r.Ok? ==> var hr := HeaderRow(sheet, IsXHeader).value;
      multiset(r.value) == multiset(Converted(HeadersOf(sheet[hr]), sheet[hr + 1..]))
  {
    match HeaderRow(sheet, IsXHeader)
    case None => Err(PickingHeaderMissing)
    case Some(hr) =>
      var pts := Converted(HeadersOf(sheet[hr]), sheet[hr + 1..]);
      BySequenceIsPreorder();
      SortSorted(pts, BySequence());
      SortPerm(pts, BySequence());
      var sorted := Sort(pts, BySequence());
      assert forall k :: 0 <= k < |sorted| ==> sorted[k] in multiset(pts);
      Ok(sorted)
  }

  // ---------------------------------------------------------------- outbound staging

  type Staging = map<int, (int, int)>

  predicate IsStagingHeader(v: Val)
  {
    v.TextVal? && Strs.Contains(Strs.Lower(v.s), "staging")
  }

  predicate IsStagingIdKey(k: string)
  {
    Strs.Contains(Strs.Lower(k), "staging") && Strs.Contains(Strs.Lower(k), "id")
  }

  /** The first key of the row dictionary naming a staging id, else `staging_id`. */
  function StagingKey(h: Headers, row: seq<Val>): string
  {
    FirstKey(h, Min(|h|, |row|), 0)
  }

  function FirstKey(h: Headers, n: nat, i: nat): (k: string)
    requires n <= |h|
    ensures k == "staging_id" || exists j :: i <= j < n && h[j] == Some(k) && IsStagingIdKey(k)
    decreases n - i
  {
    if i >= n then "staging_id"
    else if h[i].Some? && IsStagingIdKey(h[i].value) then h[i].value
    else FirstKey(h, n, i + 1)
  }

  /** One staging row: its id and position, None when a number does not convert. */
  function StagingEntry(h: Headers, row: seq<Val>): Option<(int, (int, int))>
  {
    var id := PyInt(Get(h, row, StagingKey(h, row), IntVal(0)));
    var x := PyInt(Get(h, row, "x", IntVal(0)));
    var y := PyInt(Get(h, row, "y", IntVal(0)));
    if id.None? || x.None? || y.None? then None else Some((id.value, (x.value, y.value)))
  }

  /** A row's entry: its id and position when it is used and converts. */
  function Entries(h: Headers, rows: seq<seq<Val>>): (es: seq<Option<(int, (int, int))>>)
    ensures |es| == |rows|
  {
    seq(|rows|, (i: int) requires 0 <= i < |rows| => if Usable(rows[i]) then StagingEntry(h, rows[i]) else None)
  }

  /** The entry sets a staging area: it has a positive id. */
  predicate Sets(e: Option<(int, (int, int))>)
  {
    e.Some? && e.value.0 > 0
  }

  /**
   * The staging dictionary built entry by entry: only positive ids are
   * kept, and a later entry with the same id replaces the earlier one.
   */
  function Fold(es: seq<Option<(int, (int, int))>>): (m: Staging)
    ensures forall k :: k in m ==> k > 0
    ensures forall i :: 0 <= i < |es| && Sets(es[i]) ==> es[i].value.0 in m
    decreases |es|
  {
    if es == [] then map[]
    else
      var init := es[..|es| - 1];
      var last := es[|es| - 1];
      assert forall i :: 0 <= i < |init| ==> init[i] == es[i];
      if Sets(last) then Fold(init)[last.value.0 := last.value.1] else Fold(init)
  }

  /** Each staging area comes from the last entry that sets its id. */
  lemma {:induction false} FoldLastWins(es: seq<Option<(int, (int, int))>>, k: int)
    requires k in Fold(es)
    ensures exists i :: 0 <= i < |es| && Sets(es[i]) && es[i].value == (k, Fold(es)[k])
                        && forall j :: i < j < |es| && Sets(es[j]) ==> es[j].value.0 != k
    decreases |es|
  {
    var m := Fold(es);
    var init := es[..|es| - 1];
    var last := es[|es| - 1];
    if Sets(last) && last.value.0 == k {
      assert es[|es| - 1].value == (k, m[k]);
    } else {
      assert k in Fold(init) && m[k] == Fold(init)[k];
      FoldLastWins(init, k);
      var i :| 0 <= i < |init| && Sets(init[i]) && init[i].value == (k, m[k])
               && forall j :: i < j < |init| && Sets(init[j]) ==> init[j].value.0 != k;
      assert es[i] == init[i];
      forall j | i < j < |es| && Sets(es[j]) ensures es[j].value.0 != k {
        if j < |init| { assert es[j] == init[j]; }
      }
    }
  }

  function StagingMap(h: Headers, rows: seq<seq<Val>>): Staging
  {
    Fold(Entries(h, rows))
  }

  /**
   * `_process_outbound_staging`: the header is the first of the first ten
   * rows mentioning "staging", else the first row.
   */
  function ProcessStaging(sheet: seq<seq<Val>>): (m: Staging)
    ensures forall k :: k in m ==> k > 0
  {
    var hr := HeaderRow(sheet, IsStagingHeader).GetOr(0);
    var h := if hr < |sheet| then HeadersOf(sheet[hr]) else [];
    var rows := if hr < |sheet| then sheet[hr + 1..] else [];
    StagingMap(h, rows)
  }

  const NumStaging: nat := 7

  /** The gap between default staging areas: an eighth of the width, at least 1. */
  function Spacing(gridWidth: nat): (s: nat)
    ensures s >= 1 && (gridWidth >= 8 ==> s * 8 <= gridWidth)
  {
    Max(1, gridWidth / (NumStaging + 1))
  }

  /** `_generate_default_staging_locations`: ids 1 to 7, evenly spaced along the bottom row. */
  function DefaultStaging(gridWidth: nat, gridHeight: int): (m: Staging)
    ensures forall k :: k in m <==> 1 <= k <= NumStaging
    ensures forall i :: 1 <= i <= NumStaging ==> m[i] == (i * Spacing(gridWidth), gridHeight - 1)
  {
    map i | 1 <= i <= NumStaging :: (i * Spacing(gridWidth), gridHeight - 1)
  }

  /** Default areas are left to right: a larger id is further right. */
  lemma DefaultStagingOrdered(gridWidth: nat, gridHeight: int, i: int, j: int)
    requires 1 <= i < j <= NumStaging
    ensures DefaultStaging(gridWidth, gridHeight)[i].0 < DefaultStaging(gridWidth, gridHeight)[j].0
  {
    var s := Spacing(gridWidth);
    assert i * s < j * s by { MulStrict(i, j, s); }
  }

  lemma MulStrict(i: int, j: int, s: int)
    requires i < j && s > 0
    ensures i * s < j * s
  {
  }

  predicate InGrid(p: (int, int), w: int, h: int)
  {
    0 <= p.0 < w && 0 <= p.1 < h
  }

  /** Every default area lies on a grid at least eight wide and one high. */
  lemma DefaultStagingInside(gridWidth: nat, gridHeight: int)
    requires gridWidth >= 8 && gridHeight >= 1
    ensures forall k :: k in DefaultStaging(gridWidth, gridHeight) ==> InGrid(DefaultStaging(gridWidth, gridHeight)[k], gridWidth, gridHeight)
  {
    var s := Spacing(gridWidth);
    forall k | 1 <= k <= NumStaging ensures k * s < gridWidth {
      assert k * s <= 7 * s by { MulMono(k, 7, s); }
    }
  }

  lemma MulMono(i: int, j: int, s: int)
    requires i <= j && s >= 0
    ensures i * s <= j * s
  {
  }

  /** On a grid narrower than eight the last default area falls outside. */
  lemma DefaultStagingNarrow(gridWidth: nat, gridHeight: int)
    requires gridWidth < 8
    ensures !InGrid(DefaultStaging(gridWidth, gridHeight)[7], gridWidth, gridHeight)
  {
  }

  // ---------------------------------------------------------------- validation and loading

  predicate StagingInGrid(st: Staging, w: int, h: int)
  {
    forall k :: k in st ==> InGrid(st[k], w, h)
  }

  function OutOfGrid(w: int, h: int): Point -> bool
  {
    (p: Point) => !InGrid((p.x, p.y), w, h)
  }

  /**
   * `_validate_data_consistency`: a staging area off the grid is an error;
   * picking points off the grid are only counted (for a warning).
   */
  function Validate(points: seq<Point>, st: Staging, w: int, h: int): (r: Result<nat>)
    ensures r.Err? <==> !StagingInGrid(st, w, h)
    ensures r.Ok? ==> r.value == Count(points, OutOfGrid(w, h))
  {
    if StagingInGrid(st, w, h) then Ok(Count(points, OutOfGrid(w, h)))
    else Err("Staging locations out of bounds")
  }

  datatype Workbook = Workbook(picking: Option<seq<seq<Val>>>, staging: Option<seq<seq<Val>>>)

  /** Opening the workbook: the file is missing, opening fails, or the sheets it has. */
  datatype Opened = NotFound | Failed(msg: string) | Opened(book: Workbook)

  datatype Data = Data(points: seq<Point>, staging: Staging, gridWidth: nat, gridHeight: nat, warnings: nat)

  /**
   * Building a data manager: the layout manager's grid size (or its error),
   * the workbook, then picking points, staging areas (from the sheet or the
   * defaults) and validation, each of which can fail.
   */
  function Load(layout: Result<(nat, nat)>, excelPath: string, wb: Opened): (r: Result<Data>)
    ensures layout.Err? ==> r == Err("Failed to create LayoutManager: " + layout.error)
    ensures r.Ok? ==> StagingInGrid(r.value.staging, r.value.gridWidth, r.value.gridHeight)
    ensures r.Ok? ==> forall k :: k in r.value.staging ==> k > 0
    ensures r.Ok? ==> forall i, j :: 0 <= i < j < |r.value.points| ==> r.value.points[i].pickSequence <= r.value.points[j].pickSequence
    ensures r.Ok? ==> layout == Ok((r.value.gridWidth, r.value.gridHeight)) && wb.Opened?
                      && wb.book.picking.Some? && ProcessPicking(wb.book.picking.value) == Ok(r.value.points)
    ensures r.Ok? && wb.book.staging.None? ==> r.value.staging == DefaultStaging(r.value.gridWidth, r.value.gridHeight)
  {
    match layout
    case Err(e) => Err("Failed to create LayoutManager: " + e)
    case Ok((w, h)) =>
      match wb
      case NotFound => Err("Excel file not found: " + excelPath)
      case Failed(msg) => Err("Error loading Excel file: " + msg)
      case Opened(book) =>
        if book.picking.None? then
          Err("Sheet 'PickingLocations' not found in Excel file. This sheet is required for warehouse operation.")
        else match ProcessPicking(book.picking.value)
          case Err(e) => Err(e)
          case Ok(points) =>
            var st := if book.staging.Some? then ProcessStaging(book.staging.value) else DefaultStaging(w, h);
            match Validate(points, st, w, h)
            case Err(e) => Err(e)
            case Ok(n) => Ok(Data(points, st, w, h, n))
  }

  /** Without a staging sheet a grid narrower than eight cannot be loaded. */
  lemma NarrowGridNeedsStagingSheet(w: nat, h: nat, path: string, book: Workbook)
    requires w < 8 && book.staging.None?
    ensures Load(Ok((w, h)), path, Opened(book)).Err?
  {
    DefaultStagingNarrow(w, h);
  }
}
