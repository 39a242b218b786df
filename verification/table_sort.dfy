/**
 * The work-order table of the two browser front-ends: clicking a column
 * header chooses the sort, and rows are ordered by a comparator that
 * compares two numbers numerically and anything else as lower-cased
 * JavaScript strings.  Both front-ends share this comparator word for word.
 *
 * `show` is JavaScript's `String(n)` for a number; it is a parameter because
 * the model does not reproduce the engine's number formatting.
 */
module TableSort {
  import opened Sorting
  import opened Strs
  import Json

  datatype Direction = Asc | Desc

  datatype SortState = SortState(column: string, direction: Direction)

  /** Both front-ends start sorted by id, ascending. */
  function Initial(): (s: SortState)
    ensures s.column == "id" && s.direction == Asc
  {
    SortState("id", Asc)
  }

  function Flip(d: Direction): Direction
  {
    if d == Asc then Desc else Asc
  }

  /** A click on a header: the same column flips the direction, another column starts ascending. */
  function Click(s: SortState, column: string): (r: SortState)
    ensures r.column == column
    ensures s.column == column ==> r.direction != s.direction
    ensures s.column != column ==> r.direction == Asc
  {
    if s.column == column then s.(direction := Flip(s.direction)) else SortState(column, Asc)
  }

  /** Two clicks on the same header restore a sort already on that column, and leave any other sort descending. */
  lemma ClickTwice(s: SortState, column: string)
    ensures s.column == column ==> Click(Click(s, column), column) == s
    ensures s.column != column ==> Click(Click(s, column), column) == SortState(column, Desc)
  {
  }

  /** `wo[column] ?? ''`: a missing or null cell compares as the empty string. */
  function CellOf(wo: Json.Value, column: string): (v: Json.Value)
    ensures !v.Null?
    ensures wo.Obj? && column in wo.fields.vals && !wo.fields.vals[column].Null? ==> v == wo.fields.vals[column]
  {
    var v := Json.Field(wo, column);
    if v.Null? then Json.Str("") else v
  }

  /** JavaScript's `String(v)`; an array joins its elements with commas, a null element as the empty string. */
  function JsText(v: Json.Value, show: real -> string): (t: string)
    ensures v.Str? ==> t == v.s
    ensures v.Num? ==> t == show(v.n)
    decreases v
  {
    match v
    case Null => ""
    case Bool(b) => if b then "true" else "false"
    case Num(n) => show(n)
    case Str(s) => s
    case Arr(items) => Join(seq(|items|, i requires 0 <= i < |items| => JsText(items[i], show)), ",")
    case Obj(_) => "[object Object]"
  }

  /**
   * The comparator read as "may stay before": two numbers by value, anything
   * else by lower-cased text, reversed when descending.  The comparator returns
   * -1 rather than 0 on equal text, so where such a pair ends up depends on
   * the browser's sort; leaving it in place, as a stable sort would, is this
   * model's choice.
   */
  predicate Before(x: Json.Value, y: Json.Value, d: Direction, show: real -> string)
  {
    if x.Num? && y.Num? then NumBefore(x.n, y.n, d) else TextBefore(TextKey(x, show), TextKey(y, show), d)
  }

  predicate NumBefore(x: real, y: real, d: Direction)
  {
    if d == Asc then x <= y else y <= x
  }

  predicate TextBefore(x: string, y: string, d: Direction)
  {
    if d == Asc then StrLe(x, y) else StrLe(y, x)
  }

  /** The text a cell compares by: `String(v).toLowerCase()`. */
  function TextKey(v: Json.Value, show: real -> string): string
  {
    Lower(JsText(v, show))
  }

  function RowOrder(s: SortState, show: real -> string): (Json.Value, Json.Value) -> bool
  {
    (a, b) => Before(CellOf(a, s.column), CellOf(b, s.column), s.direction, show)
  }

  /** The rows in display order. */
  function SortRows(rows: seq<Json.Value>, s: SortState, show: real -> string): (r: seq<Json.Value>)
    ensures multiset(r) == multiset(rows)
  {
    SortPerm(rows, RowOrder(s, show));
    Sort(rows, RowOrder(s, show))
  }

  // ---------------------------------------------------------------------
  // Homogeneous columns are ordered
  // ---------------------------------------------------------------------

  function NumKey(v: Json.Value): real
  {
    if v.Num? then v.n else 0.0
  }

  /** The numeric order on a column, a total preorder on every row. */
  function NumericOrder(s: SortState): (Json.Value, Json.Value) -> bool
  {
    (a, b) => NumBefore(NumKey(CellOf(a, s.column)), NumKey(CellOf(b, s.column)), s.direction)
  }

  /** The text order on a column, a total preorder on every row. */
  function TextOrder(s: SortState, show: real -> string): (Json.Value, Json.Value) -> bool
  {
    (a, b) => TextBefore(TextKey(CellOf(a, s.column), show), TextKey(CellOf(b, s.column), show), s.direction)
  }

  lemma NumericOrderIsPreorder(s: SortState)
    ensures TotalPreorder(NumericOrder(s))
  {
    var leq := NumericOrder(s);
    forall a, b ensures leq(a, b) || leq(b, a) {
      var x, y := NumKey(CellOf(a, s.column)), NumKey(CellOf(b, s.column));
      assert leq(a, b) == NumBefore(x, y, s.direction);
      assert leq(b, a) == NumBefore(y, x, s.direction);
    }
    forall a, b, c | leq(a, b) && leq(b, c) ensures leq(a, c) {
      var x, y, z := NumKey(CellOf(a, s.column)), NumKey(CellOf(b, s.column)), NumKey(CellOf(c, s.column));
      assert NumBefore(x, y, s.direction) && NumBefore(y, z, s.direction);
      assert leq(a, c) == NumBefore(x, z, s.direction);
    }
  }

  lemma TextOrderIsPreorder(s: SortState, show: real -> string)
    ensures TotalPreorder(TextOrder(s, show))
  {
    var leq := TextOrder(s, show);
    forall a, b ensures leq(a, b) || leq(b, a) {
      var ka, kb := TextKey(CellOf(a, s.column), show), TextKey(CellOf(b, s.column), show);
      StrLeTotal(ka, kb);
      assert leq(a, b) == TextBefore(ka, kb, s.direction);
      assert leq(b, a) == TextBefore(kb, ka, s.direction);
    }
    forall a, b, c | leq(a, b) && leq(b, c) ensures leq(a, c) {
      var ka, kb, kc := TextKey(CellOf(a, s.column), show), TextKey(CellOf(b, s.column), show), TextKey(CellOf(c, s.column), show);
      assert TextBefore(ka, kb, s.direction) && TextBefore(kb, kc, s.direction);
      if s.direction == Asc {
        StrLeTrans(ka, kb, kc);
      } else {
        StrLeTrans(kc, kb, ka);
      }
      assert TextBefore(ka, kc, s.direction);
    }
  }

  predicate AllNumeric(rows: seq<Json.Value>, column: string)
  {
    forall i :: 0 <= i < |rows| ==> CellOf(rows[i], column).Num?
  }

  predicate NoneNumeric(rows: seq<Json.Value>, column: string)
  {
    forall i :: 0 <= i < |rows| ==> !CellOf(rows[i], column).Num?
  }

  /** Sorting only reorders, so a row of the result is a row of the input. */
  lemma SortedFrom(rows: seq<Json.Value>, s: SortState, show: real -> string, k: int)
    requires 0 <= k < |SortRows(rows, s, show)|
    ensures exists i :: 0 <= i < |rows| && rows[i] == SortRows(rows, s, show)[k]
  {
    var r := SortRows(rows, s, show);
    assert r[k] in multiset(rows);
    assert r[k] in rows;
  }

  /** A column of numbers is displayed in numeric order, in the chosen direction. */
  lemma NumericColumnOrdered(rows: seq<Json.Value>, s: SortState, show: real -> string)
    requires AllNumeric(rows, s.column)
    ensures AllNumeric(SortRows(rows, s, show), s.column)
    ensures forall i, j :: 0 <= i < j < |SortRows(rows, s, show)| ==>
      NumBefore(CellOf(SortRows(rows, s, show)[i], s.column).n, CellOf(SortRows(rows, s, show)[j], s.column).n, s.direction)
  {
    var r := SortRows(rows, s, show);
    forall k | 0 <= k < |r| ensures CellOf(r[k], s.column).Num? {
      SortedFrom(rows, s, show, k);
    }
    NumericAgree(rows, s, show);
    NumericOrderIsPreorder(s);
    SortSorted(rows, NumericOrder(s));
    forall i, j | 0 <= i < j < |r|
      ensures NumBefore(CellOf(r[i], s.column).n, CellOf(r[j], s.column).n, s.direction)
    {
      assert NumericOrder(s)(r[i], r[j]);
      assert CellOf(r[i], s.column).Num? && CellOf(r[j], s.column).Num?;
      assert NumKey(CellOf(r[i], s.column)) == CellOf(r[i], s.column).n;
      assert NumKey(CellOf(r[j], s.column)) == CellOf(r[j], s.column).n;
    }
  }

  lemma NumericAgree(rows: seq<Json.Value>, s: SortState, show: real -> string)
    requires AllNumeric(rows, s.column)
    ensures Sort(rows, RowOrder(s, show)) == Sort(rows, NumericOrder(s))
  {
    forall a, b | a in rows && b in rows
      ensures RowOrder(s, show)(a, b) == NumericOrder(s)(a, b)
    {
      var i :| 0 <= i < |rows| && rows[i] == a;
      var j :| 0 <= j < |rows| && rows[j] == b;
      var x, y := CellOf(a, s.column), CellOf(b, s.column);
      assert x.Num? && y.Num?;
      assert RowOrder(s, show)(a, b) == NumBefore(x.n, y.n, s.direction);
      assert NumericOrder(s)(a, b) == NumBefore(NumKey(x), NumKey(y), s.direction);
    }
    SortAgree(rows, RowOrder(s, show), NumericOrder(s));
  }

  lemma TextAgree(rows: seq<Json.Value>, s: SortState, show: real -> string)
    requires NoneNumeric(rows, s.column)
    ensures Sort(rows, RowOrder(s, show)) == Sort(rows, TextOrder(s, show))
  {
    forall a, b | a in rows && b in rows
      ensures RowOrder(s, show)(a, b) == TextOrder(s, show)(a, b)
    {
      var i :| 0 <= i < |rows| && rows[i] == a;
      var x := CellOf(a, s.column);
      assert !x.Num?;
    }
    SortAgree(rows, RowOrder(s, show), TextOrder(s, show));
  }

  /** A column without numbers is displayed in lower-cased text order, in the chosen direction. */
  lemma TextColumnOrdered(rows: seq<Json.Value>, s: SortState, show: real -> string)
    requires NoneNumeric(rows, s.column)
    ensures forall i, j :: 0 <= i < j < |SortRows(rows, s, show)| ==>
      TextBefore(TextKey(CellOf(SortRows(rows, s, show)[i], s.column), show),
                 TextKey(CellOf(SortRows(rows, s, show)[j], s.column), show), s.direction)
  {
    var r := SortRows(rows, s, show);
    TextAgree(rows, s, show);
    TextOrderIsPreorder(s, show);
    SortSorted(rows, TextOrder(s, show));
    forall i, j | 0 <= i < j < |r|
      ensures TextBefore(TextKey(CellOf(r[i], s.column), show), TextKey(CellOf(r[j], s.column), show), s.direction)
    {
      assert TextOrder(s, show)(r[i], r[j]);
    }
  }

  /**
   * A column that mixes numbers with numeric text has no consistent order:
   * 10 may stay before "5" (as text), "5" before 9 (as text), but 10 not
   * before 9 (as numbers).
   */
  lemma MixedColumnNotTransitive(show: real -> string)
    requires show(10.0) == "10" && show(9.0) == "9"
    ensures Before(Json.Num(10.0), Json.Str("5"), Asc, show)
    ensures Before(Json.Str("5"), Json.Num(9.0), Asc, show)
    ensures !Before(Json.Num(10.0), Json.Num(9.0), Asc, show)
  {
    assert Lower("10") == "10";
    assert Lower("5") == "5";
    assert Lower("9") == "9";
  }
}
