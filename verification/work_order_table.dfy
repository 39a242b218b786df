/**
 * The work-order table behind both desktop dashboards: a list of row
 * dictionaries, replaced wholesale on a full update and merged with a batch
 * of updates otherwise.  A merge looks each update's id up among the ids
 * the rows had before the batch (the last row with an id wins); an update
 * for a known id replaces that row in place, an update with a new id is
 * appended after all existing rows in batch order, and an update without a
 * truthy id is skipped.
 */
module WorkOrderTable {
  import opened Wrappers
  import opened Seqs
  import opened Dicts
  import Json

  type Row = Json.Fields

  /** `row.get('id')`. */
  function RowId(r: Row): Json.Value
  {
    Json.Get(r, "id")
  }

  /** `if not wo_id: continue`. */
  predicate HasId(u: Row)
  {
    Json.Truthy(RowId(u))
  }

  function HasIdFn(): Row -> bool
  {
    (u: Row) => HasId(u)
  }

  /** The ids of the rows before the batch: the keys of `id_to_row_map`. */
  function Ids(rows: seq<Row>): set<Json.Value>
  {
    set i | 0 <= i < |rows| :: RowId(rows[i])
  }

  /** `id_to_row_map[id]`: the last row carrying `id`, or -1 when none does. */
  function RowIndex(rows: seq<Row>, id: Json.Value): (i: int)
    ensures -1 <= i < |rows|
    ensures i >= 0 ==> RowId(rows[i]) == id && forall j :: i < j < |rows| ==> RowId(rows[j]) != id
    ensures i == -1 <==> id !in Ids(rows)
  {
    if |rows| == 0 then -1
    else if RowId(rows[|rows| - 1]) == id then |rows| - 1
    else
      var i := RowIndex(rows[..|rows| - 1], id);
      assert Ids(rows) == Ids(rows[..|rows| - 1]) + {RowId(rows[|rows| - 1])} by {
        assert forall j :: 0 <= j < |rows| - 1 ==> rows[..|rows| - 1][j] == rows[j];
      }
      i
  }

  /** An update that goes to the end of the table: a truthy id no row had. */
  predicate IsNew(rows: seq<Row>, u: Row)
  {
    HasId(u) && RowId(u) !in Ids(rows)
  }

  function IsNewFn(rows: seq<Row>): Row -> bool
  {
    (u: Row) => IsNew(rows, u)
  }

  /** An update that replaces row `i`: it carries the id whose map entry is `i`. */
  predicate Targets(rows: seq<Row>, u: Row, i: int)
  {
    HasId(u) && 0 <= i < |rows| && RowId(u) == RowId(rows[i]) && RowIndex(rows, RowId(u)) == i
  }

  /** The last update in the batch that replaces row `i`, or -1. */
  function LastTargeting(rows: seq<Row>, updates: seq<Row>, i: int): (j: int)
    ensures -1 <= j < |updates|
    ensures j >= 0 ==> Targets(rows, updates[j], i)
    ensures forall k :: j < k < |updates| ==> !Targets(rows, updates[k], i)
  {
    if |updates| == 0 then -1
    else if Targets(rows, updates[|updates| - 1], i) then |updates| - 1
    else LastTargeting(rows, updates[..|updates| - 1], i)
  }

  /**
   * The merge loop: the rows after the in-place replacements, and the new
   * rows in batch order.  Row `i` ends as the last update replacing it, and
   * the new rows are exactly the updates with new ids.
   */
  function Merge(rows: seq<Row>, updates: seq<Row>): (r: (seq<Row>, seq<Row>))
    ensures |r.0| == |rows|
    ensures r.1 == Filter(updates, IsNewFn(rows))
    ensures forall i :: 0 <= i < |rows| ==>
              r.0[i] == (var j := LastTargeting(rows, updates, i); if j >= 0 then updates[j] else rows[i])
  {
    if |updates| == 0 then (rows, [])
    else
      var init, u := updates[..|updates| - 1], updates[|updates| - 1];
      assert updates == init + [u];
      FilterAppend(init, [u], IsNewFn(rows));
      assert forall j :: 0 <= j < |init| ==> updates[j] == init[j];
      MergeStep(rows, Merge(rows, init), u)
  }

  /** One pass of the loop body: skip, replace in place, or queue as new. */
  function MergeStep(rows: seq<Row>, prev: (seq<Row>, seq<Row>), u: Row): (r: (seq<Row>, seq<Row>))
    requires |prev.0| == |rows|
    ensures |r.0| == |rows|
    ensures r.1 == prev.1 + (if IsNew(rows, u) then [u] else [])
    ensures forall i :: 0 <= i < |rows| ==> r.0[i] == if Targets(rows, u, i) then u else prev.0[i]
  {
    if !HasId(u) then prev
    else if RowId(u) in Ids(rows) then
      var k := RowIndex(rows, RowId(u));
      (prev.0[k := u], prev.1)
    else (prev.0, prev.1 + [u])
  }

  /**
   * `updateData`: the merged rows followed by the new ones; None when a row
   * lacks an `id` key, where building the id map raises before any change.
   */
  function UpdateData(rows: seq<Row>, updates: seq<Row>): (r: Option<seq<Row>>)
    ensures r.None? <==> exists i :: 0 <= i < |rows| && "id" !in rows[i].vals
    ensures r.Some? ==> |r.value| == |rows| + Count(updates, IsNewFn(rows))
    ensures r.Some? ==> r.value[|rows|..] == Filter(updates, IsNewFn(rows))
    ensures r.Some? ==> forall i :: 0 <= i < |rows| ==> RowId(r.value[i]) == RowId(rows[i])
  {
    if exists i :: 0 <= i < |rows| && "id" !in rows[i].vals then None
    else
      var m := Merge(rows, updates);
      var r := m.0 + m.1;
      assert r[|rows|..] == m.1;
      Some(r)
  }

  /** An update for a known id lands on the row of that id, as the last such update of the batch. */
  lemma ReplacesKnownRow(rows: seq<Row>, updates: seq<Row>, j: nat)
    requires j < |updates| && HasId(updates[j]) && RowId(updates[j]) in Ids(rows)
    requires forall k :: j < k < |updates| ==> RowId(updates[k]) != RowId(updates[j])
    requires UpdateData(rows, updates).Some?
    ensures var i := RowIndex(rows, RowId(updates[j]));
      0 <= i < |rows| && UpdateData(rows, updates).value[i] == updates[j]
  {
    var i := RowIndex(rows, RowId(updates[j]));
    var l := LastTargeting(rows, updates, i);
    assert Targets(rows, updates[j], i);
    assert forall k :: j < k < |updates| ==> !Targets(rows, updates[k], i);
    assert l == j;
    assert UpdateData(rows, updates).value[i] == Merge(rows, updates).0[i];
  }

  /** Updates without a truthy id change nothing: merging only the others gives the same table. */
  lemma {:induction false} MergeSkipsMissingIds(rows: seq<Row>, updates: seq<Row>)
    ensures Merge(rows, updates) == Merge(rows, Filter(updates, HasIdFn()))
  {
    if |updates| > 0 {
      var init, u := updates[..|updates| - 1], updates[|updates| - 1];
      assert updates == init + [u];
      MergeSkipsMissingIds(rows, init);
      FilterAppend(init, [u], HasIdFn());
      var f := Filter(init, HasIdFn());
      if HasId(u) {
        assert Filter(updates, HasIdFn()) == f + [u];
        assert (f + [u])[..|f|] == f;
      } else {
        assert Filter(updates, HasIdFn()) == f;
      }
    }
  }

  lemma UpdateSkipsMissingIds(rows: seq<Row>, updates: seq<Row>)
    ensures UpdateData(rows, updates) == UpdateData(rows, Filter(updates, HasIdFn()))
  {
    MergeSkipsMissingIds(rows, updates);
  }

  /** An empty batch leaves a well-formed table as it was. */
  lemma EmptyBatch(rows: seq<Row>)
    requires forall i :: 0 <= i < |rows| ==> "id" in rows[i].vals
    ensures UpdateData(rows, []) == Some(rows)
  {
    assert rows + [] == rows;
  }
}
