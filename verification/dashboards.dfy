/**
 * The event-sourced work-order dashboard.  It keeps a local copy of the
 * work orders, operators and metrics.  A reset clears that copy and blocks
 * granular updates; the snapshot that follows rebuilds it keyed by id and
 * lifts the block; granular events patch a known work order in place.  The
 * table shows the local work orders in id insertion order (its rows are the
 * very dictionaries of the local copy, so a patch shows in the table too).
 * Without the event-sourcing switch every message is ignored.
 */
module DashboardEvents {
  import opened Wrappers
  import opened Seqs
  import opened Dicts
  import Json
  import opened WorkOrderTable

  /** The dashboard's local state; the slider and status bar are not modelled. */
  datatype View = View(local: Dict<Json.Value, Row>, operators: Dict<Json.Value, Row>, metrics: Row,
                       rebuilding: bool, lastSnapshot: real)

  function Initial(): (v: View)
    ensures v.local.keys == [] && v.operators.keys == [] && v.metrics.keys == [] && !v.rebuilding
  {
    View(Empty(), Empty(), Empty(), false, 0.0)
  }

  /** The table rows: the local work orders in insertion order. */
  function Table(v: View): (rows: seq<Row>)
    ensures |rows| == |v.local.keys|
  {
    Values(v.local)
  }

  /** `message.get('data', {})`, where a value that is not a dictionary reads as empty. */
  function DataOf(msg: Row): (d: Row)
    ensures "data" in msg.vals && msg.vals["data"].Obj? ==> d == msg.vals["data"].fields
  {
    var v := Json.Get(msg, "data");
    if v.Obj? then v.fields else Empty()
  }

  /** The dictionaries in a list value; other items and non-lists give nothing. */
  function Objects(v: Json.Value): (rs: seq<Row>)
    ensures v.Arr? ==> |rs| <= |v.items|
    ensures !v.Arr? ==> rs == []
  {
    if !v.Arr? then [] else ObjectItems(v.items)
  }

  function ObjectItems(items: seq<Json.Value>): (rs: seq<Row>)
    ensures |rs| <= |items|
    ensures forall i :: 0 <= i < |rs| ==> Json.Obj(rs[i]) in items
  {
    if |items| == 0 then []
    else (if items[0].Obj? then [items[0].fields] else []) + ObjectItems(items[1..])
  }

  /** The truthy ids carried by a list of dictionaries. */
  function TruthyIds(items: seq<Row>): set<Json.Value>
  {
    set i | 0 <= i < |items| && HasId(items[i]) :: RowId(items[i])
  }

  /**
   * `for x in items: if x.get('id'): d[x['id']] = x`: the keys grow by the
   * truthy ids (new ones appended), the other entries stay.
   */
  function AddById(d: Dict<Json.Value, Row>, items: seq<Row>): (r: Dict<Json.Value, Row>)
    ensures r.vals.Keys == d.vals.Keys + TruthyIds(items)
    ensures |d.keys| <= |r.keys| && r.keys[..|d.keys|] == d.keys
    ensures forall k :: k in d.vals && k !in TruthyIds(items) ==> r.vals[k] == d.vals[k]
  {
    if |items| == 0 then d
    else
      var init, x := items[..|items| - 1], items[|items| - 1];
      var prev := AddById(d, init);
      TruthyIdsSnoc(items);
      var r := AddOne(prev, x);
      PrefixTrans(d.keys, prev.keys, r.keys);
      r
  }

  lemma TruthyIdsSnoc(items: seq<Row>)
    requires |items| > 0
    ensures var init, x := items[..|items| - 1], items[|items| - 1];
            TruthyIds(items) == TruthyIds(init) + (if HasId(x) then {RowId(x)} else {})
  {
    var init := items[..|items| - 1];
    assert forall i :: 0 <= i < |init| ==> items[i] == init[i];
  }

  /** The loop body: store a dictionary under its id when the id is truthy. */
  function AddOne(d: Dict<Json.Value, Row>, x: Row): (r: Dict<Json.Value, Row>)
    ensures HasId(x) ==> r.vals == d.vals[RowId(x) := x]
    ensures !HasId(x) ==> r == d
    ensures |d.keys| <= |r.keys| && r.keys[..|d.keys|] == d.keys
  {
    if HasId(x) then Set(d, RowId(x), x) else d
  }

  /** Of several dictionaries with one id, the last is kept. */
  lemma {:induction false} AddByIdLastWins(d: Dict<Json.Value, Row>, items: seq<Row>, i: nat)
    requires i < |items| && HasId(items[i])
    requires forall j :: i < j < |items| ==> RowId(items[j]) != RowId(items[i])
    ensures AddById(d, items).vals[RowId(items[i])] == items[i]
  {
    if i < |items| - 1 {
      AddByIdLastWins(d, items[..|items| - 1], i);
    }
  }

  /** `STATE_RESET`: everything local is cleared and granular updates are blocked. */
  function Reset(v: View): (r: View)
    ensures r.rebuilding && Table(r) == []
    ensures r.local.keys == [] && r.operators.keys == [] && r.metrics.keys == []
    ensures r.lastSnapshot == v.lastSnapshot
  {
    View(Empty(), Empty(), Empty(), true, v.lastSnapshot)
  }

  /** `message.get('timestamp', 0.0)` read as a number; a boolean counts as 0 or 1. */
  function TimestampOf(msg: Row): real
  {
    var t := Json.Get(msg, "timestamp");
    if t.Num? then t.n else if t.Bool? && t.b then 1.0 else 0.0
  }

  /** The snapshot's lists. */
  function SnapshotWorkOrders(msg: Row): seq<Row> { Objects(Json.Get(DataOf(msg), "work_orders")) }
  function SnapshotOperators(msg: Row): seq<Row> { Objects(Json.Get(DataOf(msg), "operators")) }

  /**
   * `STATE_SNAPSHOT`, with one rebuild and one confirmation: work orders and
   * operators with a truthy id are added by id, the metrics and time are
   * taken over, the block is lifted, and `SEEK_COMPLETE` is sent when a
   * command queue exists.
   */
  function Snapshot(v: View, msg: Row, hasQueue: bool): (r: (View, nat))
    ensures !r.0.rebuilding && r.0.lastSnapshot == TimestampOf(msg)
    ensures r.0.local.vals.Keys == v.local.vals.Keys + TruthyIds(SnapshotWorkOrders(msg))
    ensures r.0.operators.vals.Keys == v.operators.vals.Keys + TruthyIds(SnapshotOperators(msg))
    ensures r.1 == if hasQueue then 1 else 0
  {
    var data := DataOf(msg);
    var m := Json.Get(data, "metrics");
    var local := AddById(v.local, SnapshotWorkOrders(msg));
    var ops := AddById(v.operators, SnapshotOperators(msg));
    (View(local, ops, if m.Obj? then m.fields else Empty(), false, TimestampOf(msg)), if hasQueue then 1 else 0)
  }

  /**
   * What a handler leaves behind: the dashboard, the `SEEK_COMPLETE`
   * confirmations sent, and whether it raised (a raise leaves whatever was
   * already done in place).
   */
  datatype Outcome = Outcome(view: View, sent: nat, raised: bool)

  /** Values `len()` accepts: strings, lists and dictionaries. */
  predicate Sized(v: Json.Value)
  {
    v.Str? || v.Arr? || v.Obj?
  }

  /** Values the `.2f` format accepts: numbers, booleans among them. */
  predicate Formattable(v: Json.Value)
  {
    v.Num? || v.Bool?
  }

  /** Python cannot use a list or a dictionary as a dictionary key. */
  predicate Unhashable(v: Json.Value)
  {
    v.Arr? || v.Obj?
  }

  /** `message.get('data', {})` as it is, dictionary or not. */
  function RawData(msg: Row): Json.Value
  {
    GetOr(msg, "data", Json.EmptyObj())
  }

  /** `data.get(k, default)` on a dictionary `data`. */
  function RawField(msg: Row, k: string, default: Json.Value): Json.Value
  {
    var d := RawData(msg);
    if d.Obj? then GetOr(d.fields, k, default) else Json.Null
  }

  function WorkOrdersValue(msg: Row): Json.Value { RawField(msg, "work_orders", Json.Arr([])) }
  function OperatorsValue(msg: Row): Json.Value { RawField(msg, "operators", Json.Arr([])) }

  /**
   * The snapshot handler's header raises before it changes anything: a
   * `data` that is not a dictionary has no `.get`, the lists must have a
   * `len()`, the metrics need `.keys()`, and the time is formatted `.2f`.
   */
  predicate HeaderRaises(msg: Row)
  {
    || !RawData(msg).Obj?
    || !Formattable(GetOr(msg, "timestamp", Json.Num(0.0)))
    || !Sized(WorkOrdersValue(msg))
    || !Sized(OperatorsValue(msg))
    || !RawField(msg, "metrics", Json.EmptyObj()).Obj?
  }

  /** An item `x.get('id')` can be read from and, when truthy, stored under. */
  predicate Loopable(x: Json.Value)
  {
    x.Obj? && !(HasId(x.fields) && Unhashable(RowId(x.fields)))
  }

  /** How many items `for x in items: if x.get('id'): d[x['id']] = x` gets through before it raises. */
  function LoopPrefix(items: seq<Json.Value>): (k: nat)
    ensures k <= |items|
    ensures forall i :: 0 <= i < k ==> Loopable(items[i])
    ensures k < |items| ==> !Loopable(items[k])
  {
    if |items| == 0 || !Loopable(items[0]) then 0
    else 1 + LoopPrefix(items[1..])
  }

  /**
   * The first rebuild loop raises part-way: iterating a non-empty string or
   * dictionary yields strings, which have no `.get`, and a list raises at
   * its first item that is not a dictionary or has an unhashable truthy id.
   */
  predicate LoopRaises(v: Json.Value)
  {
    || (v.Str? && |v.s| > 0)
    || (v.Obj? && |v.fields.keys| > 0)
    || (v.Arr? && LoopPrefix(v.items) < |v.items|)
  }

  /** The dictionaries the first rebuild loop visits before it raises or ends. */
  function Visited(v: Json.Value): seq<Row>
  {
    if v.Arr? then ObjectItems(v.items[..LoopPrefix(v.items)]) else []
  }

  /** The handler raises before its first confirmation. */
  predicate RaisesBeforeRebuild(msg: Row)
  {
    HeaderRaises(msg) || LoopRaises(WorkOrdersValue(msg)) || LoopRaises(OperatorsValue(msg))
  }

  /** The handler as written raises somewhere. */
  predicate SnapshotRaises(msg: Row)
  {
    RaisesBeforeRebuild(msg) || !AllKeyed(SnapshotWorkOrders(msg))
  }

  /**
   * The snapshot handler as the source has it.  A malformed header raises
   * with nothing changed; a first rebuild loop that raises leaves the items
   * it already stored and sends nothing, with the block still in place.
   * Otherwise it rebuilds and confirms, then repeats the rebuild
   * (`RebuildTwice`).
   */
  function SnapshotAsWritten(v: View, msg: Row, hasQueue: bool): (r: Outcome)
    ensures r.raised <==> SnapshotRaises(msg)
    ensures HeaderRaises(msg) ==> r == Outcome(v, 0, true)
    ensures RaisesBeforeRebuild(msg) ==>
              r.sent == 0 && r.view.rebuilding == v.rebuilding && r.view.metrics == v.metrics
              && r.view.lastSnapshot == v.lastSnapshot
    ensures !HeaderRaises(msg) && RaisesBeforeRebuild(msg) ==>
              r.view.local.vals.Keys == v.local.vals.Keys + TruthyIds(Visited(WorkOrdersValue(msg)))
    ensures !HeaderRaises(msg) && LoopRaises(WorkOrdersValue(msg)) ==> r.view.operators == v.operators
    ensures !RaisesBeforeRebuild(msg) ==> r == RebuildTwice(v, msg, hasQueue)
  {
    if HeaderRaises(msg) then Outcome(v, 0, true)
    else
      var wv, ov := WorkOrdersValue(msg), OperatorsValue(msg);
      var local := AddById(v.local, Visited(wv));
      if LoopRaises(wv) then Outcome(v.(local := local), 0, true)
      else if LoopRaises(ov) then Outcome(v.(local := local, operators := AddById(v.operators, Visited(ov))), 0, true)
      else RebuildTwice(v, msg, hasQueue)
  }

  /**
   * When the header and the first loops pass, the first loop visits exactly
   * the snapshot's work orders, so the first rebuild is the corrected one.
   */
  lemma VisitedAllWhenNoRaise(msg: Row)
    requires !RaisesBeforeRebuild(msg)
    ensures Visited(WorkOrdersValue(msg)) == SnapshotWorkOrders(msg)
    ensures Visited(OperatorsValue(msg)) == SnapshotOperators(msg)
  {
    var wv, ov := WorkOrdersValue(msg), OperatorsValue(msg);
    if wv.Arr? {
      assert wv.items[..LoopPrefix(wv.items)] == wv.items;
    }
    if ov.Arr? {
      assert ov.items[..LoopPrefix(ov.items)] == ov.items;
    }
  }

  /**
   * The handler past its first loops: after the confirmation it repeats the
   * rebuild with `d[wo['id']] = wo`, which also keeps work orders whose id
   * is present but falsy and raises on the first one without an `id` key or
   * with an unhashable id, and otherwise confirms a second time.
   */
  function RebuildTwice(v: View, msg: Row, hasQueue: bool): (r: Outcome)
    ensures r.raised <==> !AllKeyed(SnapshotWorkOrders(msg))
    ensures r.sent == if !hasQueue then 0 else if r.raised then 1 else 2
    ensures !r.view.rebuilding && r.view.lastSnapshot == TimestampOf(msg)
    ensures r.view.operators == Snapshot(v, msg, hasQueue).0.operators
    ensures forall i :: 0 <= i < KeyedPrefix(SnapshotWorkOrders(msg)) ==>
              RowId(SnapshotWorkOrders(msg)[i]) in r.view.local.vals
  {
    var first := Snapshot(v, msg, hasQueue);
    var wos := SnapshotWorkOrders(msg);
    var k := KeyedPrefix(wos);
    var local := AddAllById(first.0.local, wos[..k]);
    PrefixStored(first.0.local, wos, k);
    if k < |wos| then Outcome(first.0.(local := local), first.1, true)
    else Outcome(first.0.(local := local), first.1 + first.1, false)
  }

  lemma PrefixStored(d: Dict<Json.Value, Row>, items: seq<Row>, k: nat)
    requires k <= |items|
    ensures forall i :: 0 <= i < k ==> RowId(items[i]) in AddAllById(d, items[..k]).vals
  {
    assert forall i :: 0 <= i < k ==> items[i] == items[..k][i];
  }

  /** `d[wo['id']] = wo` does not raise: the `id` key is there and its value is hashable. */
  predicate Keyed(x: Row)
  {
    "id" in x.vals && !Unhashable(x.vals["id"])
  }

  /** Every dictionary can be stored by `wo['id']`. */
  predicate AllKeyed(items: seq<Row>)
  {
    forall i :: 0 <= i < |items| ==> Keyed(items[i])
  }

  /** How many dictionaries `for wo in items: d[wo['id']] = wo` stores before it raises. */
  function KeyedPrefix(items: seq<Row>): (k: nat)
    ensures k <= |items|
    ensures AllKeyed(items[..k])
    ensures k < |items| ==> !Keyed(items[k])
    ensures k == |items| <==> AllKeyed(items)
  {
    if |items| == 0 || !Keyed(items[0]) then 0
    else
      var k := 1 + KeyedPrefix(items[1..]);
      assert forall i :: 1 <= i < k ==> items[..k][i] == items[1..][..k - 1][i - 1];
      k
  }

  /** `for wo in items: d[wo['id']] = wo`, with no truthiness test. */
  function AddAllById(d: Dict<Json.Value, Row>, items: seq<Row>): (r: Dict<Json.Value, Row>)
    ensures forall i :: 0 <= i < |items| ==> RowId(items[i]) in r.vals
  {
    if |items| == 0 then d
    else
      var init, x := items[..|items| - 1], items[|items| - 1];
      var r := Set(AddAllById(d, init), RowId(x), x);
      assert forall i :: 0 <= i < |init| ==> items[i] == init[i];
      r
  }

  /** With a command queue, the handler as written confirms every snapshot twice, the corrected one once. */
  lemma DoubleConfirmation(v: View, msg: Row)
    requires !SnapshotRaises(msg)
    ensures !SnapshotAsWritten(v, msg, true).raised && SnapshotAsWritten(v, msg, true).sent == 2
    ensures Snapshot(v, msg, true).1 == 1
  {
  }

  /** A work order with an empty id stays out of the corrected rebuild but enters the one as written. */
  lemma EmptyIdShownAsWritten(v: View, msg: Row, i: nat)
    requires i < |SnapshotWorkOrders(msg)| && RowId(SnapshotWorkOrders(msg)[i]) == Json.Str("")
    requires Json.Str("") !in v.local.vals
    requires !SnapshotRaises(msg)
    ensures Json.Str("") !in Snapshot(v, msg, true).0.local.vals
    ensures Json.Str("") in SnapshotAsWritten(v, msg, true).view.local.vals
  {
    assert Json.Str("") !in TruthyIds(SnapshotWorkOrders(msg));
  }

  /** `wo_id and wo_id in self._local_wo_state`. */
  predicate Known(v: View, data: Row)
  {
    Json.Truthy(Json.Get(data, "wo_id")) && Json.Get(data, "wo_id") in v.local.vals
  }

  /**
   * A granular work-order event: ignored while rebuilding or for an unknown
   * id; otherwise only that work order's dictionary is patched, and the
   * table keeps its rows and their order.
   */
  function Granular(v: View, data: Row, patch: Row -> Row): (r: View)
    ensures v.rebuilding || !Known(v, data) ==> r == v
    ensures r.local.keys == v.local.keys && r.operators == v.operators && r.metrics == v.metrics
    ensures r.rebuilding == v.rebuilding && r.lastSnapshot == v.lastSnapshot
    ensures forall k :: k in v.local.vals && k != Json.Get(data, "wo_id") ==> r.local.vals[k] == v.local.vals[k]
    ensures !v.rebuilding && Known(v, data) ==>
              r.local.vals[Json.Get(data, "wo_id")] == patch(v.local.vals[Json.Get(data, "wo_id")])
  {
    if v.rebuilding then v
    else if !Known(v, data) then v
    else
      var id := Json.Get(data, "wo_id");
      v.(local := Set(v.local, id, patch(v.local.vals[id])))
  }

  /** `wo_status_changed`: the status becomes `new_status`. */
  function StatusPatch(data: Row): Row -> Row
  {
    (r: Row) => Set(r, "status", Json.Get(data, "new_status"))
  }

  /** `wo_assigned`: the agent and the assignment time (0 by default). */
  function AssignedPatch(data: Row): Row -> Row
  {
    (r: Row) => Set(Set(r, "assigned_agent_id", Json.Get(data, "agent_id")),
                    "timestamp_assigned", GetOr(data, "timestamp_assigned", Json.Num(0.0)))
  }

  /** `wo_progress_updated`: the remaining quantity and volume, and the progress (0 by default). */
  function ProgressPatch(data: Row): Row -> Row
  {
    (r: Row) => Set(Set(Set(r, "cantidad_restante", Json.Get(data, "cantidad_restante")),
                        "volumen_restante", Json.Get(data, "volumen_restante")),
                    "progress", GetOr(data, "progress_percentage", Json.Num(0.0)))
  }

  /** `wo_completed`: completed, with nothing remaining, at the given time (0 by default). */
  function CompletedPatch(data: Row): Row -> Row
  {
    (r: Row) => CompletedRow(data, r)
  }

  function CompletedRow(data: Row, r: Row): Row
  {
    var p1 := Set(r, "status", Json.Str("completed"));
    var p2 := Set(p1, "completion_time", GetOr(data, "completion_time", Json.Num(0.0)));
    var p3 := Set(p2, "cantidad_restante", Json.Num(0.0));
    Set(p3, "volumen_restante", Json.Num(0.0))
  }

  /** A completed work order reads as completed with nothing left, and keeps its other fields. */
  lemma CompletedPatchFacts(data: Row, r: Row)
    ensures var p := CompletedRow(data, r);
      && p.vals["status"] == Json.Str("completed")
      && p.vals["cantidad_restante"] == Json.Num(0.0) && p.vals["volumen_restante"] == Json.Num(0.0)
      && r.vals.Keys <= p.vals.Keys
      && forall k :: k in r.vals && k !in {"status", "completion_time", "cantidad_restante", "volumen_restante"} ==>
           p.vals[k] == r.vals[k]
  {
    var s, t, c, vol := "status", "completion_time", "cantidad_restante", "volumen_restante";
    assert |s| == 6 && |t| == 15 && |c| == 17 && |vol| == 16;
  }

  /** `metrics_updated`: merged into the local metrics unless rebuilding. */
  function MetricsUpdated(v: View, data: Row): (r: View)
    ensures v.rebuilding ==> r == v
    ensures !v.rebuilding ==> r == v.(metrics := r.metrics) && r.metrics.vals == v.metrics.vals + data.vals
  {
    if v.rebuilding then v else v.(metrics := Update(v.metrics, data))
  }

  /**
   * `handle_message`: an empty message or legacy mode changes nothing;
   * otherwise the event type picks the handler.  A snapshot goes to the
   * handler as written, which may confirm twice or raise part-way.
   */
  function Handle(v: View, msg: Row, eventSourcing: bool, hasQueue: bool): (r: Outcome)
    ensures msg.keys == [] || !eventSourcing ==> r == Outcome(v, 0, false)
    ensures r.raised <==> |msg.keys| > 0 && eventSourcing && Json.Get(msg, "type") == Json.Str("state_snapshot")
                          && SnapshotRaises(msg)
    ensures r.sent > 0 ==> Json.Get(msg, "type") == Json.Str("state_snapshot") && hasQueue
    ensures r.sent <= 2
    ensures Json.Get(msg, "type") != Json.Str("state_snapshot") ==>
              (r.view, r.sent) == HandleCorrected(v, msg, eventSourcing, hasQueue)
  {
    if |msg.keys| > 0 && eventSourcing && Json.Get(msg, "type") == Json.Str("state_snapshot") then
      SnapshotAsWritten(v, msg, hasQueue)
    else
      var c := HandleCorrected(v, msg, eventSourcing, hasQueue);
      Outcome(c.0, c.1, false)
  }

  /**
   * `handle_message` with the corrected snapshot handler: it never raises.
   * The second result counts the `SEEK_COMPLETE` confirmations sent.
   */
  function HandleCorrected(v: View, msg: Row, eventSourcing: bool, hasQueue: bool): (r: (View, nat))
    ensures msg.keys == [] || !eventSourcing ==> r == (v, 0)
    ensures r.1 > 0 ==> Json.Get(msg, "type") == Json.Str("state_snapshot") && hasQueue
    ensures r.1 <= 1
  {
    if |msg.keys| == 0 || !eventSourcing then (v, 0)
    else
      var t := Json.Get(msg, "type");
      var data := DataOf(msg);
      if t == Json.Str("state_reset") then (Reset(v), 0)
      else if t == Json.Str("state_snapshot") then Snapshot(v, msg, hasQueue)
      else if t == Json.Str("wo_status_changed") then (Granular(v, data, StatusPatch(data)), 0)
      else if t == Json.Str("wo_assigned") then (Granular(v, data, AssignedPatch(data)), 0)
      else if t == Json.Str("wo_progress_updated") then (Granular(v, data, ProgressPatch(data)), 0)
      else if t == Json.Str("wo_completed") then (Granular(v, data, CompletedPatch(data)), 0)
      else if t == Json.Str("metrics_updated") then (MetricsUpdated(v, data), 0)
      else (v, 0)
  }

  /** The event types that patch a single work order. */
  predicate IsGranular(msg: Row)
  {
    Json.Get(msg, "type") in {Json.Str("wo_status_changed"), Json.Str("wo_assigned"),
                              Json.Str("wo_progress_updated"), Json.Str("wo_completed")}
  }

  /** Between a reset and its snapshot, granular events are ignored. */
  lemma GranularBlockedAfterReset(v: View, msg: Row, granular: Row, hasQueue: bool)
    requires IsGranular(granular)
    ensures var after := Reset(v);
      Handle(after, granular, true, hasQueue) == Outcome(after, 0, false)
  {
  }

  /**
   * The seek protocol: a reset followed by a snapshot leaves the same work
   * orders and operators whatever the dashboard held before.
   */
  lemma SeekRebuildsFromSnapshot(v1: View, v2: View, snap: Row, hasQueue: bool)
    requires Json.Get(snap, "type") == Json.Str("state_snapshot")
    ensures var r1 := Snapshot(Reset(v1), snap, hasQueue).0;
      var r2 := Snapshot(Reset(v2), snap, hasQueue).0;
      r1.local == r2.local && r1.operators == r2.operators && r1.metrics == r2.metrics && !r1.rebuilding
  {
  }

  /** After a reset and a snapshot, each work-order id shows once, with the snapshot's last entry for it. */
  lemma SnapshotTableAfterReset(v: View, snap: Row, hasQueue: bool, i: nat)
    requires i < |SnapshotWorkOrders(snap)| && HasId(SnapshotWorkOrders(snap)[i])
    requires forall j :: i < j < |SnapshotWorkOrders(snap)| ==>
               RowId(SnapshotWorkOrders(snap)[j]) != RowId(SnapshotWorkOrders(snap)[i])
    ensures var r := Snapshot(Reset(v), snap, hasQueue).0;
      var wo := SnapshotWorkOrders(snap)[i];
      RowId(wo) in r.local.vals && r.local.vals[RowId(wo)] == wo && wo in Table(r)
  {
    var r := Snapshot(Reset(v), snap, hasQueue).0;
    var wo := SnapshotWorkOrders(snap)[i];
    SnapshotLocal(Reset(v), snap, hasQueue);
    AddByIdLastWins(Reset(v).local, SnapshotWorkOrders(snap), i);
    ValueListed(r.local, RowId(wo));
  }

  /** A snapshot adds its work orders to the local table by id. */
  lemma SnapshotLocal(v: View, snap: Row, hasQueue: bool)
    ensures Snapshot(v, snap, hasQueue).0.local == AddById(v.local, SnapshotWorkOrders(snap))
  {
  }

  /** `_find_row_by_wo_id`: the first row with the id, or -1. */
  function FindRow(rows: seq<Row>, id: Json.Value): (i: int)
    ensures -1 <= i < |rows|
    ensures i == -1 <==> id !in Ids(rows)
    ensures i >= 0 ==> RowId(rows[i]) == id && forall j :: 0 <= j < i ==> RowId(rows[j]) != id
  {
    if |rows| == 0 then -1
    else if RowId(rows[0]) == id then 0
    else
      var i := FindRow(rows[1..], id);
      assert Ids(rows) == {RowId(rows[0])} + Ids(rows[1..]) by {
        assert forall j :: 1 <= j < |rows| ==> rows[j] == rows[1..][j - 1];
      }
      if i == -1 then -1 else i + 1
  }
}

/**
 * The buffered work-order dashboard: a full state replaces the table and
 * drops any buffered deltas; deltas only accumulate, and a timer merges the
 * whole buffer into the table at once.
 */
module BufferedDashboard {
  import opened Wrappers
  import opened Dicts
  import Json
  import opened WorkOrderTable
  import DashboardEvents

  datatype Buffered = Buffered(rows: seq<Row>, buffer: seq<Row>)

  /** `message.get("data", [])` as a list of dictionaries. */
  function Payload(msg: Row): seq<Row>
  {
    DashboardEvents.Objects(Json.Get(msg, "data"))
  }

  predicate IsFullState(msg: Row)
  {
    Json.Get(msg, "type") == Json.Str("full_state") || Json.Get(msg, "type") == Json.Str("FULL_STATE_SNAPSHOT")
  }

  /** `handle_message`. */
  function HandleMessage(b: Buffered, msg: Row): (r: Buffered)
    ensures IsFullState(msg) ==> r == Buffered(Payload(msg), [])
    ensures Json.Get(msg, "type") == Json.Str("delta") ==> r == b.(buffer := b.buffer + Payload(msg))
    ensures !IsFullState(msg) ==> r.rows == b.rows
    ensures !IsFullState(msg) && Json.Get(msg, "type") != Json.Str("delta") ==> r == b
  {
    var t := Json.Get(msg, "type");
    if IsFullState(msg) then Buffered(Payload(msg), [])
    else if t == Json.Str("delta") then
      var updates := Payload(msg);
      if |updates| > 0 then b.(buffer := b.buffer + updates)
      else
        assert b.buffer + updates == b.buffer;
        b
    else b
  }

  /**
   * `process_buffered_updates`: nothing on an empty buffer; otherwise the
   * buffer is merged into the table and emptied.  A merge that raises leaves
   * both as they were.
   */
  function ProcessBufferedUpdates(b: Buffered): (r: Buffered)
    ensures b.buffer == [] ==> r == b
    ensures b.buffer != [] && UpdateData(b.rows, b.buffer).Some? ==>
              r == Buffered(UpdateData(b.rows, b.buffer).value, [])
    ensures UpdateData(b.rows, b.buffer).None? ==> r == b
  {
    if |b.buffer| == 0 then b
    else
      match UpdateData(b.rows, b.buffer)
      case None => b
      case Some(rows) => Buffered(rows, [])
  }

  /** Two deltas and a flush merge the concatenated updates in one go. */
  lemma DeltasThenFlush(b: Buffered, d1: Row, d2: Row)
    requires Json.Get(d1, "type") == Json.Str("delta") && Json.Get(d2, "type") == Json.Str("delta")
    ensures ProcessBufferedUpdates(HandleMessage(HandleMessage(b, d1), d2))
         == ProcessBufferedUpdates(b.(buffer := b.buffer + Payload(d1) + Payload(d2)))
  {
  }

  /** A full state after any number of deltas discards them: the next flush changes nothing. */
  lemma FullStateDiscardsDeltas(b: Buffered, full: Row)
    requires IsFullState(full)
    ensures var r := HandleMessage(b, full);
      ProcessBufferedUpdates(r) == r && r.rows == Payload(full)
  {
  }
}
