/**
 * The stand-alone work-order dashboard page: a table of the work orders at
 * the current replay time, playback that advances the time, a slider that
 * seeks, and column sorting.  Each change of time fetches the state at that
 * time; the fetch's answer (or its failure) is a parameter of the update.
 *
 * `fixed(x, d)` is JavaScript's `x.toFixed(d)` and `show` is `String(n)`;
 * both are parameters because the model does not reproduce number
 * formatting.
 */
module WebDashboard {
  import opened Wrappers
  import opened Strs
  import Json
  import Dicts
  import TableSort

  datatype Dashboard = Dashboard(
    workOrders: Json.Fields,
    currentTime: real,
    maxTime: real,
    sort: TableSort.SortState,
    playing: bool,
    speed: real)

  /** The state the page starts with, before its first fetch. */
  function Initial(): (d: Dashboard)
    ensures d.workOrders.keys == [] && d.currentTime == 0.0 && d.maxTime == 0.0
    ensures d.sort == TableSort.Initial() && !d.playing && d.speed == 1.0
  {
    Dashboard(Dicts.Empty(), 0.0, 0.0, TableSort.Initial(), false, 1.0)
  }

  /** `stateData.max_time || state.maxTime` for a numeric or missing `max_time`. */
  function MaxTimeOf(data: Json.Value, previous: real): (m: real)
    ensures Json.Field(data, "max_time").Num? && Json.Field(data, "max_time").n != 0.0 ==> m == Json.Field(data, "max_time").n
    ensures !(Json.Field(data, "max_time").Num? && Json.Field(data, "max_time").n != 0.0) ==> m == previous
  {
    var v := Json.Field(data, "max_time");
    if v.Num? && v.n != 0.0 then v.n else previous
  }

  /** The work orders of an answer: the entries of `work_orders` when it is an object, none otherwise. */
  function EntriesOf(data: Json.Value): (m: Json.Fields)
    ensures Json.Field(data, "work_orders").Obj? ==> m == Json.Field(data, "work_orders").fields
    ensures !Json.Field(data, "work_orders").Obj? ==> m.keys == []
  {
    var v := Json.Field(data, "work_orders");
    if v.Obj? then v.fields else Dicts.Empty()
  }

  /**
   * `updateStateAtTime`: a failed or empty answer changes nothing; otherwise
   * the time moves, the end time is replaced when the answer has one, and
   * the work orders are replaced wholesale.
   */
  function UpdateAt(d: Dashboard, t: real, answer: Option<Json.Value>): (r: Dashboard)
    ensures answer.None? || !Json.JsTruthy(answer.value) ==> r == d
    ensures answer.Some? && Json.JsTruthy(answer.value) ==>
      && r.currentTime == t
      && r.maxTime == MaxTimeOf(answer.value, d.maxTime)
      && r.workOrders == EntriesOf(answer.value)
      && r.(currentTime := d.currentTime, maxTime := d.maxTime, workOrders := d.workOrders) == d
  {
    if answer.None? || !Json.JsTruthy(answer.value) then d
    else d.(currentTime := t, maxTime := MaxTimeOf(answer.value, d.maxTime), workOrders := EntriesOf(answer.value))
  }

  /** A work order from an earlier answer survives an update only if the new answer lists it too. */
  lemma NoStaleWorkOrders(d: Dashboard, t: real, data: Json.Value, id: string)
    requires Json.JsTruthy(data)
    ensures id in UpdateAt(d, t, Some(data)).workOrders.vals <==>
            Json.Field(data, "work_orders").Obj? && id in Json.Field(data, "work_orders").fields.vals
  {
  }

  /** `startPlayback`: does nothing when already playing. */
  function Start(d: Dashboard): (r: Dashboard)
    ensures r.playing && r.(playing := d.playing) == d
  {
    if d.playing then d else d.(playing := true)
  }

  /** `stopPlayback`: does nothing when not playing. */
  function Stop(d: Dashboard): (r: Dashboard)
    ensures !r.playing && r.(playing := d.playing) == d
  {
    if !d.playing then d else d.(playing := false)
  }

  /** Pressing play or pause twice is the same as pressing it once. */
  lemma StartStopIdempotent(d: Dashboard)
    ensures Start(Start(d)) == Start(d)
    ensures Stop(Stop(d)) == Stop(d)
    ensures d.playing ==> Start(d) == d
    ensures !d.playing ==> Stop(d) == d
  {
  }

  /** The time a tick asks for: elapsed time scaled by the speed, clamped to the end. */
  function TickTarget(d: Dashboard, elapsedMs: real): real
  {
    var t := d.currentTime + elapsedMs / 1000.0 * d.speed;
    if t >= d.maxTime then d.maxTime else t
  }

  /**
   * One firing of the playback interval: advance, and at the end clamp and
   * stop (the page does not loop back to the start).  Ticks after the
   * interval was cleared do nothing.
   */
  function Tick(d: Dashboard, elapsedMs: real, answer: Option<Json.Value>): (r: Dashboard)
    ensures !d.playing ==> r == d
  {
    if !d.playing then d
    else
      var reached := d.currentTime + elapsedMs / 1000.0 * d.speed >= d.maxTime;
      UpdateAt(if reached then Stop(d) else d, TickTarget(d, elapsedMs), answer)
  }

  /** A tick never asks past the end; reaching the end stops playback, whether or not the fetch succeeds. */
  lemma TickClampsAndStops(d: Dashboard, elapsedMs: real, answer: Option<Json.Value>)
    requires d.playing
    ensures TickTarget(d, elapsedMs) <= d.maxTime
    ensures !Tick(d, elapsedMs, answer).playing <==> d.currentTime + elapsedMs / 1000.0 * d.speed >= d.maxTime
    ensures answer.Some? && Json.JsTruthy(answer.value) ==> Tick(d, elapsedMs, answer).currentTime == TickTarget(d, elapsedMs)
  {
  }

  /** After playback reaches the end, further ticks change nothing: it does not loop. */
  lemma NoLoopAtEnd(d: Dashboard, elapsedMs: real, answer: Option<Json.Value>, later: real, answer2: Option<Json.Value>)
    requires d.playing && d.currentTime + elapsedMs / 1000.0 * d.speed >= d.maxTime
    ensures var r := Tick(d, elapsedMs, answer);
      Tick(r, later, answer2) == r
  {
  }

  /** Moving the slider stops playback, then fetches the chosen time. */
  function Seek(d: Dashboard, target: real, answer: Option<Json.Value>): (r: Dashboard)
    ensures !r.playing
    ensures answer.Some? && Json.JsTruthy(answer.value) ==> r.currentTime == target
    ensures answer.None? ==> r == Stop(d)
  {
    UpdateAt(Stop(d), target, answer)
  }

  /** The reset button: stop, then fetch time zero. */
  function Reset(d: Dashboard, answer: Option<Json.Value>): (r: Dashboard)
    ensures !r.playing
    ensures answer.Some? && Json.JsTruthy(answer.value) ==> r.currentTime == 0.0
  {
    UpdateAt(Stop(d), 0.0, answer)
  }

  /** A header click re-sorts; nothing else changes. */
  function ClickHeader(d: Dashboard, column: string): (r: Dashboard)
    ensures r.sort == TableSort.Click(d.sort, column) && r.(sort := d.sort) == d
  {
    d.(sort := TableSort.Click(d.sort, column))
  }

  /** The rows in the order shown. */
  function Rows(d: Dashboard, show: real -> string): (rows: seq<Json.Value>)
    ensures multiset(rows) == multiset(Dicts.Values(d.workOrders))
  {
    TableSort.SortRows(Dicts.Values(d.workOrders), d.sort, show)
  }

  // ---------------------------------------------------------------------
  // Row rendering
  // ---------------------------------------------------------------------

  /** The row's CSS class: `status-` and the status, `released` when it has none. */
  function StatusClass(wo: Json.Value, show: real -> string): (c: string)
    ensures StartsWith(c, "status-")
    ensures !Json.JsTruthy(Json.Field(wo, "status")) ==> c == "status-released"
    ensures Json.Field(wo, "status").Str? && Json.Field(wo, "status").s != "" ==> c == "status-" + Json.Field(wo, "status").s
  {
    var s := Json.Field(wo, "status");
    var text := if Json.JsTruthy(s) then TableSort.JsText(s, show) else "released";
    assert ("status-" + text)[..|"status-"|] == "status-";
    "status-" + text
  }

  /** The text of one cell. */
  function CellText(wo: Json.Value, column: string, fixed: (real, nat) -> string, show: real -> string): (t: string)
    ensures Json.Field(wo, column).Null? ==> t == ""
  {
    var v := Json.Field(wo, column);
    if v.Null? then ""
    else if column == "location" || column == "staging" then
      (if v.Arr? then "(" + Join(ItemTexts(v.items, show), ", ") + ")" else TableSort.JsText(v, show))
    else if (column == "volume" || column == "start_time") && v.Num? then fixed(v.n, 2)
    else if column == "progress" && v.Num? then fixed(v.n * 100.0, 1) + "%"
    else TableSort.JsText(v, show)
  }

  function ItemTexts(items: seq<Json.Value>, show: real -> string): (r: seq<string>)
    ensures |r| == |items|
    ensures forall i :: 0 <= i < |items| ==> r[i] == TableSort.JsText(items[i], show)
  {
    seq(|items|, i requires 0 <= i < |items| => TableSort.JsText(items[i], show))
  }

  /** A location pair is shown as `(x, y)`, and a progress fraction as a percentage. */
  lemma CellFormats(wo: Json.Value, fixed: (real, nat) -> string, show: real -> string, x: real, y: real)
    ensures Json.Field(wo, "location") == Json.Arr([Json.Num(x), Json.Num(y)])
            ==> CellText(wo, "location", fixed, show) == "(" + show(x) + ", " + show(y) + ")"
    ensures Json.Field(wo, "progress") == Json.Num(x)
            ==> CellText(wo, "progress", fixed, show) == fixed(x * 100.0, 1) + "%"
  {
    if Json.Field(wo, "location") == Json.Arr([Json.Num(x), Json.Num(y)]) {
      var parts := ItemTexts([Json.Num(x), Json.Num(y)], show);
      assert parts == [show(x), show(y)];
      assert Join(parts, ", ") == show(x) + ", " + show(y);
    }
  }
}
