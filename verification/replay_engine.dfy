/**
 * The replay engine: a recorded event log (dictionaries with a `timestamp`,
 * a `type` and type-specific fields) replayed against a clock.  A frame
 * advances the playback time by the frame delta times the replay speed,
 * enqueues every not yet enqueued event whose time has come, and processes
 * at most 100 queued events.  A seek rebuilds the state of the work orders
 * and operators at a target time from the initial work orders and the
 * events up to that time.
 *
 * Identifiers (work-order ids, agent ids) are modelled as strings; an empty
 * string or a value of another type counts as absent.
 */
module ReplayEngine {
  import opened Wrappers
  import opened Seqs
  import opened Dicts
  import Json
  import Strs

  type Fields = Json.Fields

  /** `(e.get('timestamp') or 0.0)`: a missing, null or zero timestamp reads as time zero. */
  function Timestamp(e: Fields): (t: real)
    ensures Json.Get(e, "timestamp").Num? ==> t == Json.Get(e, "timestamp").n
    ensures !Json.Get(e, "timestamp").Num? ==> t == 0.0
  {
    match Json.Or(Json.Get(e, "timestamp"), Json.Num(0.0))
    case Num(n) => n
    case _ => 0.0
  }

  /** A truthy identifier. */
  function IdOf(v: Json.Value): (r: Option<string>)
    ensures r.Some? <==> v.Str? && |v.s| > 0
    ensures r.Some? ==> v == Json.Str(r.value)
  {
    if v.Str? && |v.s| > 0 then Some(v.s) else None
  }

  // ---------------------------------------------------------------------
  // Replay speed
  // ---------------------------------------------------------------------

  /** The speeds the `+` and `-` keys step through. */
  const Ladder: seq<real> := [0.25, 0.5, 1.0, 2.0, 4.0, 8.0, 16.0, 32.0, 64.0]

  /** The current speed's position on the ladder; a speed off the ladder counts as position 2 (1x). */
  function LadderIndex(speed: real): (i: nat)
    ensures i < |Ladder|
    ensures speed in Ladder ==> Ladder[i] == speed
    ensures speed !in Ladder ==> i == 2
  {
    if speed == 0.25 then 0 else if speed == 0.5 then 1 else if speed == 1.0 then 2
    else if speed == 2.0 then 3 else if speed == 4.0 then 4 else if speed == 8.0 then 5
    else if speed == 16.0 then 6 else if speed == 32.0 then 7 else if speed == 64.0 then 8
    else 2
  }

  /** The `+` key: one step up the ladder, staying at the top. */
  function Faster(speed: real): (r: real)
    ensures r in Ladder
    ensures speed in Ladder ==> r >= speed
    ensures r == speed <==> speed == 64.0
  {
    var i := LadderIndex(speed);
    if i < |Ladder| - 1 then Ladder[i + 1] else speed
  }

  /** The `-` key: one step down the ladder, staying at the bottom. */
  function Slower(speed: real): (r: real)
    ensures r in Ladder
    ensures speed in Ladder ==> r <= speed
    ensures r == speed <==> speed == 0.25
  {
    var i := LadderIndex(speed);
    if i > 0 then Ladder[i - 1] else speed
  }

  /** Away from the ends, `-` undoes `+` and `+` undoes `-`. */
  lemma FasterSlowerInverse(speed: real)
    requires speed in Ladder
    ensures speed != 64.0 ==> Slower(Faster(speed)) == speed
    ensures speed != 0.25 ==> Faster(Slower(speed)) == speed
  {
    var i := LadderIndex(speed);
    if i < |Ladder| - 1 {
      assert LadderIndex(Ladder[i + 1]) == i + 1 by { LadderInjective(i + 1); }
    }
    if i > 0 {
      assert LadderIndex(Ladder[i - 1]) == i - 1 by { LadderInjective(i - 1); }
    }
  }

  lemma LadderInjective(i: nat)
    requires i < |Ladder|
    ensures LadderIndex(Ladder[i]) == i
  {
    var j := LadderIndex(Ladder[i]);
    assert Ladder[j] == Ladder[i];
  }

  /** An unlisted speed jumps to 2x with `+` and to 0.5x with `-`. */
  lemma UnlistedSpeed(speed: real)
    requires speed !in Ladder
    ensures Faster(speed) == 2.0 && Slower(speed) == 0.5
  {
  }

  // ---------------------------------------------------------------------
  // Seeking
  // ---------------------------------------------------------------------

  /** The indices of the events at or before the target: `processed_event_indices` after a seek. */
  function ProcessedBy(events: seq<Fields>, target: real): (s: set<nat>)
    ensures forall i: nat :: i in s <==> i < |events| && Timestamp(events[i]) <= target
  {
    set i: nat | i < |events| && Timestamp(events[i]) <= target
  }

  /** The events at or before the target, in log order. */
  function EventsUpTo(events: seq<Fields>, target: real): (r: seq<Fields>)
    ensures |r| == |ProcessedBy(events, target)|
    ensures forall i :: 0 <= i < |r| ==> r[i] in events && Timestamp(r[i]) <= target
    decreases |events|
  {
    if events == [] then []
    else
      var rest := EventsUpTo(events[..|events| - 1], target);
      var last := events[|events| - 1];
      ProcessedSnoc(events, target);
      if Timestamp(last) <= target then rest + [last] else rest
  }

  lemma ProcessedSnoc(events: seq<Fields>, target: real)
    requires events != []
    ensures var n := |events| - 1;
      ProcessedBy(events, target)
      == ProcessedBy(events[..n], target) + (if Timestamp(events[n]) <= target then {n} else {})
  {
    var n := |events| - 1;
    var a := ProcessedBy(events, target);
    var b := ProcessedBy(events[..n], target) + (if Timestamp(events[n]) <= target then {n} else {});
    forall i: nat ensures i in a <==> i in b {
      if i < n {
        assert events[..n][i] == events[i];
      }
    }
  }

  /** The highest index at or before the target, -1 when there is none: `last_event_idx_enqueued` after a seek. */
  function LastAtOrBefore(events: seq<Fields>, target: real): (r: int)
    ensures -1 <= r < |events|
    ensures r >= 0 ==> Timestamp(events[r]) <= target
    ensures forall j :: r < j < |events| ==> Timestamp(events[j]) > target
    decreases |events|
  {
    if events == [] then -1
    else if Timestamp(events[|events| - 1]) <= target then |events| - 1
    else LastAtOrBefore(events[..|events| - 1], target)
  }

  /** The enqueue cursor after a seek is the largest processed index, or -1 when none is. */
  lemma LastIsMaxProcessed(events: seq<Fields>, target: real)
    ensures var r := LastAtOrBefore(events, target);
      var s := ProcessedBy(events, target);
      && (r == -1 <==> s == {})
      && (r >= 0 ==> r in s && forall j :: j in s ==> j <= r)
  {
    var r := LastAtOrBefore(events, target);
    var s := ProcessedBy(events, target);
    if s != {} {
      var j :| j in s;
      assert j <= r;
    }
  }

  // ---------------------------------------------------------------------
  // Rebuilding the snapshot
  // ---------------------------------------------------------------------

  /** Work orders and operators by id, in first-insertion order. */
  datatype World = World(wos: Dict<string, Fields>, ops: Dict<string, Fields>)

  /** An operator's `work_orders_asignadas`, a list (absent reads as empty). */
  function Assigned(op: Fields): seq<Json.Value>
  {
    var v := Json.Get(op, "work_orders_asignadas");
    if v.Arr? then v.items else []
  }

  /**
   * A work order changes hands: the old agent drops it as current task (only
   * if it still is its current task), and the new agent, if known, takes it
   * (with the event's work area when that is set).
   */
  function Reassign(ops: Dict<string, Fields>, woId: string, oldAgent: Json.Value, newAgent: Json.Value,
                    workArea: Json.Value): (r: Dict<string, Fields>)
    ensures r.vals.Keys == ops.vals.Keys && r.keys == ops.keys
    ensures forall a :: a in ops.vals && Json.Str(a) != oldAgent && Json.Str(a) != newAgent ==> r.vals[a] == ops.vals[a]
    ensures IdOf(newAgent).Some? && IdOf(newAgent).value in ops.vals ==>
      Json.Get(r.vals[IdOf(newAgent).value], "current_task") == Json.Str(woId)
    ensures IdOf(oldAgent).Some? && IdOf(oldAgent).value in ops.vals && oldAgent != newAgent ==>
      var o := IdOf(oldAgent).value;
      Json.Get(r.vals[o], "current_task")
      == if Json.Get(ops.vals[o], "current_task") == Json.Str(woId) then Json.Null else Json.Get(ops.vals[o], "current_task")
  {
    var ops1 :=
      match IdOf(oldAgent)
      case Some(o) =>
        if o in ops.vals && Json.Get(ops.vals[o], "current_task") == Json.Str(woId) then
          Set(ops, o, Set(Set(ops.vals[o], "current_task", Json.Null), "current_work_area", Json.Null))
        else ops
      case None => ops;
    match IdOf(newAgent)
    case Some(n) =>
      if n in ops1.vals then
        var op := Set(ops1.vals[n], "current_task", Json.Str(woId));
        Set(ops1, n, if Json.Truthy(workArea) then Set(op, "current_work_area", workArea) else op)
      else ops1
    case None => ops1
  }

  /** The first operator id that contains, or is contained in, the agent id. */
  function FirstMatch(keys: seq<string>, agent: string): (r: Option<string>)
    ensures r.Some? ==> r.value in keys && (Strs.Contains(agent, r.value) || Strs.Contains(r.value, agent))
    ensures r.None? <==> forall k :: k in keys ==> !Strs.Contains(agent, k) && !Strs.Contains(k, agent)
  {
    if keys == [] then None
    else if Strs.Contains(agent, keys[0]) || Strs.Contains(keys[0], agent) then Some(keys[0])
    else FirstMatch(keys[1..], agent)
  }

  /**
   * The short operator id of an agent: a matching known operator, else the
   * agent id with its ground-operator or forklift prefix removed.
   */
  function ShortId(keys: seq<string>, agent: string): (r: Option<string>)
    ensures r.Some? ==> |r.value| > 0
    ensures FirstMatch(keys, agent).Some? && |FirstMatch(keys, agent).value| > 0 ==> r == FirstMatch(keys, agent)
    ensures r.None? ==> (FirstMatch(keys, agent).None? || FirstMatch(keys, agent).value == "")
                         && !Strs.Contains(agent, "GroundOp-") && !Strs.Contains(agent, "Forklift-")
  {
    var m := FirstMatch(keys, agent);
    var r :=
      if m.Some? && |m.value| > 0 then m
      else if Strs.Contains(agent, "GroundOp-") then Some(Strs.Replace(agent, "GroundOperator_", ""))
      else if Strs.Contains(agent, "Forklift-") then Some(Strs.Replace(agent, "Forklift_", ""))
      else None;
    if r.Some? && |r.value| == 0 then
      NonEmptyAfterReplace(agent);
      None
    else r
  }

  /** The markers end in `-`, which the removed prefixes lack, so the short id is never empty. */
  lemma NonEmptyAfterReplace(agent: string)
    ensures Strs.Contains(agent, "GroundOp-") ==> |Strs.Replace(agent, "GroundOperator_", "")| > 0
    ensures Strs.Contains(agent, "Forklift-") ==> |Strs.Replace(agent, "Forklift_", "")| > 0
  {
    if Strs.Contains(agent, "GroundOp-") {
      ContainsChar(agent, "GroundOp-", '-');
      ReplaceKeepsChar(agent, "GroundOperator_", '-');
    }
    if Strs.Contains(agent, "Forklift-") {
      ContainsChar(agent, "Forklift-", '-');
      ReplaceKeepsChar(agent, "Forklift_", '-');
    }
  }

  lemma ContainsChar(s: string, sub: string, c: char)
    requires Strs.Contains(s, sub) && c in sub
    ensures c in s
  {
    Strs.ContainsIff(s, sub);
    var i :| Strs.OccursAt(s, sub, i);
    var j :| 0 <= j < |sub| && sub[j] == c;
    assert s[i..i + |sub|][j] == c;
  }

  /** Removing a pattern never removes a character the pattern does not hold. */
  lemma {:induction false} ReplaceKeepsChar(s: string, pat: string, c: char)
    requires |pat| > 0 && c in s && c !in pat
    ensures c in Strs.Replace(s, pat, "")
    decreases |s|
  {
    if Strs.StartsWith(s, pat) {
      var k :| 0 <= k < |s| && s[k] == c;
      assert forall m :: 0 <= m < |pat| ==> s[m] == pat[m] by {
        assert s[..|pat|] == pat;
      }
      assert k >= |pat|;
      assert s[|pat|..][k - |pat|] == c;
      ReplaceKeepsChar(s[|pat|..], pat, c);
    } else if s[0] != c {
      var k :| 0 <= k < |s| && s[k] == c;
      assert s[1..][k - 1] == c;
      ReplaceKeepsChar(s[1..], pat, c);
    }
  }

  /** An operator is listed against a work order once: appended only when not already present. */
  function AddAssigned(ops: Dict<string, Fields>, short: string, woId: string): (r: Dict<string, Fields>)
    ensures short in r.vals
    ensures forall a :: a in ops.vals && a != short ==> a in r.vals && r.vals[a] == ops.vals[a]
    ensures var before := if short in ops.vals then Assigned(ops.vals[short]) else [];
      && Json.Str(woId) in Assigned(r.vals[short])
      && Assigned(r.vals[short]) == (if Json.Str(woId) in before then before else before + [Json.Str(woId)])
      && (NoDup(before) ==> NoDup(Assigned(r.vals[short])))
  {
    var op := if short in ops.vals then ops.vals[short] else Empty();
    var before := Assigned(op);
    var after := if Json.Str(woId) in before then before else before + [Json.Str(woId)];
    NoDupAdd(before, Json.Str(woId));
    Set(ops, short, Set(op, "work_orders_asignadas", Json.Arr(after)))
  }

  lemma NoDupAdd<T>(s: seq<T>, x: T)
    ensures NoDup(s) && x !in s ==> NoDup(s + [x])
  {
    if NoDup(s) && x !in s { NoDupSnoc(s, x); }
  }

  /**
   * A `work_order_update` event for `woId`: the work order (created empty if
   * new) takes every field of the event, then a change of agent is applied
   * to the operators and the work order is listed against its agent.
   */
  function ApplyWorkOrderUpdate(w: World, woId: string, ev: Fields): (r: World)
    ensures woId in r.wos.vals && r.wos.vals[woId].vals == (if woId in w.wos.vals then w.wos.vals[woId].vals else map[]) + ev.vals
    ensures forall id :: id in w.wos.vals && id != woId ==> id in r.wos.vals && r.wos.vals[id] == w.wos.vals[id]
    ensures |w.wos.keys| <= |r.wos.keys| && r.wos.keys[..|w.wos.keys|] == w.wos.keys
    ensures r.wos.vals.Keys == w.wos.vals.Keys + {woId}
  {
    var prev := if woId in w.wos.vals then w.wos.vals[woId] else Empty();
    World(Set(w.wos, woId, Update(prev, ev)), OperatorsAfterUpdate(w.ops, prev, woId, ev))
  }

  /** The operators' side of a work-order update. */
  function OperatorsAfterUpdate(ops: Dict<string, Fields>, prev: Fields, woId: string, ev: Fields): Dict<string, Fields>
  {
    var newAgent := Json.Get(ev, "assigned_agent_id");
    var oldAgent := Json.Get(prev, "assigned_agent_id");
    var ops1 := if newAgent != oldAgent then Reassign(ops, woId, oldAgent, newAgent, Json.Get(ev, "work_area")) else ops;
    var ops2 :=
      match IdOf(newAgent)
      case Some(a) =>
        (match ShortId(ops1.keys, a)
         case Some(short) => AddAssigned(ops1, short, woId)
         case None => ops1)
      case None => ops1;
    ops2
  }

  /** The work-order ids listed in a tour: a dictionary's `id` (itself when it has none), any other item as is. */
  function TourIds(items: seq<Json.Value>): (r: seq<Json.Value>)
    ensures |r| == |items|
    ensures forall i :: 0 <= i < |r| ==> r[i] == if items[i].Obj? then GetOr(items[i].fields, "id", items[i]) else items[i]
  {
    seq(|items|, (i: int) requires 0 <= i < |items| =>
      if items[i].Obj? then GetOr(items[i].fields, "id", items[i]) else items[i])
  }

  /**
   * An `estado_agente` event: the operator (created empty if new) takes the
   * fields of `data`; a current tour with a work-order list replaces the
   * operator's assigned list wholesale.
   */
  function ApplyAgentState(w: World, agent: string, data: Fields): (r: World)
    ensures r.wos == w.wos
    ensures agent in r.ops.vals
    ensures forall a :: a in w.ops.vals && a != agent ==> a in r.ops.vals && r.ops.vals[a] == w.ops.vals[a]
    ensures var tour := Json.Get(data, "tour_actual");
      Json.Truthy(tour) && Json.Field(tour, "work_orders").Arr? ==>
      Assigned(r.ops.vals[agent]) == TourIds(Json.Field(tour, "work_orders").items)
    ensures forall k :: k in data.vals && k != "work_orders_asignadas" ==>
      k in r.ops.vals[agent].vals && r.ops.vals[agent].vals[k] == data.vals[k]
  {
    World(w.wos, Set(w.ops, agent, AgentFields(if agent in w.ops.vals then w.ops.vals[agent] else Empty(), data)))
  }

  /** An operator's fields after an `estado_agente` update. */
  function AgentFields(op: Fields, data: Fields): (r: Fields)
    ensures var tour := Json.Get(data, "tour_actual");
      Json.Truthy(tour) && Json.Field(tour, "work_orders").Arr? ==>
      Assigned(r) == TourIds(Json.Field(tour, "work_orders").items)
    ensures forall k :: k in data.vals && k != "work_orders_asignadas" ==> k in r.vals && r.vals[k] == data.vals[k]
  {
    var op1 := Update(op, data);
    var tour := Json.Get(data, "tour_actual");
    if Json.Truthy(tour) && Json.Field(tour, "work_orders").Arr? then
      Set(op1, "work_orders_asignadas", Json.Arr(TourIds(Json.Field(tour, "work_orders").items)))
    else op1
  }

  /** One event of the log applied to the world; events of other types, or without an id, change nothing. */
  function Apply(w: World, ev: Fields): (r: World)
    ensures UpdateTarget(ev).None? ==> r.wos == w.wos
    ensures UpdateTarget(ev).Some? ==> r.wos == ApplyWorkOrderUpdate(w, UpdateTarget(ev).value, ev).wos
  {
    var kind := Json.Get(ev, "type");
    if kind == Json.Str("work_order_update") && IdOf(Json.Get(ev, "id")).Some? then
      ApplyWorkOrderUpdate(w, IdOf(Json.Get(ev, "id")).value, ev)
    else if kind == Json.Str("estado_agente") && IdOf(Json.Get(ev, "agent_id")).Some? then
      var d := Json.Get(ev, "data");
      ApplyAgentState(w, IdOf(Json.Get(ev, "agent_id")).value, if d.Obj? then d.fields else Empty())
    else w
  }

  /** The id a work-order update targets, if it is one. */
  function UpdateTarget(ev: Fields): Option<string>
  {
    if Json.Get(ev, "type") == Json.Str("work_order_update") then IdOf(Json.Get(ev, "id")) else None
  }

  function Replay(w: World, events: seq<Fields>): (r: World)
    decreases |events|
  {
    if events == [] then w else Apply(Replay(w, events[..|events| - 1]), events[|events| - 1])
  }

  /** Replaying never forgets a work order, keeps the initial order first, and adds every updated one. */
  lemma {:induction false} ReplayKeepsWorkOrders(w: World, events: seq<Fields>)
    ensures var r := Replay(w, events);
      && |w.wos.keys| <= |r.wos.keys| && r.wos.keys[..|w.wos.keys|] == w.wos.keys
      && w.wos.vals.Keys <= r.wos.vals.Keys
      && forall i :: 0 <= i < |events| && UpdateTarget(events[i]).Some? ==> UpdateTarget(events[i]).value in r.wos.vals
    decreases |events|
  {
    if events != [] {
      var init := events[..|events| - 1];
      ReplayKeepsWorkOrders(w, init);
      var p := Replay(w, init);
      var r := Apply(p, events[|events| - 1]);
      assert r == Replay(w, events);
      PrefixTrans(w.wos.keys, p.wos.keys, r.wos.keys);
      forall i | 0 <= i < |events| && UpdateTarget(events[i]).Some?
        ensures UpdateTarget(events[i]).value in r.wos.vals
      {
        if i < |events| - 1 {
          assert events[i] == init[i];
        }
      }
    }
  }

  /**
   * Last write wins: a work order's field holds the value of the last update
   * event for that work order that carried the field.
   */
  lemma {:induction false} ReplayLastWriteWins(w: World, events: seq<Fields>, i: nat, k: string)
    requires i < |events| && UpdateTarget(events[i]).Some? && k in events[i].vals
    requires forall j :: i < j < |events| && UpdateTarget(events[j]) == UpdateTarget(events[i]) ==> k !in events[j].vals
    ensures var id := UpdateTarget(events[i]).value;
      id in Replay(w, events).wos.vals && k in Replay(w, events).wos.vals[id].vals
      && Replay(w, events).wos.vals[id].vals[k] == events[i].vals[k]
    decreases |events|
  {
    var id := UpdateTarget(events[i]).value;
    var n := |events| - 1;
    var init := events[..n];
    assert Replay(w, events) == Apply(Replay(w, init), events[n]);
    if i < n {
      assert init[i] == events[i];
      ReplayLastWriteWins(w, init, i, k);
      ApplyKeepsField(Replay(w, init), events[n], id, k);
    } else {
      ApplyWritesField(Replay(w, init), events[n], k);
    }
  }

  /** An update for a work order writes each of its fields into that work order. */
  lemma ApplyWritesField(w: World, ev: Fields, k: string)
    requires UpdateTarget(ev).Some? && k in ev.vals
    ensures UpdateTarget(ev).value in Apply(w, ev).wos.vals && k in Apply(w, ev).wos.vals[UpdateTarget(ev).value].vals
    ensures Apply(w, ev).wos.vals[UpdateTarget(ev).value].vals[k] == ev.vals[k]
  {
  }

  /** An event that does not write field `k` of work order `id` leaves that field alone. */
  lemma ApplyKeepsField(w: World, ev: Fields, id: string, k: string)
    requires id in w.wos.vals && k in w.wos.vals[id].vals
    requires UpdateTarget(ev) == Some(id) ==> k !in ev.vals
    ensures id in Apply(w, ev).wos.vals && k in Apply(w, ev).wos.vals[id].vals
    ensures Apply(w, ev).wos.vals[id].vals[k] == w.wos.vals[id].vals[k]
  {
  }

  /** The dashboard snapshot: the work orders and operators as lists, and the metrics. */
  datatype Snapshot = Snapshot(workOrders: seq<Fields>, operators: seq<Fields>, total: nat, completed: nat, time: real)

  predicate Staged(wo: Fields)
  {
    Json.Get(wo, "status") == Json.Str("staged")
  }

  /**
   * `_compute_snapshot_from_events`: replay over the initial work orders;
   * operators carry their id; a work order is complete when staged.
   */
  function ComputeSnapshot(initial: Dict<string, Fields>, events: seq<Fields>, target: real): (s: Snapshot)
    ensures s.total == |s.workOrders| && s.completed <= s.total && s.time == target
    ensures s.completed == 0 <==> forall i :: 0 <= i < |s.workOrders| ==> !Staged(s.workOrders[i])
    ensures |initial.keys| <= |s.workOrders|
    ensures forall i :: 0 <= i < |s.operators| ==> Json.Get(s.operators[i], "id").Str?
  {
    var w := Replay(World(initial, Empty()), events);
    ReplayKeepsWorkOrders(World(initial, Empty()), events);
    var wos := Values(w.wos);
    var ops := OperatorRows(w.ops);
    Snapshot(wos, ops, |wos|, Count(wos, Staged), target)
  }

  /** The operators in key order, each record carrying its key under `id`. */
  function OperatorRows(ops: Dict<string, Fields>): (r: seq<Fields>)
    ensures |r| == |ops.keys|
    ensures forall i :: 0 <= i < |r| ==> Json.Get(r[i], "id") == Json.Str(ops.keys[i])
  {
    seq(|ops.keys|, (i: int) requires 0 <= i < |ops.keys| => OperatorRow(ops, i))
  }

  /** The operator stored under the `i`-th key, with that key written under `id`. */
  function OperatorRow(ops: Dict<string, Fields>, i: nat): (r: Fields)
    requires i < |ops.keys|
    ensures Json.Get(r, "id") == Json.Str(ops.keys[i])
    ensures forall k :: k != "id" && k in ops.vals[ops.keys[i]].vals ==> k in r.vals && r.vals[k] == ops.vals[ops.keys[i]].vals[k]
  {
    HasIffKey(ops, ops.keys[i]);
    Set(ops.vals[ops.keys[i]], "id", Json.Str(ops.keys[i]))
  }

  /** `seek_to_time`: the snapshot of the events at or before the target, with the engine's cursors reset. */
  datatype Seek = Seek(snapshot: Snapshot, processed: set<nat>, lastEnqueued: int, queue: seq<nat>, time: real)

  function SeekToTime(initial: Dict<string, Fields>, events: seq<Fields>, target: real): (r: Seek)
    ensures r.time == target && r.snapshot.time == target && r.queue == []
    ensures forall i: nat :: i in r.processed <==> i < |events| && Timestamp(events[i]) <= target
    ensures r.lastEnqueued == -1 <==> r.processed == {}
    ensures r.lastEnqueued >= 0 ==> r.lastEnqueued in r.processed && forall j :: j in r.processed ==> j <= r.lastEnqueued
  {
    LastIsMaxProcessed(events, target);
    Seek(ComputeSnapshot(initial, EventsUpTo(events, target), target), ProcessedBy(events, target),
         LastAtOrBefore(events, target), [], target)
  }

  // ---------------------------------------------------------------------
  // The playback frame
  // ---------------------------------------------------------------------

  /** Events processed per frame. */
  const ChunkSize: nat := 100

  /**
   * The playback state: `local` is the loop's playback time and `shown` the
   * engine's, which is clamped to the end of the log.
   */
  datatype Player = Player(local: real, shown: real, speed: real, paused: bool, finished: bool,
                           lastEnqueued: int, queue: seq<nat>)

  /** The queue holds increasing indices of enqueued events, and the cursor is the last one enqueued. */
  predicate Valid(p: Player, n: nat)
  {
    && -1 <= p.lastEnqueued < n
    && (forall i :: 0 <= i < |p.queue| ==> p.queue[i] <= p.lastEnqueued)
    && (forall i, j :: 0 <= i < j < |p.queue| ==> p.queue[i] < p.queue[j])
  }

  /** The end of the run of events from `i` whose time has come (the scan stops at the first later event). */
  function DueEnd(events: seq<Fields>, i: nat, t: real): (e: nat)
    requires i <= |events|
    ensures i <= e <= |events|
    ensures forall k :: i <= k < e ==> Timestamp(events[k]) <= t
    ensures e == |events| || Timestamp(events[e]) > t
    decreases |events| - i
  {
    if i == |events| || Timestamp(events[i]) > t then i else DueEnd(events, i + 1, t)
  }

  function Range(a: nat, b: nat): (r: seq<nat>)
    requires a <= b
    ensures |r| == b - a && forall k :: 0 <= k < |r| ==> r[k] == a + k
  {
    seq(b - a, (k: int) requires 0 <= k < b - a => a + k)
  }

  /** Every event after position `from` up to `last` is due at time `t`. */
  predicate DueBetween(events: seq<Fields>, from: int, last: int, t: real)
  {
    forall k :: from < k <= last && 0 <= k < |events| ==> Timestamp(events[k]) <= t
  }

  /** The event after position `last`, if there is one, is not yet due at time `t`. */
  predicate StopsBefore(events: seq<Fields>, last: int, t: real)
  {
    0 <= last + 1 < |events| ==> Timestamp(events[last + 1]) > t
  }

  predicate EndEvent(e: Fields)
  {
    Json.Get(e, "event_type") == Json.Str("SIMULATION_END")
  }

  /**
   * The running part of a frame: advance the clock, enqueue the due events
   * (the scan stops at the first event still in the future) and take a
   * chunk of at most 100 from the queue, finishing when its last event ends
   * the simulation.  The chunk is returned alongside.
   */
  function Advance(p: Player, events: seq<Fields>, delta: real): (r: (Player, seq<nat>))
    requires Valid(p, |events|) && !p.paused && !p.finished
    ensures Valid(r.0, |events|)
    ensures r.0.speed == p.speed && !r.0.paused
    ensures r.0.local == p.local + delta * p.speed && r.0.shown == r.0.local
    ensures |r.1| <= ChunkSize && (forall i :: 0 <= i < |r.1| ==> r.1[i] < |events|)
    ensures r.0.lastEnqueued >= p.lastEnqueued
    ensures r.1 + r.0.queue == p.queue + Range(p.lastEnqueued + 1, r.0.lastEnqueued + 1)
    ensures DueBetween(events, p.lastEnqueued, r.0.lastEnqueued, r.0.local)
    ensures StopsBefore(events, r.0.lastEnqueued, r.0.local)
    ensures r.0.finished <==> r.1 != [] && EndEvent(events[r.1[|r.1| - 1]])
  {
    TakeChunk(Enqueue(p, events, p.local + delta * p.speed), events)
  }

  /** The clock set to `local` and every event due by then appended to the queue. */
  function Enqueue(p: Player, events: seq<Fields>, local: real): (r: Player)
    requires Valid(p, |events|)
    ensures Valid(r, |events|) && r.lastEnqueued >= p.lastEnqueued
    ensures r.local == local && r.shown == local && r.speed == p.speed && r.paused == p.paused && r.finished == p.finished
    ensures r.queue == p.queue + Range(p.lastEnqueued + 1, r.lastEnqueued + 1)
    ensures DueBetween(events, p.lastEnqueued, r.lastEnqueued, local)
    ensures StopsBefore(events, r.lastEnqueued, local)
  {
    var start: nat := p.lastEnqueued + 1;
    var end := DueEnd(events, start, local);
    QueueExtends(p.queue, p.lastEnqueued, end);
    p.(local := local, shown := local, lastEnqueued := end - 1, queue := p.queue + Range(start, end))
  }

  /** At most a chunk taken off the front of the queue; the replay finishes when its last event ends the simulation. */
  function TakeChunk(p: Player, events: seq<Fields>): (r: (Player, seq<nat>))
    requires Valid(p, |events|)
    ensures Valid(r.0, |events|)
    ensures r.0.local == p.local && r.0.shown == p.shown && r.0.speed == p.speed && r.0.paused == p.paused
    ensures r.0.lastEnqueued == p.lastEnqueued
    ensures |r.1| <= ChunkSize && (forall i :: 0 <= i < |r.1| ==> r.1[i] < |events|)
    ensures r.1 + r.0.queue == p.queue
    ensures r.0.finished <==> r.1 != [] && EndEvent(events[r.1[|r.1| - 1]])
  {
    var take := Min(ChunkSize, |p.queue|);
    var chunk := p.queue[..take];
    var ended := chunk != [] && (SplitQueue(p, take, |events|, false); EndEvent(events[chunk[|chunk| - 1]]));
    SplitQueue(p, take, |events|, ended);
    (p.(finished := ended, queue := p.queue[take..]), chunk)
  }

  /** Taking a chunk off the front of the queue leaves a valid player. */
  lemma SplitQueue(p: Player, take: nat, n: nat, finished: bool)
    requires Valid(p, n) && take <= |p.queue|
    ensures Valid(p.(finished := finished, queue := p.queue[take..]), n)
    ensures p.queue[..take] + p.queue[take..] == p.queue
    ensures forall i :: 0 <= i < take ==> p.queue[..take][i] < n
  {
    var rest := p.queue[take..];
    assert forall i :: 0 <= i < take ==> p.queue[..take][i] == p.queue[i];
    assert forall i :: 0 <= i < |rest| ==> rest[i] == p.queue[take + i];
  }

  /** Appending the newly due indices keeps the queue increasing and below the new cursor. */
  lemma QueueExtends(q: seq<nat>, last: int, end: nat)
    requires -1 <= last < end
    requires forall i :: 0 <= i < |q| ==> q[i] <= last
    requires forall i, j :: 0 <= i < j < |q| ==> q[i] < q[j]
    ensures var r := q + Range(last + 1, end);
      && (forall i :: 0 <= i < |r| ==> r[i] <= end - 1)
      && (forall i, j :: 0 <= i < j < |r| ==> r[i] < r[j])
  {
  }

  /** The end of a frame: a clock at or past the end of the log stops there and finishes the replay. */
  function ClampToEnd(p: Player, maxTime: real): (r: Player)
    ensures r.shown <= maxTime
    ensures r.finished <==> p.finished || p.shown >= maxTime
    ensures r.shown == (if p.shown >= maxTime then maxTime else p.shown)
    ensures r.(shown := p.shown, finished := p.finished) == p
  {
    if p.shown >= maxTime then p.(finished := true, shown := maxTime) else p
  }

  /** One frame of the replay loop; a paused or finished replay only re-clamps its clock. */
  function Tick(p: Player, events: seq<Fields>, delta: real, maxTime: real): (r: (Player, seq<nat>))
    requires Valid(p, |events|)
    ensures Valid(r.0, |events|) && r.0.shown <= maxTime && |r.1| <= ChunkSize
    ensures (p.paused || p.finished) ==> r.1 == [] && r.0 == ClampToEnd(p, maxTime)
    ensures !p.paused && !p.finished ==> r.0 == ClampToEnd(Advance(p, events, delta).0, maxTime) && r.1 == Advance(p, events, delta).1
  {
    if p.paused || p.finished then (ClampToEnd(p, maxTime), [])
    else
      var (q, chunk) := Advance(p, events, delta);
      (ClampToEnd(q, maxTime), chunk)
  }

  /** Once finished, frames change nothing but stay finished, so replaying cannot run past the end. */
  lemma FinishedIsStable(p: Player, events: seq<Fields>, delta: real, maxTime: real)
    requires Valid(p, |events|) && p.finished && p.shown <= maxTime
    ensures Tick(p, events, delta, maxTime) == (p, [])
  {
  }

  // ---------------------------------------------------------------------
  // Metrics
  // ---------------------------------------------------------------------

  /** The statuses the modern dashboard counts as complete. */
  predicate Completed(wo: Fields)
  {
    var st := Json.Get(wo, "status");
    st == Json.Str("staged") || st == Json.Str("Completada") || st == Json.Str("COMPLETED")
  }

  /** `_calcular_metricas_modern_dashboard`: completed work orders, and three tasks for each. */
  function ModernMetrics(wos: seq<Fields>): (r: (nat, nat))
    ensures r.0 <= |wos| && r.1 == 3 * r.0
    ensures r.0 == Count(wos, Completed)
  {
    var c := Count(wos, Completed);
    (c, 3 * c)
  }

  /** Everything staged counts as completed here too. */
  lemma {:induction false} StagedCountsAsCompleted(wos: seq<Fields>)
    ensures Count(wos, Staged) <= ModernMetrics(wos).0
    decreases |wos|
  {
    if wos != [] {
      StagedCountsAsCompleted(wos[1..]);
      assert Staged(wos[0]) ==> Completed(wos[0]);
    }
  }

  /** `_calcular_throughput_min`: completed work orders per minute of playback, zero before time starts. */
  function ThroughputPerMinute(completed: nat, t: real): (r: real)
    ensures r >= 0.0
    ensures t <= 0.0 ==> r == 0.0
    ensures t > 0.0 ==> r * t == completed as real * 60.0
  {
    if t > 0.0 then completed as real / t * 60.0 else 0.0
  }
}
