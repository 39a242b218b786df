/**
 * The replay web servers: the event log is loaded once (a simulation-start
 * event expanded into one `released` update per initial work order), sorted
 * by timestamp, and queried at a time `t` by folding the events up to `t`
 * into the latest state of every agent and work order, from which the
 * status counts and rates are derived.  The prototype server and the
 * dashboard server share the loading, the work-order fold and the
 * work-order metrics; only the prototype tracks agents.
 *
 * Identifiers are modelled as strings; an empty string or a value of another
 * type counts as absent.
 */
module ReplayServer {
  import opened Wrappers
  import opened Seqs
  import opened Sorting
  import opened Dicts
  import Json
  import Strs

  type Fields = Json.Fields

  // ---------------------------------------------------------------------
  // Loading
  // ---------------------------------------------------------------------

  /** `e.get('timestamp', 0)` as a number, the sort and filter key. */
  function Time(e: Fields): (t: real)
    ensures "timestamp" !in e.vals ==> t == 0.0
    ensures "timestamp" in e.vals && e.vals["timestamp"].Num? ==> t == e.vals["timestamp"].n
  {
    match GetOr(e, "timestamp", Json.Num(0.0))
    case Num(n) => n
    case _ => 0.0
  }

  predicate IsStart(e: Fields)
  {
    Json.Get(e, "type") == Json.Str("SIMULATION_START") || Json.Get(e, "event_type") == Json.Str("SIMULATION_START")
  }

  /** A work order of the start event replayed as an update at the start's time, `released` unless it has a status. */
  function Synthetic(wo: Fields, ts: Json.Value): (e: Fields)
    ensures "type" in e.vals && "timestamp" in e.vals
    ensures e.vals["type"] == Json.Str("work_order_update") && e.vals["timestamp"] == ts
    ensures "status" in e.vals
    ensures e.vals["status"] == if "status" in wo.vals then wo.vals["status"] else Json.Str("released")
    ensures forall k :: k in wo.vals && k !in {"type", "timestamp"} ==> k in e.vals && e.vals[k] == wo.vals[k]
  {
    var e := Set(Set(wo, "type", Json.Str("work_order_update")), "timestamp", ts);
    if "status" in e.vals then e else Set(e, "status", Json.Str("released"))
  }

  /** The dictionaries among the start event's `initial_work_orders`. */
  function InitialWorkOrders(e: Fields): (r: seq<Fields>)
  {
    var v := Json.Get(e, "initial_work_orders");
    if v.Arr? then DictItems(v.items) else []
  }

  function DictItems(items: seq<Json.Value>): (r: seq<Fields>)
    ensures |r| == Count(items, (v: Json.Value) => v.Obj?)
  {
    if items == [] then []
    else (if items[0].Obj? then [items[0].fields] else []) + DictItems(items[1..])
  }

  /** One log line: a start event becomes its synthetic updates followed by itself. */
  function Expand(e: Fields): (r: seq<Fields>)
    ensures !IsStart(e) ==> r == [e]
    ensures IsStart(e) ==>
      var wos := InitialWorkOrders(e);
      && |r| == |wos| + 1 && r[|wos|] == e
      && forall i :: 0 <= i < |wos| ==> r[i] == Synthetic(wos[i], GetOr(e, "timestamp", Json.Num(0.0)))
  {
    if IsStart(e) then
      var wos := InitialWorkOrders(e);
      var ts := GetOr(e, "timestamp", Json.Num(0.0));
      seq(|wos|, (i: int) requires 0 <= i < |wos| => Synthetic(wos[i], ts)) + [e]
    else [e]
  }

  function ExpandAll(lines: seq<Fields>): (r: seq<Fields>)
    ensures |r| >= |lines|
    decreases |lines|
  {
    if lines == [] then [] else ExpandAll(lines[..|lines| - 1]) + Expand(lines[|lines| - 1])
  }

  function ByTime(): (Fields, Fields) -> bool
  {
    (a: Fields, b: Fields) => Time(a) <= Time(b)
  }

  lemma ByTimeIsPreorder()
    ensures TotalPreorder(ByTime())
  {
  }

  datatype Replay = Replay(events: seq<Fields>, maxTime: Json.Value)

  /**
   * `load_data`: the expanded log stably sorted by time; the end of the
   * replay is the last event's timestamp, 0 when there is none.
   */
  function LoadData(lines: seq<Fields>): (r: Replay)
    ensures multiset(r.events) == multiset(ExpandAll(lines))
    ensures forall i, j :: 0 <= i < j < |r.events| ==> Time(r.events[i]) <= Time(r.events[j])
    ensures r.events == [] ==> r.maxTime == Json.Num(0.0)
    ensures r.events != [] ==> r.maxTime == GetOr(r.events[|r.events| - 1], "timestamp", Json.Num(0.0))
  {
    var expanded := ExpandAll(lines);
    SortPerm(expanded, ByTime());
    ByTimeIsPreorder();
    SortSorted(expanded, ByTime());
    var events := Sort(expanded, ByTime());
    Replay(events, if events == [] then Json.Num(0.0) else GetOr(events[|events| - 1], "timestamp", Json.Num(0.0)))
  }

  /** Events at the same time keep their log order, so a start's updates precede the start event itself. */
  lemma LoadKeepsTies(lines: seq<Fields>, y: Fields)
    ensures Filter(LoadData(lines).events, Equiv(ByTime(), y)) == Filter(ExpandAll(lines), Equiv(ByTime(), y))
  {
    ByTimeIsPreorder();
    SortStable(ExpandAll(lines), ByTime(), y);
  }

  /** With a numeric last timestamp, every event lies at or before the end of the replay. */
  lemma MaxTimeBoundsEvents(lines: seq<Fields>)
    requires LoadData(lines).maxTime.Num?
    ensures NoneAfter(LoadData(lines).events, LoadData(lines).maxTime.n)
  {
    ReplayBounded(LoadData(lines));
  }

  lemma ReplayBounded(r: Replay)
    requires r.maxTime.Num?
    requires forall i, j :: 0 <= i < j < |r.events| ==> Time(r.events[i]) <= Time(r.events[j])
    requires r.events != [] ==> r.maxTime == GetOr(r.events[|r.events| - 1], "timestamp", Json.Num(0.0))
    ensures NoneAfter(r.events, r.maxTime.n)
  {
    if r.events != [] {
      LastTime(r.events[|r.events| - 1], r.maxTime);
      SortedBelowLast(r.events);
    }
  }

  /** The time of an event whose timestamp is the given number. */
  lemma LastTime(e: Fields, m: Json.Value)
    requires m == GetOr(e, "timestamp", Json.Num(0.0)) && m.Num?
    ensures Time(e) == m.n
  {
  }

  /** No event lies after time `t`. */
  predicate NoneAfter(es: seq<Fields>, t: real)
  {
    forall i :: 0 <= i < |es| ==> Time(es[i]) <= t
  }

  /** In a time-ordered list, the last event is the latest. */
  lemma SortedBelowLast(es: seq<Fields>)
    requires es != []
    requires forall i, j :: 0 <= i < j < |es| ==> Time(es[i]) <= Time(es[j])
    ensures NoneAfter(es, Time(es[|es| - 1]))
  {
    forall i | 0 <= i < |es| ensures Time(es[i]) <= Time(es[|es| - 1]) {
      if i < |es| - 1 {
        assert Time(es[i]) <= Time(es[|es| - 1]);
      }
    }
  }

  // ---------------------------------------------------------------------
  // State at a time
  // ---------------------------------------------------------------------

  /** An agent as the state endpoint reports it. */
  datatype Agent = Agent(position: Json.Value, agentType: Json.Value, status: Json.Value)

  datatype State = State(agents: Dict<string, Agent>, workOrders: Dict<string, Fields>)

  function IdOf(v: Json.Value): (r: Option<string>)
    ensures r.Some? <==> v.Str? && |v.s| > 0
    ensures r.Some? ==> v == Json.Str(r.value)
  {
    if v.Str? && |v.s| > 0 then Some(v.s) else None
  }

  /** The event kind under any of its three names, in order of precedence. */
  function Kind(e: Fields): Json.Value
  {
    Json.Or(Json.Or(Json.Get(e, "event_type"), Json.Get(e, "tipo")), Json.Get(e, "type"))
  }

  /** `event.get('data', {})`, a dictionary. */
  function Data(e: Fields): Fields
  {
    var d := Json.Get(e, "data");
    if d.Obj? then d.fields else Empty()
  }

  function AgentId(e: Fields): Option<string>
  {
    IdOf(Json.Or(Json.Get(e, "agent_id"), Json.Get(Data(e), "agent_id")))
  }

  /** The id of the work order an update is about: the nested one first. */
  function WorkOrderId(e: Fields): Option<string>
  {
    if Kind(e) == Json.Str("work_order_update") then IdOf(Json.Or(Json.Get(Data(e), "id"), Json.Get(e, "id"))) else None
  }

  /** What an update stores: its nested data, or the whole event when the data is empty. */
  function Payload(e: Fields): Fields
  {
    if |Data(e).keys| > 0 then Data(e) else e
  }

  /** An old-format move: position (or `[x, y]`, 0 by default), type and status from the nested data. */
  function MovedAgent(e: Fields): (a: Agent)
    ensures var d := Data(e);
      a.agentType == GetOr(d, "agent_type", Json.Str("Unknown")) && a.status == GetOr(d, "status", Json.Str("idle"))
  {
    var d := Data(e);
    Agent(Json.Or(Json.Get(d, "position"), Json.Arr([GetOr(d, "x", Json.Num(0.0)), GetOr(d, "y", Json.Num(0.0))])),
          GetOr(d, "agent_type", Json.Str("Unknown")), GetOr(d, "status", Json.Str("idle")))
  }

  /** A new-format agent state: top-level fields first, then the nested data, then `[0, 0]`, `Unknown`, `idle`. */
  function ReportedAgent(e: Fields): (a: Agent)
    ensures var d := Data(e);
      && (!Json.Truthy(Json.Get(e, "position")) && !Json.Truthy(Json.Get(d, "position")) ==>
            a.position == Json.Arr([Json.Num(0.0), Json.Num(0.0)]))
      && (!Json.Truthy(Json.Get(e, "agent_type")) && "agent_type" !in d.vals ==> a.agentType == Json.Str("Unknown"))
      && (!Json.Truthy(Json.Get(e, "status")) && "status" !in d.vals ==> a.status == Json.Str("idle"))
      && (Json.Truthy(Json.Get(e, "status")) ==> a.status == Json.Get(e, "status"))
  {
    var d := Data(e);
    Agent(Json.Or(Json.Or(Json.Get(e, "position"), Json.Get(d, "position")), Json.Arr([Json.Num(0.0), Json.Num(0.0)])),
          Json.Or(Json.Get(e, "agent_type"), GetOr(d, "agent_type", Json.Str("Unknown"))),
          Json.Or(Json.Get(e, "status"), GetOr(d, "status", Json.Str("idle"))))
  }

  /** One event folded into the state (the prototype's fold; the dashboard's keeps only the work orders). */
  function Step(s: State, e: Fields): (r: State)
    ensures WorkOrderId(e).None? ==> r.workOrders == s.workOrders
    ensures WorkOrderId(e).Some? ==> r.workOrders == Set(s.workOrders, WorkOrderId(e).value, Payload(e))
    ensures forall a :: a in s.agents.vals ==> a in r.agents.vals
  {
    var k := Kind(e);
    if k == Json.Str("agent_moved") && AgentId(e).Some? then
      s.(agents := Set(s.agents, AgentId(e).value, MovedAgent(e)))
    else if k == Json.Str("estado_agente") && AgentId(e).Some? then
      s.(agents := Set(s.agents, AgentId(e).value, ReportedAgent(e)))
    else if WorkOrderId(e).Some? then
      s.(workOrders := Set(s.workOrders, WorkOrderId(e).value, Payload(e)))
    else s
  }

  function Fold(s: State, es: seq<Fields>): (r: State)
    decreases |es|
  {
    if es == [] then s else Step(Fold(s, es[..|es| - 1]), es[|es| - 1])
  }

  predicate AtOrBefore(e: Fields, t: real) { Time(e) <= t }

  /** The events a query at `t` considers, in log order. */
  function Relevant(events: seq<Fields>, t: real): (r: seq<Fields>)
    ensures forall i :: 0 <= i < |r| ==> r[i] in events && Time(r[i]) <= t
  {
    FilterMembers(events, (e: Fields) => AtOrBefore(e, t));
    Filter(events, (e: Fields) => AtOrBefore(e, t))
  }

  /** `get_state(t)`: the fold of the events at or before `t`. */
  function GetState(events: seq<Fields>, t: real): State
  {
    Fold(State(Empty(), Empty()), Relevant(events, t))
  }

  /** Events after `t` do not affect the state at `t`. */
  lemma LaterEventsIgnored(events: seq<Fields>, later: seq<Fields>, t: real)
    requires forall i :: 0 <= i < |later| ==> Time(later[i]) > t
    ensures GetState(events + later, t) == GetState(events, t)
  {
    var p := (e: Fields) => AtOrBefore(e, t);
    FilterAppend(events, later, p);
    NoneKept(later, p);
    assert Filter(events, p) + [] == Filter(events, p);
  }

  lemma {:induction false} NoneKept(s: seq<Fields>, p: Fields -> bool)
    requires forall i :: 0 <= i < |s| ==> !p(s[i])
    ensures Filter(s, p) == []
    decreases |s|
  {
    if |s| > 0 {
      NoneKept(s[1..], p);
    }
  }

  /** Last write wins: a work order's entry is the payload of the last update for it. */
  lemma {:induction false} FoldLastWriteWins(s: State, es: seq<Fields>, i: nat)
    requires i < |es| && WorkOrderId(es[i]).Some?
    requires forall j :: i < j < |es| ==> WorkOrderId(es[j]) != WorkOrderId(es[i])
    ensures var id := WorkOrderId(es[i]).value;
      id in Fold(s, es).workOrders.vals && Fold(s, es).workOrders.vals[id] == Payload(es[i])
    decreases |es|
  {
    FoldWorkOrders(s, es);
    WriteAllLastWins(s.workOrders.vals, es, WorkOrderId, Payload, i);
  }

  lemma {:induction false} FoldWorkOrders(s: State, es: seq<Fields>)
    ensures Fold(s, es).workOrders.vals == WriteAll(s.workOrders.vals, es, WorkOrderId, Payload)
    decreases |es|
  {
    if es != [] {
      FoldWorkOrders(s, es[..|es| - 1]);
      StepWorkOrders(Fold(s, es[..|es| - 1]), es[|es| - 1]);
    }
  }

  /** The work-order map after one event: the update's payload set under its id, or unchanged. */
  lemma StepWorkOrders(s: State, e: Fields)
    ensures WorkOrderId(e).None? ==> Step(s, e).workOrders.vals == s.workOrders.vals
    ensures WorkOrderId(e).Some? ==> Step(s, e).workOrders.vals == s.workOrders.vals[WorkOrderId(e).value := Payload(e)]
  {
  }

  /** A work order no update mentions is not in the state. */
  lemma {:induction false} FoldOnlyUpdated(s: State, es: seq<Fields>, id: string)
    requires id !in s.workOrders.vals
    requires forall j :: 0 <= j < |es| ==> WorkOrderId(es[j]) != Some(id)
    ensures id !in Fold(s, es).workOrders.vals
    decreases |es|
  {
    if es != [] {
      FoldOnlyUpdated(s, es[..|es| - 1], id);
    }
  }

  // ---------------------------------------------------------------------
  // Metrics
  // ---------------------------------------------------------------------

  /** `wo.get('status', 'released')`. */
  function Status(wo: Fields): Json.Value
  {
    GetOr(wo, "status", Json.Str("released"))
  }

  predicate IsReleased(wo: Fields)
  {
    Status(wo) == Json.Str("released") || (Status(wo) == Json.Str("assigned") && !Json.Truthy(Json.Get(wo, "assigned_agent_id")))
  }

  predicate IsAssigned(wo: Fields)
  {
    Status(wo) == Json.Str("assigned") && Json.Truthy(Json.Get(wo, "assigned_agent_id"))
  }

  predicate HasStatus(wo: Fields, s: string) { Status(wo) == Json.Str(s) }

  /** No work order is both released and assigned, and one with no status counts as released. */
  lemma ReleasedAssignedDisjoint(wo: Fields)
    ensures !(IsReleased(wo) && IsAssigned(wo))
    ensures "status" !in wo.vals ==> IsReleased(wo)
  {
  }

  /** Two predicates no element satisfies together count at most the whole sequence between them. */
  lemma {:induction false} CountDisjoint(s: seq<Fields>, p: Fields -> bool, q: Fields -> bool)
    requires forall x :: !(p(x) && q(x))
    ensures Count(s, p) + Count(s, q) <= |s|
    decreases |s|
  {
    if |s| > 0 {
      CountDisjoint(s[1..], p, q);
    }
  }

  datatype WorkOrderMetrics = WorkOrderMetrics(total: nat, staged: nat, picked: nat, inProgress: nat, assignedOrders: nat,
                                               released: nat, completionRate: real)

  /** The work-order half of `get_metrics`: status counts and the percentage staged (0 with no work orders). */
  function WorkOrderCounts(wos: seq<Fields>): (m: WorkOrderMetrics)
    ensures m.total == |wos| && m.staged <= m.total
    ensures m.assignedOrders + m.released <= m.total
    ensures m.completionRate == CompletionRate(m.staged, m.total)
  {
    var staged := Count(wos, (wo: Fields) => HasStatus(wo, "staged"));
    forall x: Fields ensures !(IsAssigned(x) && IsReleased(x)) { ReleasedAssignedDisjoint(x); }
    CountDisjoint(wos, IsAssigned, IsReleased);
    var rate := CompletionRate(staged, |wos|);
    WorkOrderMetrics(|wos|, staged, Count(wos, (wo: Fields) => HasStatus(wo, "picked")),
                     Count(wos, (wo: Fields) => HasStatus(wo, "in_progress")), Count(wos, IsAssigned),
                     Count(wos, IsReleased), rate)
  }

  /** The percentage staged, 0 with no work orders. */
  function CompletionRate(staged: nat, total: nat): (r: real)
    requires staged <= total
    ensures total == 0 ==> r == 0.0
    ensures 0.0 <= r <= 100.0
    ensures total > 0 ==> r * total as real == staged as real * 100.0
  {
    if total > 0 then
      var q := staged as real / total as real;
      assert q * total as real == staged as real;
      q * 100.0
    else 0.0
  }

  /** Work orders completed per minute, 0 before the replay starts. */
  function Throughput(staged: nat, t: real): (r: real)
    ensures t <= 0.0 ==> r == 0.0
    ensures t > 0.0 ==> r >= 0.0 && r * t == staged as real * 60.0
  {
    if t > 0.0 then staged as real / t * 60.0 else 0.0
  }

  /** Mean time per staged work order, 0 with none staged. */
  function AvgTimePerWorkOrder(t: real, staged: nat): (r: real)
    ensures staged == 0 ==> r == 0.0
    ensures staged > 0 ==> r * staged as real == t
  {
    if staged > 0 then t / staged as real else 0.0
  }

  predicate Active(a: Agent)
  {
    a.status == Json.Str("moving") || a.status == Json.Str("picking") || a.status == Json.Str("unloading")
  }

  predicate Idle(a: Agent) { a.status == Json.Str("idle") }

  predicate OfKind(a: Agent, word: string) { a.agentType.Str? && Strs.Contains(a.agentType.s, word) }

  datatype AgentMetrics = AgentMetrics(total: nat, active: nat, idle: nat, groundOperators: nat, forklifts: nat)

  /** The prototype's agent counts: active ones are moving, picking or unloading. */
  function AgentCounts(agents: seq<Agent>): (m: AgentMetrics)
    ensures m.total == |agents|
    ensures m.active <= m.total && m.idle <= m.total && m.groundOperators <= m.total && m.forklifts <= m.total
    ensures m.active == Count(agents, Active) && m.idle == Count(agents, Idle)
  {
    AgentMetrics(|agents|, Count(agents, Active), Count(agents, Idle),
                 Count(agents, (a: Agent) => OfKind(a, "Ground")), Count(agents, (a: Agent) => OfKind(a, "Forklift")))
  }

  datatype Metrics = Metrics(time: real, workOrders: WorkOrderMetrics, agents: AgentMetrics, throughput: real,
                             avgTime: real)

  /** `get_metrics(t)`: the metrics of the state at `t`. */
  function GetMetrics(events: seq<Fields>, t: real): (m: Metrics)
    ensures var s := GetState(events, t);
      && m.workOrders == WorkOrderCounts(Values(s.workOrders))
      && m.agents == AgentCounts(Values(s.agents))
      && m.throughput == Throughput(m.workOrders.staged, t)
      && m.avgTime == AvgTimePerWorkOrder(t, m.workOrders.staged)
  {
    var s := GetState(events, t);
    var w := WorkOrderCounts(Values(s.workOrders));
    Metrics(t, w, AgentCounts(Values(s.agents)), Throughput(w.staged, t), AvgTimePerWorkOrder(t, w.staged))
  }
}
