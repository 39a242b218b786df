/**
 * Playback and seeking in the browser simulator's control bar.  The state
 * is fetched from the replay server at a time; a playback tick or a slider
 * movement asks for a new time, and every new request aborts the one whose
 * abort controller is current.  The response's arrival, the fetch's failure
 * and the completion of the follow-up metrics fetch are events of their own,
 * because they interleave with the user's input.
 *
 * Timers become events: `Tick(elapsedMs)` is one firing of the 100 ms
 * playback interval with the measured elapsed time, `DebounceFires` the end
 * of the 100 ms slider debounce.
 */
module WebControls {
  import opened Wrappers
  import Json
  import Dicts

  /** What `/api/state` answers: `max_time` may be absent. */
  datatype Snapshot = Snapshot(maxTime: Option<real>, workOrders: Json.Value, agents: Json.Value)

  datatype Controls = Controls(
    currentTime: real,
    maxTime: Option<real>,            // None: the last answer had no `max_time`
    playing: bool,
    speed: real,
    debounce: Option<real>,           // the slider target waiting for its timer
    controller: Option<nat>,          // the request whose abort controller is current
    pending: map<nat, real>,          // requests whose state fetch is still running, by id
    finishing: set<nat>,              // requests applied and awaiting their metrics fetch
    nextId: nat,
    fetched: seq<real>,               // every time a state fetch was started for, in order
    workOrders: Json.Fields,
    agents: Json.Value)

  datatype Event =
    | TogglePlay
    | SetSpeed(speed: real)
    | Tick(elapsedMs: real)
    | Input(target: real)
    | DebounceFires
    | Arrived(id: nat, data: Snapshot)
    | Failed(id: nat)
    | MetricsDone(id: nat)

  /** The state the page loads with. */
  function Initial(): (c: Controls)
    ensures c.currentTime == 0.0 && c.maxTime == Some(0.0) && !c.playing && c.speed == 1.0
    ensures c.controller.None? && c.pending == map[] && c.fetched == []
  {
    Controls(0.0, Some(0.0), false, 1.0, None, None, map[], {}, 0, [], Dicts.Empty(), Json.EmptyObj())
  }

  /** `new Map(Object.entries(wos || {}))` for an object or a falsy value. */
  function WorkOrdersOf(v: Json.Value): (m: Json.Fields)
    ensures v.Obj? ==> m == v.fields
    ensures !v.Obj? ==> m.keys == []
  {
    if v.Obj? then v.fields else Dicts.Empty()
  }

  /** `agents || {}` */
  function AgentsOf(v: Json.Value): (a: Json.Value)
    ensures Json.JsTruthy(v) ==> a == v
    ensures !Json.JsTruthy(v) ==> a == Json.EmptyObj()
  {
    if Json.JsTruthy(v) then v else Json.EmptyObj()
  }

  /** `seekTo`: abort the current request, then start one for `t` that owns the controller. */
  function SeekTo(c: Controls, t: real): (r: Controls)
    ensures r.controller == Some(c.nextId) && r.nextId == c.nextId + 1
    ensures r.pending == (if c.controller.Some? then c.pending - {c.controller.value} else c.pending)[c.nextId := t]
    ensures r.fetched == c.fetched + [t]
    ensures r.(controller := c.controller, pending := c.pending, nextId := c.nextId, fetched := c.fetched) == c
  {
    var survivors := if c.controller.Some? then c.pending - {c.controller.value} else c.pending;
    c.(controller := Some(c.nextId), pending := survivors[c.nextId := t], nextId := c.nextId + 1, fetched := c.fetched + [t])
  }

  /** The time a playback tick moves to: elapsed time scaled by the speed, clamped to the end. */
  function TickTarget(c: Controls, elapsedMs: real): (t: real)
    ensures c.maxTime.Some? && c.currentTime + elapsedMs / 1000.0 * c.speed >= c.maxTime.value ==> t == c.maxTime.value
    ensures !(c.maxTime.Some? && c.currentTime + elapsedMs / 1000.0 * c.speed >= c.maxTime.value)
            ==> t == c.currentTime + elapsedMs / 1000.0 * c.speed
  {
    var t := c.currentTime + elapsedMs / 1000.0 * c.speed;
    if c.maxTime.Some? && t >= c.maxTime.value then c.maxTime.value else t
  }

  predicate ReachesEnd(c: Controls, elapsedMs: real)
  {
    c.maxTime.Some? && c.currentTime + elapsedMs / 1000.0 * c.speed >= c.maxTime.value
  }

  /** The state fetch's answer: applied only when the request was not aborted. */
  function Arrive(c: Controls, id: nat, data: Snapshot): (r: Controls)
    ensures r != c ==> id in c.pending
    ensures id in c.pending ==> r.currentTime == c.pending[id] && id !in r.pending && id in r.finishing
    ensures r.controller == c.controller && r.nextId == c.nextId && r.fetched == c.fetched && r.playing == c.playing
  {
    if id in c.pending then
      c.(currentTime := c.pending[id], maxTime := data.maxTime, workOrders := WorkOrdersOf(data.workOrders),
         agents := AgentsOf(data.agents), pending := c.pending - {id}, finishing := c.finishing + {id})
    else c
  }

  /** The follow-up metrics fetch finished: the request gives up the controller if it still holds it. */
  function FinishMetrics(c: Controls, id: nat): (r: Controls)
    ensures r.controller != c.controller ==> id in c.finishing && c.controller == Some(id)
    ensures id in c.finishing && c.controller == Some(id) ==> r.controller.None?
    ensures id !in r.finishing
    ensures r.(finishing := c.finishing, controller := c.controller) == c
  {
    if id in c.finishing then
      c.(finishing := c.finishing - {id}, controller := if c.controller == Some(id) then None else c.controller)
    else c
  }

  /**
   * One event.  Requests are numbered in the order they start, one fetch
   * each; the controller only passes to a new request or is given up by
   * its own.
   */
  function Step(c: Controls, e: Event): (r: Controls)
    ensures Started(c, r)
    ensures r.controller != c.controller ==>
              r.controller == Some(c.nextId) || (e.MetricsDone? && c.controller == Some(e.id) && r.controller.None?)
  {
    match e
    case TogglePlay => c.(playing := !c.playing)
    case SetSpeed(x) => c.(speed := x)
    case Tick(ms) =>
      if !c.playing then c
      else SeekTo(c.(playing := !ReachesEnd(c, ms)), TickTarget(c, ms))
    case Input(t) => c.(playing := false, currentTime := t, debounce := Some(t))
    case DebounceFires =>
      if c.debounce.Some? then SeekTo(c.(debounce := None), c.debounce.value) else c
    case Arrived(id, data) => Arrive(c, id, data)
    case Failed(id) => c.(pending := c.pending - {id})
    case MetricsDone(id) => FinishMetrics(c, id)
  }

  function Run(c: Controls, es: seq<Event>): (r: Controls)
    ensures Started(c, r)
    decreases |es|
  {
    if |es| == 0 then c else Run(Step(c, es[0]), es[1..])
  }

  /** `r` extends `c`'s fetch log, with exactly one new request id per new fetch. */
  predicate Started(c: Controls, r: Controls)
  {
    && |c.fetched| <= |r.fetched| && r.fetched[..|c.fetched|] == c.fetched
    && r.nextId == c.nextId + (|r.fetched| - |c.fetched|)
  }

  // ---------------------------------------------------------------------
  // Playback
  // ---------------------------------------------------------------------

  /**
   * A tick while playing fetches the advanced time, clamped to the end; at
   * the end it stops.  A tick after playback stopped does nothing.
   */
  lemma TickClampsAndStops(c: Controls, ms: real)
    ensures !c.playing ==> Step(c, Tick(ms)) == c
    ensures c.playing ==> (
      && Step(c, Tick(ms)).fetched == c.fetched + [TickTarget(c, ms)]
      && (c.maxTime.Some? ==> TickTarget(c, ms) <= c.maxTime.value)
      && (Step(c, Tick(ms)).playing <==> !ReachesEnd(c, ms)))
  {
  }

  // ---------------------------------------------------------------------
  // Seeking
  // ---------------------------------------------------------------------

  function Inputs(ts: seq<real>): (es: seq<Event>)
    ensures |es| == |ts|
    ensures forall i :: 0 <= i < |ts| ==> es[i] == Input(ts[i])
  {
    seq(|ts|, i requires 0 <= i < |ts| => Input(ts[i]))
  }

  /** Slider movements stop playback and move the displayed time at once, without fetching. */
  lemma {:induction false} InputsDoNotFetch(c: Controls, ts: seq<real>)
    requires |ts| > 0
    ensures var r := Run(c, Inputs(ts));
      && !r.playing && r.currentTime == ts[|ts| - 1] && r.debounce == Some(ts[|ts| - 1])
      && r.fetched == c.fetched && r.pending == c.pending && r.controller == c.controller
      && r.nextId == c.nextId
    decreases |ts|
  {
    var c1 := Step(c, Input(ts[0]));
    assert Inputs(ts)[1..] == Inputs(ts[1..]);
    if |ts| > 1 {
      InputsDoNotFetch(c1, ts[1..]);
    }
  }

  /** However many slider movements come before the debounce timer fires, only the last one is fetched. */
  lemma OnlyLastInputFetches(c: Controls, ts: seq<real>)
    requires |ts| > 0
    ensures Run(c, Inputs(ts) + [DebounceFires]).fetched == c.fetched + [ts[|ts| - 1]]
  {
    RunAppend(c, Inputs(ts), [DebounceFires]);
    InputsDoNotFetch(c, ts);
  }

  lemma {:induction false} RunAppend(c: Controls, a: seq<Event>, b: seq<Event>)
    ensures Run(c, a + b) == Run(Run(c, a), b)
    decreases |a|
  {
    if |a| == 0 {
      assert a + b == b;
    } else {
      assert (a + b)[1..] == a[1..] + b;
      RunAppend(Step(c, a[0]), a[1..], b);
    }
  }

  /** An answer to an aborted request changes nothing: the abort error is swallowed. */
  lemma AbortedAnswerIgnored(c: Controls, t: real, id: nat, data: Snapshot)
    requires OneLive(c) && c.controller == Some(id)
    ensures Step(SeekTo(c, t), Arrived(id, data)) == SeekTo(c, t)
    ensures Step(SeekTo(c, t), Failed(id)) == SeekTo(c, t)
  {
  }

  /** A failed fetch leaves what is displayed as it was. */
  lemma FailureKeepsDisplay(c: Controls, id: nat)
    ensures Step(c, Failed(id)).(pending := c.pending) == c
  {
  }

  /** An answer to the live request shows its time and data. */
  lemma AnswerShown(c: Controls, id: nat, data: Snapshot)
    requires id in c.pending
    ensures var r := Step(c, Arrived(id, data));
      r.currentTime == c.pending[id] && r.maxTime == data.maxTime && r.workOrders == WorkOrdersOf(data.workOrders)
      && id !in r.pending
  {
  }

  // ---------------------------------------------------------------------
  // At most one live request
  // ---------------------------------------------------------------------

  /**
   * Only the request holding the controller may still be fetching, and it is
   * the latest one; a request is fetching or finishing, not both, and ids
   * are handed out once.
   */
  predicate OneLive(c: Controls)
  {
    && (forall id :: id in c.pending ==> c.controller == Some(id))
    && (c.controller.Some? ==> c.controller.value + 1 == c.nextId)
    && (forall id :: id in c.pending ==> id !in c.finishing)
    && (forall id :: id in c.finishing ==> id < c.nextId)
  }

  lemma InitialOneLive()
    ensures OneLive(Initial())
  {
  }

  /** Every event keeps at most one fetch alive. */
  lemma StepKeepsOneLive(c: Controls, e: Event)
    requires OneLive(c)
    ensures OneLive(Step(c, e))
  {
    if e.Tick? && c.playing {
      SeekToOneLive(c.(playing := !ReachesEnd(c, e.elapsedMs)), TickTarget(c, e.elapsedMs));
    } else if e.DebounceFires? && c.debounce.Some? {
      SeekToOneLive(c.(debounce := None), c.debounce.value);
    } else if e.MetricsDone? {
      var r := FinishMetrics(c, e.id);
      forall id | id in r.pending ensures r.controller == Some(id) {
        assert c.controller == Some(id);
      }
    }
  }

  lemma SeekToOneLive(c: Controls, t: real)
    requires OneLive(c)
    ensures OneLive(SeekTo(c, t))
  {
    var r := SeekTo(c, t);
    forall id | id in r.pending ensures r.controller == Some(id) {
      assert id == c.nextId;
    }
  }

  lemma {:induction false} RunKeepsOneLive(c: Controls, es: seq<Event>)
    requires OneLive(c)
    ensures OneLive(Run(c, es))
    decreases |es|
  {
    if |es| > 0 {
      StepKeepsOneLive(c, es[0]);
      RunKeepsOneLive(Step(c, es[0]), es[1..]);
    }
  }

  /** So an answer is shown only for the latest request started. */
  lemma OnlyLatestShown(c: Controls, es: seq<Event>, id: nat, data: Snapshot)
    requires OneLive(c)
    requires Step(Run(c, es), Arrived(id, data)) != Run(c, es)
    ensures id + 1 == Run(c, es).nextId
  {
    RunKeepsOneLive(c, es);
  }

  // ---------------------------------------------------------------------
  // The controller hand-off as written
  // ---------------------------------------------------------------------

  /** As written, finishing the metrics fetch clears the controller whoever holds it. */
  function FinishMetricsAsWritten(c: Controls, id: nat): Controls
  {
    if id in c.finishing then c.(finishing := c.finishing - {id}, controller := None) else c
  }

  function StepAsWritten(c: Controls, e: Event): Controls
  {
    if e.MetricsDone? then FinishMetricsAsWritten(c, e.id) else Step(c, e)
  }

  function RunAsWritten(c: Controls, es: seq<Event>): Controls
    decreases |es|
  {
    if |es| == 0 then c else RunAsWritten(StepAsWritten(c, es[0]), es[1..])
  }

  function SeekTrace(): seq<Event>
  {
    SeekTraceStart() + SeekTraceEnd()
  }

  /** Two seeks: request 0 for t = 10 is answered, request 1 for t = 20 aborts request 0's spent controller. */
  function SeekTraceStart(): seq<Event>
  {
    [Input(10.0), DebounceFires, Arrived(0, Snapshot(Some(100.0), Json.Null, Json.Null)), Input(20.0), DebounceFires]
  }

  /**
   * Request 0's metrics fetch completes, request 2 for t = 30 starts, and the
   * answers to requests 2 and 1 arrive in that order.
   */
  function SeekTraceEnd(): seq<Event>
  {
    [MetricsDone(0), Input(30.0), DebounceFires,
     Arrived(2, Snapshot(Some(100.0), Json.Null, Json.Null)),
     Arrived(1, Snapshot(Some(100.0), Json.Null, Json.Null))]
  }

  /** After the first two seeks, request 1 is live and owns the controller; request 0 awaits its metrics. */
  predicate MidTrace(m: Controls)
  {
    m.controller == Some(1) && m.pending == map[1 := 20.0] && m.finishing == {0} && m.nextId == 2
    && m.fetched == [10.0, 20.0] && m.debounce.None?
  }

  lemma TraceStart()
    ensures MidTrace(Run(Initial(), SeekTraceStart()))
    ensures MidTrace(RunAsWritten(Initial(), SeekTraceStart()))
  {
  }

  lemma {:induction false} RunAsWrittenAppend(c: Controls, a: seq<Event>, b: seq<Event>)
    ensures RunAsWritten(c, a + b) == RunAsWritten(RunAsWritten(c, a), b)
    decreases |a|
  {
    if |a| == 0 {
      assert a + b == b;
    } else {
      assert (a + b)[1..] == a[1..] + b;
      RunAsWrittenAppend(StepAsWritten(c, a[0]), a[1..], b);
    }
  }

  /**
   * As written, the slider ends on t = 30 but the display shows t = 20: the
   * request for 20 was never aborted and its late answer wins.
   */
  lemma StaleAnswerShownAsWritten()
    ensures RunAsWritten(Initial(), SeekTrace()).currentTime == 20.0
    ensures RunAsWritten(Initial(), SeekTrace()).fetched == [10.0, 20.0, 30.0]
  {
    RunAsWrittenAppend(Initial(), SeekTraceStart(), SeekTraceEnd());
    TraceStart();
    StaleEndAsWritten(RunAsWritten(Initial(), SeekTraceStart()));
  }

  lemma StaleEndAsWritten(m: Controls)
    requires MidTrace(m)
    ensures RunAsWritten(m, SeekTraceEnd()).currentTime == 20.0
    ensures RunAsWritten(m, SeekTraceEnd()).fetched == [10.0, 20.0, 30.0]
  {
  }

  /** With the hand-off corrected, the same events leave the display on the last request's time. */
  lemma StaleAnswerIgnored()
    ensures Run(Initial(), SeekTrace()).currentTime == 30.0
  {
    RunAppend(Initial(), SeekTraceStart(), SeekTraceEnd());
    TraceStart();
    StaleEnd(Run(Initial(), SeekTraceStart()));
  }

  lemma StaleEnd(m: Controls)
    requires MidTrace(m)
    ensures Run(m, SeekTraceEnd()).currentTime == 30.0
  {
  }
}
