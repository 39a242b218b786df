/**
 * The simulation side of the work-order dashboard link.  The communicator
 * keeps a cache of the last work-order snapshots it delivered; the first
 * update (or a forced one) sends the full state, later ones only the work
 * orders that are new or whose status, remaining quantity, assigned agent
 * or remaining volume changed, split into batches of a bounded size.  The
 * cache is refreshed only once every batch has been delivered.  The
 * transport with its retries is a parameter: `accepts(i)` says whether the
 * i-th message of one call is delivered.
 */
module DashboardCommunicator {
  import opened Wrappers
  import opened Seqs
  import opened Dicts

  datatype WoSnapshot = WoSnapshot(
    id: string, orderId: string, tourId: string, skuId: string, status: string,
    ubicacion: string, workArea: string, cantidadRestante: int, volumenRestante: real,
    assignedAgentId: Option<string>, timestamp: real)

  function Id(w: WoSnapshot): string { w.id }

  /** The fields whose change makes a work order part of a delta. */
  predicate SameTracked(a: WoSnapshot, b: WoSnapshot)
  {
    && a.status == b.status
    && a.cantidadRestante == b.cantidadRestante
    && a.assignedAgentId == b.assignedAgentId
    && a.volumenRestante == b.volumenRestante
  }

  /** New to the cache, or changed in a tracked field. */
  predicate IsChanged(cache: map<string, WoSnapshot>, w: WoSnapshot)
  {
    w.id !in cache || !SameTracked(cache[w.id], w)
  }

  /** `{wo.id: wo for wo in work_orders}`: ids in first-seen order, each with its last snapshot. */
  function ById(wos: seq<WoSnapshot>): Dict<string, WoSnapshot>
  {
    FromSeq(wos, Id)
  }

  /** `_update_state_cache`: the cache maps exactly the current ids, each to a snapshot carrying it. */
  function CacheOf(wos: seq<WoSnapshot>): (cache: map<string, WoSnapshot>)
    ensures forall i :: 0 <= i < |wos| ==> wos[i].id in cache
    ensures forall k :: k in cache ==> cache[k] in wos && cache[k].id == k
  {
    ById(wos).vals
  }

  /** Of several snapshots with one id, the cache keeps the last. */
  lemma CacheKeepsLast(wos: seq<WoSnapshot>, i: nat)
    requires i < |wos|
    requires forall j :: i < j < |wos| ==> wos[j].id != wos[i].id
    ensures CacheOf(wos)[wos[i].id] == wos[i]
  {
    FromSeqLastWins(wos, Id, i);
  }

  /** Whether the current snapshot held for an id counts as changed. */
  function ChangedIn(cache: map<string, WoSnapshot>, d: Dict<string, WoSnapshot>): string -> bool
  {
    k => k in d.vals && IsChanged(cache, d.vals[k])
  }

  /** The ids whose current snapshot counts as changed, in first-seen order. */
  function ChangedIds(cache: map<string, WoSnapshot>, wos: seq<WoSnapshot>): (ks: seq<string>)
    ensures NoDup(ks)
    ensures forall i :: 0 <= i < |ks| ==> ks[i] in CacheOf(wos)
    ensures forall k :: k in CacheOf(wos) ==> (k in ks <==> IsChanged(cache, CacheOf(wos)[k]))
  {
    ChangedIdsFacts(cache, wos);
    Filter(ById(wos).keys, ChangedIn(cache, ById(wos)))
  }

  lemma ChangedIdsFacts(cache: map<string, WoSnapshot>, wos: seq<WoSnapshot>)
    ensures var ks := Filter(ById(wos).keys, ChangedIn(cache, ById(wos)));
      && NoDup(ks)
      && (forall i :: 0 <= i < |ks| ==> ks[i] in CacheOf(wos))
      && (forall k :: k in CacheOf(wos) ==> (k in ks <==> IsChanged(cache, CacheOf(wos)[k])))
  {
    var d := ById(wos);
    var p := ChangedIn(cache, d);
    FilterMembers(d.keys, p);
    FilterNoDup(d.keys, p);
    forall k | k in d.vals ensures k in d.keys {
      var i :| 0 <= i < |d.keys| && d.keys[i] == k;
    }
  }

  /**
   * `_calculate_delta_changes`: the current snapshot of every work order
   * that is new or changed, one per id, each the last given for its id.
   */
  function CalculateDelta(cache: map<string, WoSnapshot>, wos: seq<WoSnapshot>): (delta: seq<WoSnapshot>)
    ensures |delta| == |ChangedIds(cache, wos)|
    ensures forall i :: 0 <= i < |delta| ==> delta[i].id == ChangedIds(cache, wos)[i]
    ensures forall i :: 0 <= i < |delta| ==> delta[i] in wos && IsChanged(cache, delta[i])
    ensures forall i :: 0 <= i < |delta| ==> CacheOf(wos)[delta[i].id] == delta[i]
    ensures forall k :: k in CacheOf(wos) && IsChanged(cache, CacheOf(wos)[k]) ==> CacheOf(wos)[k] in delta
  {
    DeltaFacts(CacheOf(wos), ChangedIds(cache, wos), cache, wos);
    Pick(CacheOf(wos), ChangedIds(cache, wos))
  }

  lemma DeltaFacts(cur: map<string, WoSnapshot>, ks: seq<string>, cache: map<string, WoSnapshot>, wos: seq<WoSnapshot>)
    requires cur == CacheOf(wos) && ks == ChangedIds(cache, wos)
    ensures var delta := Pick(cur, ks);
      && (forall i :: 0 <= i < |delta| ==> delta[i].id == ks[i])
      && (forall i :: 0 <= i < |delta| ==> delta[i] in wos && IsChanged(cache, delta[i]))
      && (forall k :: k in cur && IsChanged(cache, cur[k]) ==> cur[k] in delta)
  {
    var delta := Pick(cur, ks);
    forall i | 0 <= i < |delta| ensures delta[i].id == ks[i] && delta[i] in wos && IsChanged(cache, delta[i]) {
      assert delta[i] == cur[ks[i]] && cur[ks[i]].id == ks[i];
    }
    forall k | k in cur && IsChanged(cache, cur[k]) ensures cur[k] in delta {
      var i :| 0 <= i < |ks| && ks[i] == k;
      assert delta[i] == cur[k];
    }
  }

  /** `[m[k] for k in ks]`. */
  function Pick(m: map<string, WoSnapshot>, ks: seq<string>): (r: seq<WoSnapshot>)
    requires forall i :: 0 <= i < |ks| ==> ks[i] in m
    ensures |r| == |ks| && forall i :: 0 <= i < |ks| ==> r[i] == m[ks[i]]
  {
    seq(|ks|, i requires 0 <= i < |ks| => m[ks[i]])
  }

  /** No work order is sent twice in one delta. */
  lemma DeltaIdsDistinct(cache: map<string, WoSnapshot>, wos: seq<WoSnapshot>)
    ensures var delta := CalculateDelta(cache, wos);
      forall i, j :: 0 <= i < j < |delta| ==> delta[i].id != delta[j].id
  {
    var delta := CalculateDelta(cache, wos);
    var ks := ChangedIds(cache, wos);
    forall i, j | 0 <= i < j < |delta| ensures delta[i].id != delta[j].id {
      assert delta[i].id == ks[i] && delta[j].id == ks[j];
    }
  }

  /** Against a cache of the same work orders, nothing is sent. */
  lemma NoChangeNoDelta(wos: seq<WoSnapshot>)
    ensures CalculateDelta(CacheOf(wos), wos) == []
  {
  }

  /** The receiver's side: each delivered snapshot, in order, replaces the one held for its id. */
  function ApplyDelta(view: map<string, WoSnapshot>, delta: seq<WoSnapshot>): (r: map<string, WoSnapshot>)
    ensures r.Keys == view.Keys + IdSet(delta)
  {
    if |delta| == 0 then view
    else
      var init, last := delta[..|delta| - 1], delta[|delta| - 1];
      assert delta == init + [last];
      assert IdSet(delta) == IdSet(init) + {last.id};
      ApplyDelta(view, init)[last.id := last]
  }

  function IdSet(ws: seq<WoSnapshot>): set<string>
  {
    set i | 0 <= i < |ws| :: ws[i].id
  }

  /** A held snapshot no delivered one replaces stays. */
  lemma {:induction false} ApplyDeltaKeeps(view: map<string, WoSnapshot>, delta: seq<WoSnapshot>, k: string)
    requires k in view && forall i :: 0 <= i < |delta| ==> delta[i].id != k
    ensures ApplyDelta(view, delta)[k] == view[k]
  {
    if |delta| > 0 {
      ApplyDeltaKeeps(view, delta[..|delta| - 1], k);
    }
  }

  /** For an id delivered once, the delivered snapshot is what is held afterwards. */
  lemma {:induction false} ApplyDeltaLastWins(view: map<string, WoSnapshot>, delta: seq<WoSnapshot>, i: nat)
    requires i < |delta| && forall j :: i < j < |delta| ==> delta[j].id != delta[i].id
    ensures ApplyDelta(view, delta)[delta[i].id] == delta[i]
  {
    if i < |delta| - 1 {
      ApplyDeltaLastWins(view, delta[..|delta| - 1], i);
    }
  }

  /**
   * A dashboard that holds the previous cache and applies the delta ends
   * with every current work order in the same tracked state as the new cache.
   */
  lemma DeltaReconstructs(cache: map<string, WoSnapshot>, wos: seq<WoSnapshot>)
    ensures var view := ApplyDelta(cache, CalculateDelta(cache, wos));
      forall k :: k in CacheOf(wos) ==> k in view && SameTracked(view[k], CacheOf(wos)[k])
  {
    forall k | k in CacheOf(wos)
      ensures var view := ApplyDelta(cache, CalculateDelta(cache, wos));
        k in view && SameTracked(view[k], CacheOf(wos)[k])
    {
      DeltaReconstructsAt(cache, wos, k);
    }
  }

  lemma DeltaReconstructsAt(cache: map<string, WoSnapshot>, wos: seq<WoSnapshot>, k: string)
    requires k in CacheOf(wos)
    ensures var view := ApplyDelta(cache, CalculateDelta(cache, wos));
      k in view && SameTracked(view[k], CacheOf(wos)[k])
  {
    var delta := CalculateDelta(cache, wos);
    var cur := CacheOf(wos);
    if IsChanged(cache, cur[k]) {
      var i :| 0 <= i < |delta| && delta[i] == cur[k];
      DeltaIdsDistinct(cache, wos);
      ApplyDeltaLastWins(cache, delta, i);
    } else {
      forall i | 0 <= i < |delta| ensures delta[i].id != k {
        assert cur[delta[i].id] == delta[i];
      }
      ApplyDeltaKeeps(cache, delta, k);
    }
  }

  /** `range(0, total, size)` cut into `changed[start:start + size]` pieces. */
  function BatchesFrom(xs: seq<WoSnapshot>, size: nat, start: nat): (bs: seq<seq<WoSnapshot>>)
    requires size > 0
    ensures forall i :: 0 <= i < |bs| ==> 0 < |bs[i]| <= size
    ensures start <= |xs| ==> Flatten(bs) == xs[start..]
    ensures start <= |xs| ==> (|bs| - 1) * size < |xs| - start <= |bs| * size
    ensures start >= |xs| ==> bs == []
    decreases |xs| - start
  {
    if start >= |xs| then []
    else
      var end := Min(start + size, |xs|);
      var rest := BatchesFrom(xs, size, start + size);
      assert xs[start..] == xs[start..end] + xs[end..];
      assert (|rest| + 1) * size == |rest| * size + size;
      [xs[start..end]] + rest
  }

  /** The batch count `(n + size - 1) // size` is the least `b` with `b * size >= n`. */
  lemma CeilDiv(n: int, size: int, b: int)
    requires size > 0 && (b - 1) * size < n <= b * size
    ensures (n + size - 1) / size == b
  {
    var a := n + size - 1;
    var q, r := a / size, a % size;
    assert a == q * size + r && 0 <= r < size;
    assert (b - 1) * size == b * size - size;
    assert b * size <= a < b * size + size;
    assert q * size - b * size == (q - b) * size;
    if q > b {
      MulMono(q - b, size);
    } else if q < b {
      MulMono(b - q, size);
    }
  }

  lemma MulMono(d: int, size: int)
    requires d >= 1 && size > 0
    ensures d * size >= size
  {
  }

  function Flatten(bs: seq<seq<WoSnapshot>>): seq<WoSnapshot>
  {
    if |bs| == 0 then [] else bs[0] + Flatten(bs[1..])
  }

  function Batches(xs: seq<WoSnapshot>, size: nat): seq<seq<WoSnapshot>>
    requires size > 0
  {
    BatchesFrom(xs, size, 0)
  }

  /** What goes over the wire; wall-clock timestamps and free-form metadata are left out. */
  datatype Message =
    | FullState(data: seq<WoSnapshot>)
    | Delta(data: seq<WoSnapshot>, currentBatch: nat, totalBatches: nat, batchSize: nat)
    | SimulationEndedCommand

  /** The link's own state: whether the dashboard runs, the cache and the two sync flags. */
  datatype Comm = Comm(active: bool, cache: map<string, WoSnapshot>, initialSynced: bool, endedSent: bool)

  /** A call's result: the new state, the returned flag, and the messages attempted in order. */
  datatype Outcome = Outcome(comm: Comm, ok: bool, sent: seq<Message>)

  /** The first undelivered message among the first `n`, or `n`. */
  function FirstFailure(accepts: nat -> bool, n: nat, from: nat): (k: nat)
    requires from <= n
    ensures from <= k <= n
    ensures forall i :: from <= i < k ==> accepts(i)
    ensures k < n ==> !accepts(k)
    decreases n - from
  {
    if from == n then n
    else if !accepts(from) then from
    else FirstFailure(accepts, n, from + 1)
  }

  /** The delta message for batch `i` of `bs`, numbered from one. */
  function BatchMessage(bs: seq<seq<WoSnapshot>>, i: nat): (m: Message)
    requires i < |bs|
    ensures m.Delta? && m.data == bs[i] && m.currentBatch == i + 1 && m.totalBatches == |bs|
    ensures m.batchSize == |bs[i]|
  {
    Delta(bs[i], i + 1, |bs|, |bs[i]|)
  }

  /** The work orders a message carries. */
  function Payload(m: Message): seq<WoSnapshot>
  {
    if m.SimulationEndedCommand? then [] else m.data
  }

  function Payloads(ms: seq<Message>): (ps: seq<seq<WoSnapshot>>)
    ensures |ps| == |ms| && forall i :: 0 <= i < |ms| ==> ps[i] == Payload(ms[i])
  {
    seq(|ms|, i requires 0 <= i < |ms| => Payload(ms[i]))
  }

  /** The delta messages for the first `n` batches, in order. */
  function BatchMessages(bs: seq<seq<WoSnapshot>>, n: nat): (ms: seq<Message>)
    requires n <= |bs|
    ensures |ms| == n && forall i :: 0 <= i < n ==> ms[i] == BatchMessage(bs, i)
    ensures Payloads(ms) == bs[..n]
  {
    seq(n, i requires 0 <= i < n => BatchMessage(bs, i))
  }

  /**
   * What a delivery loop over the batches of `delta` promises: it succeeds
   * exactly when every batch is delivered, and then the cache becomes `next`
   * and the messages carry the delta in order; otherwise it stops at the
   * first undelivered batch with the state untouched.  Every message is a
   * numbered, non-empty delta batch of at most `size` work orders.
   */
  predicate Delivers(c: Comm, next: map<string, WoSnapshot>, delta: seq<WoSnapshot>, size: nat,
                     accepts: nat -> bool, r: Outcome)
    requires size > 0
  {
    var n := |Batches(delta, size)|;
    && (r.ok <==> forall i :: 0 <= i < n ==> accepts(i))
    && (r.ok ==> r.comm == c.(cache := next) && Flatten(Payloads(r.sent)) == delta)
    && (!r.ok ==> r.comm == c && 0 < |r.sent| <= n && !accepts(|r.sent| - 1))
    && (delta == [] ==> r.sent == [] && r.ok)
    && (forall i :: 0 <= i < |r.sent| ==>
          && r.sent[i].Delta? && r.sent[i].currentBatch == i + 1
          && r.sent[i].totalBatches == n
          && 0 < r.sent[i].batchSize == |r.sent[i].data| <= size)
  }

  /**
   * `_send_delta_updates`: with no changes the cache is refreshed and
   * nothing is sent; otherwise the batches go out in order, the first
   * undelivered one stops the call with the state untouched, and only when
   * all are delivered is the cache refreshed.
   */
  function SendDeltaUpdates(c: Comm, wos: seq<WoSnapshot>, size: nat, accepts: nat -> bool): (r: Outcome)
    requires size > 0
    ensures Delivers(c, CacheOf(wos), CalculateDelta(c.cache, wos), size, accepts, r)
  {
    SendBatches(c, CacheOf(wos), CalculateDelta(c.cache, wos), size, accepts)
  }

  /** The delivery loop over the batches of `delta`, refreshing the cache to `next` at the end. */
  function SendBatches(c: Comm, next: map<string, WoSnapshot>, delta: seq<WoSnapshot>, size: nat,
                       accepts: nat -> bool): (r: Outcome)
    requires size > 0
    ensures Delivers(c, next, delta, size, accepts, r)
  {
    var bs := Batches(delta, size);
    var k := FirstFailure(accepts, |bs|, 0);
    if k < |bs| then Outcome(c, false, BatchMessages(bs, k + 1))
    else
      assert bs[..k] == bs;
      Outcome(c.(cache := next), true, BatchMessages(bs, k))
  }

  /** The batch count carried in every delta message is `ceil(changes / size)`. */
  lemma BatchCount(delta: seq<WoSnapshot>, size: nat)
    requires size > 0
    ensures |Batches(delta, size)| == (|delta| + size - 1) / size
  {
    var n := |Batches(delta, size)|;
    CeilDiv(|delta|, size, n);
  }

  /** `_send_full_state_sync`: on delivery the cache is refreshed and the initial sync is done. */
  function SendFullStateSync(c: Comm, wos: seq<WoSnapshot>, delivered: bool): (r: Outcome)
    ensures r.sent == [FullState(wos)] && r.ok == delivered
    ensures delivered ==> r.comm == c.(cache := CacheOf(wos), initialSynced := true)
    ensures !delivered ==> r.comm == c
  {
    if delivered then Outcome(c.(cache := CacheOf(wos), initialSynced := true), true, [FullState(wos)])
    else Outcome(c, false, [FullState(wos)])
  }

  /**
   * `update_dashboard_state`: nothing when the dashboard is not running or
   * there are no work orders; the full state before the first successful
   * sync or when forced; a delta otherwise.
   */
  function UpdateDashboardState(c: Comm, wos: seq<WoSnapshot>, force: bool, size: nat, accepts: nat -> bool): (r: Outcome)
    requires size > 0
    ensures !c.active || wos == [] ==> r == Outcome(c, false, [])
    ensures c.active && wos != [] && (!c.initialSynced || force) ==> r.sent == [FullState(wos)]
    ensures c.active && wos != [] && c.initialSynced && !force ==>
      forall i :: 0 <= i < |r.sent| ==> r.sent[i].Delta?
    ensures r.comm.active == c.active && r.comm.endedSent == c.endedSent
    ensures r.ok ==> r.comm.cache == CacheOf(wos) && r.comm.initialSynced
    ensures !r.ok ==> r.comm == c
  {
    if !c.active then Outcome(c, false, [])
    else if |wos| == 0 then Outcome(c, false, [])
    else if !c.initialSynced || force then SendFullStateSync(c, wos, accepts(0))
    else SendDeltaUpdates(c, wos, size, accepts)
  }

  /**
   * `send_simulation_ended`: refused when the dashboard is not running,
   * answered without sending once it has been delivered, otherwise sent and
   * remembered on delivery.
   */
  function SendSimulationEnded(c: Comm, delivered: bool): (r: Outcome)
    ensures !c.active ==> r == Outcome(c, false, [])
    ensures c.active && c.endedSent ==> r == Outcome(c, true, [])
    ensures c.active && !c.endedSent ==>
              && r.sent == [SimulationEndedCommand] && r.ok == delivered
              && r.comm == c.(endedSent := delivered)
  {
    if !c.active then Outcome(c, false, [])
    else if c.endedSent then Outcome(c, true, [])
    else Outcome(c.(endedSent := delivered), delivered, [SimulationEndedCommand])
  }

  /** Once delivered, the end of the simulation is never sent again and every later call succeeds. */
  lemma SimulationEndedIdempotent(c: Comm, first: bool, second: bool)
    requires c.active
    ensures var r1 := SendSimulationEnded(c, first);
      r1.ok ==> var r2 := SendSimulationEnded(r1.comm, second);
        r2.ok && r2.sent == [] && r2.comm == r1.comm
  {
  }

  /** `_reset_communication_state`: empty cache and both flags cleared. */
  function Reset(c: Comm): (r: Comm)
    ensures r.cache == map[] && !r.initialSynced && !r.endedSent && r.active == c.active
  {
    c.(cache := map[], initialSynced := false, endedSent := false)
  }

  /** After a reset the next update of a running dashboard sends the full state again. */
  lemma ResetForcesFullSync(c: Comm, wos: seq<WoSnapshot>, size: nat, accepts: nat -> bool)
    requires size > 0 && c.active && wos != []
    ensures UpdateDashboardState(Reset(c), wos, false, size, accepts).sent == [FullState(wos)]
  {
  }

  /** A successful full sync followed by an update of the same work orders sends nothing. */
  lemma SyncThenSameIsQuiet(c: Comm, wos: seq<WoSnapshot>, size: nat, accepts: nat -> bool)
    requires size > 0 && c.active && wos != []
    ensures var r1 := SendFullStateSync(c, wos, true);
      var r2 := UpdateDashboardState(r1.comm, wos, false, size, accepts);
      r2.ok && r2.sent == [] && r2.comm == r1.comm
  {
    NoChangeNoDelta(wos);
  }
}
