/**
 The dispatcher's work-order lifecycle: the master list, the pending queue,
 the per-agent assigned lists, the in-progress map and the completed list,
 plus the available and active agents and the two counters. Work orders are
 shared objects in the system; here the queues hold work-order ids and
 `store` holds the current record of each id, so a status change made by
 one operation is seen through every queue.
 */
module Dispatcher {
  import opened Wrappers
  import opened Seqs
  import opened Grid
  import opened Dicts
  import opened Json
  import opened Operators
  import opened Warehouse
  import opened Assignment
  import opened Pathfinder
  import opened Routing
  import opened DispatchStrategies

  // ---------------------------------------------------------------- configuration

  const StrategyGlobal: string := "Optimizacion Global"
  const StrategyFifo: string := "FIFO Estricto"
  const StrategyPlan: string := "Ejecucion de Plan (Filtro por Prioridad)"
  const StrategyPlanAccented: string := "Ejecución de Plan (Filtro por Prioridad)"
  const StrategyCercania: string := "Cercania"
  const TourSimple: string := "Tour Simple (Un Destino)"
  const TourMixto: string := "Tour Mixto (Multi-Destino)"

  /** The four configuration keys the dispatcher reads; each may be absent. */
  datatype DispatcherConfig = DispatcherConfig(
    dispatchStrategy: Option<string>,
    tourType: Option<string>,
    maxWosPorTour: Option<int>,
    radioCercania: Option<real>)

  datatype Settings = Settings(estrategia: string, tourType: string, maxWos: int, radio: real)

  /** `configuracion.get(key, default)` for the four keys. */
  function SettingsFrom(c: DispatcherConfig): (s: Settings)
    ensures c.dispatchStrategy.None? ==> s.estrategia == StrategyGlobal
    ensures c.tourType.None? ==> s.tourType == TourMixto
    ensures c.maxWosPorTour.None? ==> s.maxWos == 20
    ensures c.radioCercania.None? ==> s.radio == 100.0
    ensures c.dispatchStrategy.Some? ==> s.estrategia == c.dispatchStrategy.value
    ensures c.tourType.Some? ==> s.tourType == c.tourType.value
    ensures c.maxWosPorTour.Some? ==> s.maxWos == c.maxWosPorTour.value
    ensures c.radioCercania.Some? ==> s.radio == c.radioCercania.value
  {
    Settings(c.dispatchStrategy.GetOr(StrategyGlobal), c.tourType.GetOr(TourMixto),
             c.maxWosPorTour.GetOr(20), c.radioCercania.GetOr(100.0))
  }

  // ---------------------------------------------------------------- state

  /** An entry of `operadores_activos`: the tour handed out and when. */
  datatype Activo = Activo(workOrders: seq<string>, tiempoAsignacion: real)

  datatype State = State(
    settings: Settings,
    store: map<string, WorkOrder>,
    master: seq<string>,
    pending: seq<string>,
    asignados: Dict<string, seq<string>>,
    enProgreso: Dict<string, string>,
    completados: seq<string>,
    disponibles: seq<string>,
    activos: Dict<string, Activo>,
    totalAsignaciones: nat,
    totalTours: nat,
    totalInicial: nat,
    almacen: Almacen)

  /** The ids of a batch of work orders, in order. */
  function Ids(ws: seq<WorkOrder>): (r: seq<string>)
    ensures |r| == |ws|
    ensures forall i :: 0 <= i < |ws| ==> r[i] == ws[i].id
  {
    seq(|ws|, i requires 0 <= i < |ws| => ws[i].id)
  }

  lemma IdsCons(ws: seq<WorkOrder>)
    requires |ws| > 0
    ensures Ids(ws) == [ws[0].id] + Ids(ws[1..])
  {
  }

  predicate Known(store: map<string, WorkOrder>, ids: seq<string>)
  {
    forall i :: 0 <= i < |ids| ==> ids[i] in store
  }

  /**
   The representation invariant: every queued id has a record, each record
   sits under its own id, and no agent is listed as available twice.
   */
  predicate Wf(d: State)
  {
    && (forall k :: k in d.store ==> d.store[k].id == k)
    && Known(d.store, d.master) && Known(d.store, d.pending) && Known(d.store, d.completados)
    && (forall op :: op in d.asignados.vals ==> Known(d.store, d.asignados.vals[op]))
    && (forall op :: op in d.enProgreso.vals ==> d.enProgreso.vals[op] in d.store)
    && NoDup(d.disponibles)
  }

  /** `DispatcherV11.__init__`: every queue empty, counters zero. */
  function Init(c: DispatcherConfig, almacen: Almacen): (d: State)
    ensures Wf(d)
    ensures d.settings == SettingsFrom(c)
    ensures d.master == [] && d.pending == [] && d.completados == [] && d.disponibles == []
    ensures d.asignados.keys == [] && d.enProgreso.keys == [] && d.activos.keys == []
    ensures d.totalAsignaciones == 0 && d.totalTours == 0 && d.totalInicial == 0
  {
    State(SettingsFrom(c), map[], [], [], Empty(), Empty(), [], [], Empty(), 0, 0, 0, almacen)
  }

  /** The pending work orders, as records, in queue order. */
  function PendingWos(d: State): (r: seq<WorkOrder>)
    requires Wf(d)
    ensures |r| == |d.pending|
    ensures forall i :: 0 <= i < |r| ==> r[i] == d.store[d.pending[i]] && r[i].id == d.pending[i]
  {
    seq(|d.pending|, i requires 0 <= i < |d.pending| && Wf(d) => d.store[d.pending[i]])
  }

  /** `work_orders_asignados.get(op_id, [])` */
  function Asignados(d: State, opId: string): seq<string>
  {
    GetOr(d.asignados, opId, [])
  }

  /** The `f"{operator.type}_{operator.id}"` key the dispatcher files agents under. */
  function OpKey(o: Operator): string
  {
    o.kind + "_" + o.id
  }

  // ---------------------------------------------------------------- record updates

  /** The position of the last order with id `k`, or -1 when there is none. */
  function LastOf(wos: seq<WorkOrder>, k: string): (j: int)
    ensures -1 <= j < |wos|
    ensures j >= 0 ==> wos[j].id == k
    ensures forall i :: j < i < |wos| ==> wos[i].id != k
    decreases |wos|
  {
    if |wos| == 0 then -1
    else if wos[|wos| - 1].id == k then |wos| - 1
    else
      var j := LastOf(wos[..|wos| - 1], k);
      assert forall i :: 0 <= i < |wos| - 1 ==> wos[..|wos| - 1][i] == wos[i];
      j
  }

  /**
   The records after rewriting each order with `f`, in order, each filed
   under its id (the in-place attribute writes on the shared objects): the
   last order listed with an id decides its record.
   */
  function Restamp(store: map<string, WorkOrder>, wos: seq<WorkOrder>, f: WorkOrder -> WorkOrder): (r: map<string, WorkOrder>)
    ensures forall k :: k in store ==> k in r
    ensures forall k :: k in r ==> k in store || LastOf(wos, k) >= 0
    ensures forall k :: k in store && LastOf(wos, k) < 0 ==> r[k] == store[k]
    ensures forall k :: LastOf(wos, k) >= 0 ==> k in r && r[k] == f(wos[LastOf(wos, k)])
    decreases |wos|
  {
    if |wos| == 0 then store
    else
      var n := |wos| - 1;
      var prev := Restamp(store, wos[..n], f);
      assert forall k :: k != wos[n].id ==> LastOf(wos, k) == LastOf(wos[..n], k);
      assert forall i :: 0 <= i < n ==> wos[..n][i] == wos[i];
      prev[wos[n].id := f(wos[n])]
  }

  /** Each listed order's id leads to a rewritten record, its own one when ids are distinct. */
  lemma RestampListed(store: map<string, WorkOrder>, wos: seq<WorkOrder>, f: WorkOrder -> WorkOrder, i: int)
    requires 0 <= i < |wos|
    ensures var r := Restamp(store, wos, f);
            var j := LastOf(wos, wos[i].id);
            && i <= j < |wos| && wos[j].id == wos[i].id
            && wos[i].id in r && r[wos[i].id] == f(wos[j])
    ensures NoDup(Ids(wos)) ==> Restamp(store, wos, f)[wos[i].id] == f(wos[i])
  {
    var j := LastOf(wos, wos[i].id);
    assert Ids(wos)[i] == Ids(wos)[j];
  }

  /** Ids absent from the batch keep their records. */
  lemma RestampOthers(store: map<string, WorkOrder>, wos: seq<WorkOrder>, f: WorkOrder -> WorkOrder, k: string)
    requires k in store && k !in Ids(wos)
    ensures var r := Restamp(store, wos, f);
            k in r && r[k] == store[k]
  {
  }

  /** Rewriting keeps every record under its own id when `f` keeps ids. */
  lemma RestampIds(store: map<string, WorkOrder>, wos: seq<WorkOrder>, f: WorkOrder -> WorkOrder)
    requires forall k :: k in store ==> store[k].id == k
    requires forall i :: 0 <= i < |wos| ==> f(wos[i]).id == wos[i].id
    ensures var r := Restamp(store, wos, f);
            forall k :: k in r ==> r[k].id == k
  {
  }

  /** A record every listed id has keeps having one in a larger store. */
  lemma KnownMono(store: map<string, WorkOrder>, store': map<string, WorkOrder>, ids: seq<string>)
    requires Known(store, ids)
    requires forall k :: k in store ==> k in store'
    ensures Known(store', ids)
  {
  }

  lemma KnownRemoveAll(store: map<string, WorkOrder>, s: seq<string>, xs: seq<string>)
    requires Known(store, s)
    ensures Known(store, RemoveAll(s, xs))
  {
    var r := RemoveAll(s, xs);
    forall i | 0 <= i < |r| ensures r[i] in store {
      assert r[i] in r;
    }
  }

  lemma KnownAppend(store: map<string, WorkOrder>, s: seq<string>, wos: seq<WorkOrder>)
    requires Known(store, s)
    requires forall i :: 0 <= i < |wos| ==> wos[i].id in store
    ensures Known(store, s + Ids(wos))
  {
  }

  // ---------------------------------------------------------------- adding work

  function Release(): WorkOrder -> WorkOrder
  {
    (w: WorkOrder) => w.(status := "released")
  }

  /**
   `agregar_work_orders`: an empty batch changes nothing; otherwise every
   order is appended to the master list and the pending queue and marked
   "released", and the initial total is fixed on the first non-empty batch.
   */
  function AgregarWorkOrders(d: State, wos: seq<WorkOrder>): (r: State)
    ensures |wos| == 0 ==> r == d
    ensures |wos| > 0 ==> r.master == d.master + Ids(wos) && r.pending == d.pending + Ids(wos)
    ensures |wos| > 0 ==> r.store == Restamp(d.store, wos, Release())
    ensures |wos| > 0 && d.totalInicial == 0 ==> r.totalInicial == |r.master|
    ensures d.totalInicial != 0 ==> r.totalInicial == d.totalInicial
    ensures r.completados == d.completados && r.asignados == d.asignados && r.disponibles == d.disponibles
  {
    if |wos| == 0 then d
    else
      var master := d.master + Ids(wos);
      d.(store := Restamp(d.store, wos, Release()), master := master, pending := d.pending + Ids(wos),
         totalInicial := if d.totalInicial == 0 then |master| else d.totalInicial)
  }

  /** Every added order is on record as "released" (as given, when ids are distinct); other records stay. */
  lemma AgregarStore(d: State, wos: seq<WorkOrder>)
    ensures var r := AgregarWorkOrders(d, wos);
            && (forall i :: 0 <= i < |wos| ==> wos[i].id in r.store && r.store[wos[i].id].status == "released")
            && (NoDup(Ids(wos)) ==> forall i :: 0 <= i < |wos| ==> r.store[wos[i].id] == wos[i].(status := "released"))
            && (forall k :: k in d.store && k !in Ids(wos) ==> k in r.store && r.store[k] == d.store[k])
  {
    var r := AgregarWorkOrders(d, wos);
    forall i | 0 <= i < |wos|
      ensures wos[i].id in r.store && r.store[wos[i].id].status == "released"
      ensures NoDup(Ids(wos)) ==> r.store[wos[i].id] == wos[i].(status := "released")
    {
      RestampListed(d.store, wos, Release(), i);
    }
    forall k | k in d.store && k !in Ids(wos) ensures k in r.store && r.store[k] == d.store[k] {
      RestampOthers(d.store, wos, Release(), k);
    }
  }

  lemma AgregarWf(d: State, wos: seq<WorkOrder>)
    requires Wf(d)
    ensures Wf(AgregarWorkOrders(d, wos))
  {
    if |wos| > 0 {
      var r := AgregarWorkOrders(d, wos);
      RestampIds(d.store, wos, Release());
      KnownMono(d.store, r.store, d.master);
      KnownMono(d.store, r.store, d.pending);
      KnownMono(d.store, r.store, d.completados);
      forall i | 0 <= i < |wos| ensures wos[i].id in r.store {
        RestampListed(d.store, wos, Release(), i);
      }
      KnownAppend(r.store, d.master, wos);
      KnownAppend(r.store, d.pending, wos);
      forall op | op in r.asignados.vals ensures Known(r.store, r.asignados.vals[op]) {
        KnownMono(d.store, r.store, d.asignados.vals[op]);
      }
    }
  }

  /** `registrar_operador_disponible`: append the agent unless it is already listed. */
  function RegistrarOperadorDisponible(d: State, o: Operator): (r: State)
    ensures OpKey(o) in r.disponibles
    ensures OpKey(o) in d.disponibles ==> r == d
    ensures OpKey(o) !in d.disponibles ==> r == d.(disponibles := d.disponibles + [OpKey(o)])
    ensures Wf(d) ==> Wf(r)
  {
    var k := OpKey(o);
    if k in d.disponibles then d
    else
      NoDupSnoc(d.disponibles, k);
      d.(disponibles := d.disponibles + [k])
  }

  /** Registering twice is registering once. */
  lemma RegistrarIdempotent(d: State, o: Operator)
    ensures RegistrarOperadorDisponible(RegistrarOperadorDisponible(d, o), o) == RegistrarOperadorDisponible(d, o)
  {
  }

  // ---------------------------------------------------------------- events

  function OptNum(t: Option<real>): Value
  {
    if t.Some? then Num(t.value) else Null
  }

  /** `round((total - restante) / total * 100, 2) if total > 0 else 0`, without the rounding. */
  function Progress(w: WorkOrder): (p: real)
    ensures w.cantidadInicial <= 0 ==> p == 0.0
    ensures 0 < w.cantidadInicial && 0 <= w.cantidadRestante <= w.cantidadInicial ==> 0.0 <= p <= 100.0
  {
    if w.cantidadInicial > 0 then
      var t := w.cantidadInicial as real;
      var q := (t - w.cantidadRestante as real) / t;
      assert 0 <= w.cantidadRestante <= w.cantidadInicial ==> 0.0 <= q <= 1.0 by {
        if 0 <= w.cantidadRestante <= w.cantidadInicial {
          assert 0.0 <= t - w.cantidadRestante as real <= t;
        }
      }
      q * 100.0
    else 0.0
  }

  /** A dict display: the pairs in order, a repeated key keeping its last value. */
  function FieldsOf(kvs: seq<(string, Value)>): (r: Fields)
    decreases |kvs|
  {
    if |kvs| == 0 then Empty() else Set(FieldsOf(kvs[..|kvs| - 1]), kvs[|kvs| - 1].0, kvs[|kvs| - 1].1)
  }

  /** The payload of a `work_order_update` event. */
  function WoFields(w: WorkOrder, status: string, progress: real): Fields
  {
    var agent := if w.assignedAgentId.Some? then Str(w.assignedAgentId.value) else Null;
    FieldsOf([
      ("id", Str(w.id)),
      ("order_id", Str(w.orderId)),
      ("tour_id", Str(w.tourId)),
      ("sku_id", Str(SkuId(w))),
      ("product", Str(SkuId(w))),
      ("status", Str(status)),
      ("assigned_agent_id", agent),
      ("priority", Num(99.0)),
      ("items", Num(1.0)),
      ("total_qty", Num(w.cantidadInicial as real)),
      ("volume", Num(VolumenRestante(w) as real)),
      ("location", Arr([Num(w.ubicacion.x as real), Num(w.ubicacion.y as real)])),
      ("pick_sequence", Num(w.pickSequence as real)),
      ("staging", Num(StagingId(w) as real)),
      ("work_group", Str(WorkGroup(w.workArea))),
      ("work_area", Str(w.workArea)),
      ("executions", Num(0.0)),
      ("start_time", OptNum(w.tiempoInicio)),
      ("progress", Num(progress)),
      ("tiempo_fin", OptNum(w.tiempoFin))])
  }

  // ---------------------------------------------------------------- assignment

  function Assign(opId: string, now: real): WorkOrder -> WorkOrder
  {
    (w: WorkOrder) => w.(status := "assigned", assignedAgentId := Some(opId), tiempoInicio := Some(now))
  }

  /** One `work_order_update` event per assigned order, in order. */
  method LogAssigned(a: Almacen, wos: seq<WorkOrder>, opId: string, now: real) returns (r: Almacen)
    ensures |r.eventLog| == |a.eventLog| + |wos| && r.eventLog[..|a.eventLog|] == a.eventLog
    ensures r.workordersCompletadas == a.workordersCompletadas && r.tareasCompletadas == a.tareasCompletadas
  {
    r := a;
    for i := 0 to |wos|
      invariant |r.eventLog| == |a.eventLog| + i && r.eventLog[..|a.eventLog|] == a.eventLog
      invariant r.workordersCompletadas == a.workordersCompletadas && r.tareasCompletadas == a.tareasCompletadas
    {
      var upd := Assign(opId, now)(wos[i]);
      var prev := r;
      r := RegistrarEvento(r, now, "work_order_update", WoFields(upd, "assigned", Progress(upd)));
      PrefixTrans(a.eventLog, prev.eventLog, r.eventLog);
    }
  }

  /** The assigned-list entry for `opId` after appending `ids` (created on the first one). */
  function AppendAssigned(asg: Dict<string, seq<string>>, opId: string, ids: seq<string>): (r: Dict<string, seq<string>>)
    ensures |ids| == 0 ==> r == asg
    ensures |ids| > 0 ==> opId in r.vals && r.vals[opId] == GetOr(asg, opId, []) + ids
    ensures forall k :: k != opId ==> (k in r.vals <==> k in asg.vals) && (k in r.vals ==> r.vals[k] == asg.vals[k])
  {
    if |ids| == 0 then asg else Set(asg, opId, GetOr(asg, opId, []) + ids)
  }

  /**
   The queue side of `_marcar_asignados`: each order leaves the pending
   queue and joins the agent's assigned list as "assigned" to it from `now`;
   the agent is no longer available and is active with this tour.
   */
  function AsignarEnColas(d: State, o: Operator, wos: seq<WorkOrder>, now: real): State
  {
    var opId := OpKey(o);
    d.(pending := RemoveAll(d.pending, Ids(wos)),
       asignados := AppendAssigned(d.asignados, opId, Ids(wos)),
       store := Restamp(d.store, wos, Assign(opId, now)),
       disponibles := RemoveFirst(d.disponibles, opId),
       activos := Set(d.activos, opId, Activo(Ids(wos), now)))
  }

  /** `_marcar_asignados`: the queue changes above, and one event per order. */
  method MarcarAsignados(d: State, o: Operator, wos: seq<WorkOrder>, now: real) returns (r: State)
    ensures r == AsignarEnColas(d, o, wos, now).(almacen := r.almacen)
    ensures |r.almacen.eventLog| == |d.almacen.eventLog| + |wos|
    ensures r.almacen.eventLog[..|d.almacen.eventLog|] == d.almacen.eventLog
    ensures r.almacen.workordersCompletadas == d.almacen.workordersCompletadas
  {
    var a := LogAssigned(d.almacen, wos, OpKey(o), now);
    r := AsignarEnColas(d, o, wos, now).(almacen := a);
  }

  /** What `_marcar_asignados` promises about the queues. */
  lemma AsignarQueues(d: State, o: Operator, wos: seq<WorkOrder>, now: real)
    ensures var r := AsignarEnColas(d, o, wos, now);
            && multiset(r.pending) == multiset(d.pending) - multiset(Ids(wos))
            && Asignados(r, OpKey(o)) == Asignados(d, OpKey(o)) + Ids(wos)
            && (forall k :: k != OpKey(o) ==> Asignados(r, k) == Asignados(d, k))
            && OpKey(o) in r.activos.vals && r.activos.vals[OpKey(o)] == Activo(Ids(wos), now)
            && r.completados == d.completados && r.master == d.master
  {
  }

  /** What `_marcar_asignados` promises about the records: the batch is assigned to the agent from `now`. */
  lemma AsignarStore(d: State, o: Operator, wos: seq<WorkOrder>, now: real)
    ensures var r := AsignarEnColas(d, o, wos, now);
            && (forall i :: 0 <= i < |wos| ==>
                  && wos[i].id in r.store
                  && r.store[wos[i].id].status == "assigned"
                  && r.store[wos[i].id].assignedAgentId == Some(OpKey(o))
                  && r.store[wos[i].id].tiempoInicio == Some(now))
            && (forall k :: k in d.store && k !in Ids(wos) ==> k in r.store && r.store[k] == d.store[k])
  {
    var r := AsignarEnColas(d, o, wos, now);
    var f := Assign(OpKey(o), now);
    forall i | 0 <= i < |wos|
      ensures r.store[wos[i].id].status == "assigned" && r.store[wos[i].id].assignedAgentId == Some(OpKey(o))
      ensures r.store[wos[i].id].tiempoInicio == Some(now)
    {
      RestampListed(d.store, wos, f, i);
    }
    forall k | k in d.store && k !in Ids(wos) ensures k in r.store && r.store[k] == d.store[k] {
      RestampOthers(d.store, wos, f, k);
    }
  }

  /** The agent leaves the available list, which stays duplicate-free and keeps everyone else. */
  lemma AsignarAgents(d: State, o: Operator, wos: seq<WorkOrder>, now: real)
    requires NoDup(d.disponibles)
    ensures var r := AsignarEnColas(d, o, wos, now);
            && OpKey(o) !in r.disponibles
            && NoDup(r.disponibles)
            && (forall k :: k in d.disponibles && k != OpKey(o) ==> k in r.disponibles)
  {
    AsignarFields(d, o, wos, now);
    RemoveFirstNoDup(d.disponibles, OpKey(o));
  }

  /** Removing a member of a duplicate-free list removes it entirely and keeps everyone else. */
  lemma RemoveFirstNoDup(s: seq<string>, x: string)
    requires NoDup(s)
    ensures var r := RemoveFirst(s, x);
      x !in r && NoDup(r) && forall k :: k in s && k != x ==> k in r
  {
    var r := RemoveFirst(s, x);
    SubMultisetNoDup(s, r);
    if x in s {
      NoDupMultiplicity(s);
      assert multiset(r)[x] == 0;
    }
    forall k | k in s && k != x ensures k in r {
      assert k in multiset(s);
      assert multiset(r)[k] == multiset(s)[k];
    }
  }

  lemma AsignarWf(d: State, o: Operator, wos: seq<WorkOrder>, now: real)
    requires Wf(d)
    ensures Wf(AsignarEnColas(d, o, wos, now))
  {
    var r := AsignarEnColas(d, o, wos, now);
    var opId := OpKey(o);
    AsignarFields(d, o, wos, now);
    RestampIds(d.store, wos, Assign(opId, now));
    AsignarAgents(d, o, wos, now);
    KnownMono(d.store, r.store, d.master);
    KnownMono(d.store, r.store, d.completados);
    KnownMono(d.store, r.store, d.pending);
    KnownRemoveAll(r.store, d.pending, Ids(wos));
    AppendAssignedKnown(d.asignados, d.store, r.store, opId, wos);
  }

  /** The fields `_marcar_asignados` writes, and those it leaves alone. */
  lemma AsignarFields(d: State, o: Operator, wos: seq<WorkOrder>, now: real)
    ensures var r := AsignarEnColas(d, o, wos, now);
            && r.pending == RemoveAll(d.pending, Ids(wos))
            && r.asignados == AppendAssigned(d.asignados, OpKey(o), Ids(wos))
            && r.store == Restamp(d.store, wos, Assign(OpKey(o), now))
            && r.disponibles == RemoveFirst(d.disponibles, OpKey(o))
            && r.master == d.master && r.completados == d.completados && r.enProgreso == d.enProgreso
  {
  }

  /** Appending the batch to an agent's list keeps every list's ids on record. */
  lemma AppendAssignedKnown(asg: Dict<string, seq<string>>, store: map<string, WorkOrder>, store': map<string, WorkOrder>,
                            opId: string, wos: seq<WorkOrder>)
    requires forall op :: op in asg.vals ==> Known(store, asg.vals[op])
    requires forall k :: k in store ==> k in store'
    requires forall i :: 0 <= i < |wos| ==> wos[i].id in store'
    ensures forall op :: op in AppendAssigned(asg, opId, Ids(wos)).vals ==> Known(store', AppendAssigned(asg, opId, Ids(wos)).vals[op])
  {
    var r := AppendAssigned(asg, opId, Ids(wos));
    forall op | op in r.vals ensures Known(store', r.vals[op]) {
      if op in asg.vals {
        KnownMono(store, store', asg.vals[op]);
      }
      if op == opId && |Ids(wos)| > 0 {
        KnownAppend(store', GetOr(asg, opId, []), wos);
      }
    }
  }

  /** The queue side of `notificar_inicio_trabajo`: the order is "in_progress" and is the agent's current one. */
  function IniciarEnColas(d: State, o: Operator, w: WorkOrder): (r: State)
    ensures r.store == d.store[w.id := w.(status := "in_progress")]
    ensures r.enProgreso.vals == d.enProgreso.vals[OpKey(o) := w.id]
    ensures r.pending == d.pending && r.asignados == d.asignados && r.completados == d.completados
    ensures r.master == d.master && r.disponibles == d.disponibles && r.almacen == d.almacen
  {
    d.(store := d.store[w.id := w.(status := "in_progress")], enProgreso := Set(d.enProgreso, OpKey(o), w.id))
  }

  /** `notificar_inicio_trabajo`: the queue change above and one `work_order_update` event. */
  method NotificarInicioTrabajo(d: State, o: Operator, w: WorkOrder, now: real) returns (r: State)
    ensures r == IniciarEnColas(d, o, w).(almacen := r.almacen)
    ensures |r.almacen.eventLog| == |d.almacen.eventLog| + 1
    ensures r.almacen.eventLog[..|d.almacen.eventLog|] == d.almacen.eventLog
  {
    var upd := w.(status := "in_progress");
    var a := RegistrarEvento(d.almacen, now, "work_order_update", WoFields(upd, "in_progress", Progress(upd)));
    r := IniciarEnColas(d, o, w).(almacen := a);
  }

  /** Starting a known order keeps the dispatcher well formed. */
  lemma IniciarWf(d: State, o: Operator, w: WorkOrder)
    requires Wf(d) && w.id in d.store
    ensures Wf(IniciarEnColas(d, o, w))
  {
    var r := IniciarEnColas(d, o, w);
    KnownMono(d.store, r.store, d.master);
    KnownMono(d.store, r.store, d.pending);
    KnownMono(d.store, r.store, d.completados);
    forall op | op in r.asignados.vals ensures Known(r.store, r.asignados.vals[op]) {
      KnownMono(d.store, r.store, d.asignados.vals[op]);
    }
  }

  // ---------------------------------------------------------------- completion

  /** The `duration` of a `work_order_completed` event: zero when the start time is unset or zero. */
  function Duration(w: WorkOrder, now: real): (r: real)
    ensures w.tiempoInicio.None? ==> r == 0.0
    ensures w.tiempoInicio.Some? && w.tiempoInicio.value != 0.0 ==> r == now - w.tiempoInicio.value
  {
    if w.tiempoInicio.Some? && Truthy(Num(w.tiempoInicio.value)) then now - w.tiempoInicio.value else 0.0
  }

  function CompletedFields(opId: string, w: WorkOrder, now: real): Fields
  {
    FieldsOf([("agent_id", Str(opId)), ("work_order_id", Str(w.id)),
              ("data", Obj(FieldsOf([("duration", Num(Duration(w, now)))])))])
  }

  function Stage(now: real): WorkOrder -> WorkOrder
  {
    (w: WorkOrder) => w.(status := "staged", tiempoFin := Some(now))
  }

  /** Per completed order: its update event, its completion event, and the warehouse counter. */
  method LogCompleted(a: Almacen, wos: seq<WorkOrder>, opId: string, now: real) returns (r: Almacen)
    ensures |r.eventLog| == |a.eventLog| + 2 * |wos| && r.eventLog[..|a.eventLog|] == a.eventLog
    ensures r.workordersCompletadas == a.workordersCompletadas + |wos|
    ensures r.tareasCompletadas == a.tareasCompletadas
  {
    r := a;
    for i := 0 to |wos|
      invariant |r.eventLog| == |a.eventLog| + 2 * i && r.eventLog[..|a.eventLog|] == a.eventLog
      invariant r.workordersCompletadas == a.workordersCompletadas + i
      invariant r.tareasCompletadas == a.tareasCompletadas
    {
      var upd := Stage(now)(wos[i]);
      var prev := r;
      r := RegistrarEvento(r, now, "work_order_update", WoFields(upd, "staged", 100.0));
      PrefixTrans(a.eventLog, prev.eventLog, r.eventLog);
      var mid := r;
      r := RegistrarEvento(r, now, "work_order_completed", CompletedFields(opId, upd, now));
      PrefixTrans(a.eventLog, mid.eventLog, r.eventLog);
      r := IncrementarWorkorders(r);
    }
  }

  /** The agent's assigned list loses one occurrence of each completed id, when the agent has a list. */
  function RemoveAssigned(asg: Dict<string, seq<string>>, opId: string, ids: seq<string>): (r: Dict<string, seq<string>>)
    ensures opId in r.vals <==> opId in asg.vals
    ensures opId in asg.vals ==> r.vals[opId] == RemoveAll(asg.vals[opId], ids)
    ensures forall k :: k != opId ==> (k in r.vals <==> k in asg.vals) && (k in r.vals ==> r.vals[k] == asg.vals[k])
  {
    if opId in asg.vals then Set(asg, opId, RemoveAll(asg.vals[opId], ids)) else asg
  }

  /** The in-progress slot of the agent, cleared by the first completed order it holds. */
  function ClearInProgress(enp: Dict<string, string>, opId: string, ids: seq<string>): (r: Dict<string, string>)
    ensures r.vals == if opId in enp.vals && enp.vals[opId] in ids then enp.vals - {opId} else enp.vals
    decreases |ids|
  {
    if |ids| == 0 then enp
    else
      var e := if opId in enp.vals && enp.vals[opId] == ids[0] then Remove(enp, opId) else enp;
      assert ids == [ids[0]] + ids[1..];
      ClearInProgress(e, opId, ids[1..])
  }

  /**
   The queue side of `notificar_completado`: each order leaves the agent's
   assigned list (and its in-progress slot) and joins the completed list as
   "staged" at `now`; the agent is no longer active and is available, listed
   once.
   */
  function CompletarEnColas(d: State, o: Operator, wos: seq<WorkOrder>, now: real): State
  {
    var opId := OpKey(o);
    d.(asignados := RemoveAssigned(d.asignados, opId, Ids(wos)),
       enProgreso := ClearInProgress(d.enProgreso, opId, Ids(wos)),
       completados := d.completados + Ids(wos),
       store := Restamp(d.store, wos, Stage(now)),
       activos := Remove(d.activos, opId),
       disponibles := Listed(d.disponibles, opId))
  }

  /** The list with `k` appended unless it is already there. */
  function Listed(xs: seq<string>, k: string): (r: seq<string>)
    ensures k in r && forall x :: x in xs ==> x in r
    ensures NoDup(xs) ==> NoDup(r)
  {
    if k in xs then xs
    else
      NoDupSnoc(xs, k);
      xs + [k]
  }

  /** `notificar_completado`: the queue changes above; two events and one count per order. */
  method NotificarCompletado(d: State, o: Operator, wos: seq<WorkOrder>, now: real) returns (r: State)
    ensures r == CompletarEnColas(d, o, wos, now).(almacen := r.almacen)
    ensures |r.almacen.eventLog| == |d.almacen.eventLog| + 2 * |wos|
    ensures r.almacen.eventLog[..|d.almacen.eventLog|] == d.almacen.eventLog
    ensures r.almacen.workordersCompletadas == d.almacen.workordersCompletadas + |wos|
  {
    var a := LogCompleted(d.almacen, wos, OpKey(o), now);
    r := CompletarEnColas(d, o, wos, now).(almacen := a);
  }

  /** What `notificar_completado` promises about the queues, records and agents. */
  lemma CompletarSpec(d: State, o: Operator, wos: seq<WorkOrder>, now: real)
    ensures var r := CompletarEnColas(d, o, wos, now);
            && r.completados == d.completados + Ids(wos)
            && multiset(Asignados(r, OpKey(o))) == multiset(Asignados(d, OpKey(o))) - multiset(Ids(wos))
            && (forall k :: k != OpKey(o) ==> Asignados(r, k) == Asignados(d, k))
            && (forall i :: 0 <= i < |wos| ==>
                  wos[i].id in r.store && r.store[wos[i].id].status == "staged" && r.store[wos[i].id].tiempoFin == Some(now))
            && (forall k :: k in d.store && k !in Ids(wos) ==> k in r.store && r.store[k] == d.store[k])
            && (OpKey(o) in r.enProgreso.vals ==> r.enProgreso.vals[OpKey(o)] !in Ids(wos))
            && OpKey(o) !in r.activos.vals
            && OpKey(o) in r.disponibles
            && (forall k :: k in d.disponibles ==> k in r.disponibles)
            && r.pending == d.pending && r.master == d.master
  {
    CompletarFields(d, o, wos, now);
    CompletarAssigned(d, o, wos, now);
    CompletarStore(d, o, wos, now);
  }

  /** The fields `notificar_completado` writes, one by one. */
  lemma CompletarFields(d: State, o: Operator, wos: seq<WorkOrder>, now: real)
    ensures var r := CompletarEnColas(d, o, wos, now);
            && r.asignados == RemoveAssigned(d.asignados, OpKey(o), Ids(wos))
            && r.enProgreso == ClearInProgress(d.enProgreso, OpKey(o), Ids(wos))
            && r.completados == d.completados + Ids(wos)
            && r.store == Restamp(d.store, wos, Stage(now))
            && r.activos == Remove(d.activos, OpKey(o))
            && OpKey(o) in r.disponibles
            && (forall k :: k in d.disponibles ==> k in r.disponibles)
            && r.pending == d.pending && r.master == d.master
  {
  }

  lemma CompletarAssigned(d: State, o: Operator, wos: seq<WorkOrder>, now: real)
    ensures var r := CompletarEnColas(d, o, wos, now);
            && multiset(Asignados(r, OpKey(o))) == multiset(Asignados(d, OpKey(o))) - multiset(Ids(wos))
            && (forall k :: k != OpKey(o) ==> Asignados(r, k) == Asignados(d, k))
  {
    CompletarFields(d, o, wos, now);
  }

  lemma CompletarStore(d: State, o: Operator, wos: seq<WorkOrder>, now: real)
    ensures var r := CompletarEnColas(d, o, wos, now);
            && (forall i :: 0 <= i < |wos| ==>
                  wos[i].id in r.store && r.store[wos[i].id].status == "staged" && r.store[wos[i].id].tiempoFin == Some(now))
            && (forall k :: k in d.store && k !in Ids(wos) ==> k in r.store && r.store[k] == d.store[k])
  {
    CompletarFields(d, o, wos, now);
    var r := CompletarEnColas(d, o, wos, now);
    var f := Stage(now);
    forall i | 0 <= i < |wos| ensures r.store[wos[i].id].status == "staged" && r.store[wos[i].id].tiempoFin == Some(now) {
      RestampListed(d.store, wos, f, i);
    }
    forall k | k in d.store && k !in Ids(wos) ensures k in r.store && r.store[k] == d.store[k] {
      RestampOthers(d.store, wos, f, k);
    }
  }

  lemma CompletarWf(d: State, o: Operator, wos: seq<WorkOrder>, now: real)
    requires Wf(d)
    ensures Wf(CompletarEnColas(d, o, wos, now))
  {
    var r := CompletarEnColas(d, o, wos, now);
    var opId := OpKey(o);
    RestampIds(d.store, wos, Stage(now));
    KnownMono(d.store, r.store, d.master);
    KnownMono(d.store, r.store, d.pending);
    KnownMono(d.store, r.store, d.completados);
    KnownAppend(r.store, d.completados, wos);
    forall op | op in r.asignados.vals ensures Known(r.store, r.asignados.vals[op]) {
      KnownMono(d.store, r.store, d.asignados.vals[op]);
      if op == opId {
        KnownRemoveAll(r.store, d.asignados.vals[op], Ids(wos));
      }
    }
  }

  // ---------------------------------------------------------------- queries

  /** `simulacion_ha_terminado` */
  function SimulacionHaTerminado(d: State): (r: bool)
    ensures |d.master| == 0 ==> !r
    ensures |d.master| > 0 ==> (r <==> |d.completados| >= |d.master|)
  {
    if |d.master| == 0 then false else |d.completados| >= |d.master|
  }

  /** Once finished, completing more orders keeps the simulation finished. */
  lemma TerminadoStable(d: State, o: Operator, wos: seq<WorkOrder>, now: real)
    requires SimulacionHaTerminado(d)
    ensures SimulacionHaTerminado(CompletarEnColas(d, o, wos, now))
  {
  }

  /** Assigning orders never ends a simulation nor un-ends it. */
  lemma TerminadoUnderAssignment(d: State, o: Operator, wos: seq<WorkOrder>, now: real)
    ensures SimulacionHaTerminado(AsignarEnColas(d, o, wos, now)) == SimulacionHaTerminado(d)
  {
  }

  datatype Estadisticas = Estadisticas(
    pendientes: nat, asignados: nat, enProgreso: nat, completados: nat, total: nat,
    operadoresDisponibles: nat, operadoresActivos: nat, totalAsignaciones: nat, totalTours: nat,
    porcentajeCompletado: real)

  /** The summed lengths of the assigned lists, in key order. */
  function SumLengths(ls: seq<seq<string>>): (n: nat)
  {
    if |ls| == 0 then 0 else SumLengths(ls[..|ls| - 1]) + |ls[|ls| - 1]|
  }

  /** `obtener_estadisticas`: the queue sizes, counters and the completed percentage. */
  function ObtenerEstadisticas(d: State): (s: Estadisticas)
    ensures s.pendientes == |d.pending| && s.completados == |d.completados| && s.total == |d.master|
    ensures s.asignados == SumLengths(Values(d.asignados))
    ensures s.enProgreso == |d.enProgreso.keys| && s.operadoresActivos == |d.activos.keys|
    ensures s.operadoresDisponibles == |d.disponibles|
    ensures |d.master| == 0 ==> s.porcentajeCompletado == 0.0
    ensures |d.completados| <= |d.master| ==> 0.0 <= s.porcentajeCompletado <= 100.0
    ensures |d.master| > 0 ==> (s.porcentajeCompletado >= 100.0 <==> SimulacionHaTerminado(d))
  {
    var pct := if |d.master| > 0 then (|d.completados| as real / |d.master| as real) * 100.0 else 0.0;
    assert |d.master| > 0 ==> (pct >= 100.0 <==> |d.completados| >= |d.master|) by {
      if |d.master| > 0 {
        var q := |d.completados| as real / |d.master| as real;
        assert q * (|d.master| as real) == |d.completados| as real;
        assert q >= 1.0 <==> |d.completados| >= |d.master| by {
          if q >= 1.0 {
            assert q * (|d.master| as real) >= |d.master| as real;
          }
          if |d.completados| >= |d.master| {
            assert q * (|d.master| as real) >= |d.master| as real;
          }
        }
      }
    }
    assert |d.completados| <= |d.master| && |d.master| > 0 ==> pct <= 100.0 by {
      if |d.completados| <= |d.master| && |d.master| > 0 {
        var q := |d.completados| as real / |d.master| as real;
        assert q * (|d.master| as real) == |d.completados| as real;
      }
    }
    Estadisticas(|d.pending|, SumLengths(Values(d.asignados)), |d.enProgreso.keys|, |d.completados|,
                 |d.master|, |d.disponibles|, |d.activos.keys|, d.totalAsignaciones, d.totalTours, pct)
  }

  // ---------------------------------------------------------------- strategies

  datatype Strategy = FifoEstricto | OptimizacionGlobalS | EjecucionPlanS | CercaniaS

  /** `_seleccionar_work_orders_candidatos`: the strategy a name selects; unknown names fall back to the global one. */
  function StrategyFor(name: string): (s: Strategy)
    ensures s == FifoEstricto <==> name == StrategyFifo
    ensures s == EjecucionPlanS <==> name == StrategyPlan || name == StrategyPlanAccented
    ensures s == CercaniaS <==> name == StrategyCercania
    ensures s == OptimizacionGlobalS <==> name !in {StrategyFifo, StrategyPlan, StrategyPlanAccented, StrategyCercania}
  {
    if name == StrategyFifo then FifoEstricto
    else if name == StrategyGlobal then OptimizacionGlobalS
    else if name == StrategyPlan || name == StrategyPlanAccented then EjecucionPlanS
    else if name == StrategyCercania then CercaniaS
    else OptimizacionGlobalS
  }

  /** The two names whose candidates already are the tour; every other name goes through cost batching. */
  predicate UsesStrategyTour(name: string)
  {
    name == StrategyGlobal || name == StrategyPlan
  }

  /**
   The accented spelling of the plan strategy builds the plan tour but then
   re-selects it by cost, as does an unknown name that falls back to the
   global strategy.
   */
  lemma NamesRoutedThroughBatch(name: string)
    requires name == StrategyPlanAccented || name !in {StrategyFifo, StrategyGlobal, StrategyPlan, StrategyPlanAccented, StrategyCercania}
    ensures StrategyFor(name) in {EjecucionPlanS, OptimizacionGlobalS}
    ensures !UsesStrategyTour(name)
  {
  }

  /**
   As written, a request under the default strategy (or a name that falls
   back to it) raises as soon as one pending order is compatible with the
   operator: the global strategy costs its first order with the cost
   calculation whose log line raises.  With no compatible order it answers
   with an empty plan.
   */
  lemma DefaultRequestRaisesAsWritten(d: State, route: Router, o: Operator, staging1: Option<Cell>, i: int)
    requires Wf(d)
    requires StrategyFor(d.settings.estrategia) == OptimizacionGlobalS
    requires 0 <= i < |d.pending| && CanHandle(o, d.store[d.pending[i]].workArea)
    ensures OptimizacionGlobalAsWritten(route, o, staging1, PendingWos(d), d.settings.maxWos,
                                        d.settings.tourType == TourSimple).Err?
  {
    var pend := PendingWos(d);
    FilterMembers(pend, Compatible(o));
    assert pend[i] in Filter(pend, Compatible(o));
  }

  /** The candidates of the configured strategy, drawn from the pending queue. */
  method SeleccionarCandidatos(d: State, route: Router, o: Operator, staging1: Option<Cell>) returns (r: seq<WorkOrder>)
    requires Wf(d)
    ensures forall i :: 0 <= i < |r| ==> r[i] in PendingWos(d) && CanHandle(o, r[i].workArea)
    ensures UsesStrategyTour(d.settings.estrategia) ==> |r| <= Max(1, d.settings.maxWos)
    ensures UsesStrategyTour(d.settings.estrategia) && d.settings.tourType != TourSimple && r != [] ==>
              SumVol(r) <= o.capacity
    ensures NoDup(d.pending) && UsesStrategyTour(d.settings.estrategia) ==> NoDup(r)
  {
    var pend := PendingWos(d);
    var s := d.settings;
    var simple := s.tourType == TourSimple;
    assert NoDup(d.pending) ==> NoDup(pend) by {
      if NoDup(d.pending) {
        forall i, j | 0 <= i < j < |pend| ensures pend[i] != pend[j] {
          assert pend[i].id == d.pending[i] && pend[j].id == d.pending[j];
        }
      }
    }
    match StrategyFor(s.estrategia)
    case FifoEstricto =>
      r := Fifo(o, pend, s.maxWos);
    case OptimizacionGlobalS =>
      r := OptimizacionGlobal(route, o, staging1, pend, s.maxWos, simple);
    case EjecucionPlanS =>
      r := EjecucionPlan(o, pend, s.maxWos, simple);
    case CercaniaS =>
      r := Cercania(o, pend, s.maxWos, s.radio);
  }

  // ---------------------------------------------------------------- dispatch

  /**
   The dead-lock guard of `_seleccionar_mejor_batch`: orders too large for
   the agent on their own are marked "staged" with nothing left to pick,
   moved to the completed list and taken out of pending.
   */
  function Discard(): WorkOrder -> WorkOrder
  {
    (w: WorkOrder) => w.(status := "staged", cantidadRestante := 0)
  }

  function DescartarSobredimensionados(d: State, over: seq<WorkOrder>): (r: State)
  {
    d.(store := Restamp(d.store, over, Discard()),
       completados := d.completados + Ids(over),
       pending := RemoveAll(d.pending, Ids(over)))
  }

  /** What the dead-lock guard promises about the queues and records. */
  lemma DescartarSpec(d: State, over: seq<WorkOrder>)
    ensures var r := DescartarSobredimensionados(d, over);
            && r.completados == d.completados + Ids(over)
            && multiset(r.pending) == multiset(d.pending) - multiset(Ids(over))
            && (forall i :: 0 <= i < |over| ==>
                  over[i].id in r.store && r.store[over[i].id].status == "staged" && r.store[over[i].id].cantidadRestante == 0)
            && (forall k :: k in d.store && k !in Ids(over) ==> k in r.store && r.store[k] == d.store[k])
            && r.asignados == d.asignados && r.master == d.master && r.disponibles == d.disponibles
  {
    var r := DescartarSobredimensionados(d, over);
    var f := Discard();
    forall i | 0 <= i < |over| ensures r.store[over[i].id].status == "staged" && r.store[over[i].id].cantidadRestante == 0 {
      RestampListed(d.store, over, f, i);
    }
    forall k | k in d.store && k !in Ids(over) ensures k in r.store && r.store[k] == d.store[k] {
      RestampOthers(d.store, over, f, k);
    }
  }

  lemma DescartarWf(d: State, over: seq<WorkOrder>)
    requires Wf(d)
    ensures Wf(DescartarSobredimensionados(d, over))
  {
    var r := DescartarSobredimensionados(d, over);
    RestampIds(d.store, over, Discard());
    KnownMono(d.store, r.store, d.master);
    KnownMono(d.store, r.store, d.pending);
    KnownMono(d.store, r.store, d.completados);
    KnownAppend(r.store, d.completados, over);
    KnownRemoveAll(r.store, d.pending, Ids(over));
    forall op | op in r.asignados.vals ensures Known(r.store, r.asignados.vals[op]) {
      KnownMono(d.store, r.store, d.asignados.vals[op]);
    }
  }

  /** Where a tour starts: the agent's position, else staging location 1, else (0, 0). */
  function TourStart(o: Operator, staging1: Option<Cell>): (c: Cell)
    ensures c == StartCell(o, staging1, Cell(0, 0))
  {
    if o.position.Some? then o.position.value else staging1.GetOr(Cell(0, 0))
  }

  /**
   `_construir_tour`: nothing for an empty batch or a "Tour Simple" batch
   spanning several stagings; otherwise the route calculator's result from
   the tour start, returning there, keeping the first order first only
   under the global strategy, and only when it succeeded.
   */
  method ConstruirTour(d: State, p: Pathfinder, sqrt: real -> real, o: Operator, wos: seq<WorkOrder>,
                       staging1: Option<Cell>) returns (r: Option<RouteResult>)
    ensures wos == [] ==> r.None?
    ensures d.settings.tourType == TourSimple && !SingleStaging(wos) ==> r.None?
    ensures r.Some? ==> r.value.success
    ensures r.Some? ==>
              && IsWalkable(p, TourStart(o, staging1))
              && RouteOk(p, sqrt, TourStart(o, staging1),
                         OrderBySequence(wos, d.settings.estrategia == StrategyGlobal), r.value)
    ensures r.Some? ==> r.value.visitSequence == OrderBySequence(wos, d.settings.estrategia == StrategyGlobal)
  {
    if wos == [] {
      return None;
    }
    var ws := wos;
    if d.settings.tourType == TourSimple {
      ws := ValidarTourSimple(wos);
      if ws == [] {
        return None;
      }
    }
    var start := TourStart(o, staging1);
    var preserve := d.settings.estrategia == StrategyGlobal;
    var rr := CalculateRoute(p, sqrt, start, ws, true, preserve);
    if rr.success {
      assert ws == wos && IsWalkable(p, start);
      SuccessVisitsAll(p, sqrt, start, OrderBySequence(ws, preserve), rr);
      r := Some(rr);
    } else {
      r := None;
    }
  }

  datatype Tour = Tour(workOrders: seq<WorkOrder>, route: RouteResult, totalDistance: real,
                       totalVolume: int, numStops: nat)

  /**
   The batch `solicitar_asignacion` settles on before routing: the
   strategy's candidates as they are for the global and plan strategies,
   the cost-selected ones otherwise; an empty cost selection with oversized
   orders discards those orders.
   */
  method ElegirLote(d: State, route: Router, o: Operator, staging1: Option<Cell>)
    returns (cur: State, selected: seq<WorkOrder>)
    requires Wf(d)
    ensures Wf(cur)
    ensures selected != [] ==> cur == d
    ensures cur.asignados == d.asignados && cur.settings == d.settings && cur.disponibles == d.disponibles
    ensures cur.totalAsignaciones == d.totalAsignaciones && cur.totalTours == d.totalTours
    ensures d.completados <= cur.completados
    ensures |selected| <= Max(1, d.settings.maxWos)
    ensures forall i :: 0 <= i < |selected| ==> selected[i] in PendingWos(d) && CanHandle(o, selected[i].workArea)
    ensures selected != [] && (!UsesStrategyTour(d.settings.estrategia) || d.settings.tourType != TourSimple) ==>
              SumVol(selected) <= o.capacity
  {
    cur := d;
    var cands := SeleccionarCandidatos(d, route, o, staging1);
    if cands == [] {
      return d, [];
    }
    if UsesStrategyTour(d.settings.estrategia) {
      selected := cands;
    } else {
      var batch := SeleccionarMejorBatch(route, o, staging1, cands, d.settings.maxWos);
      selected := batch.0;
      if selected == [] && batch.1 != [] {
        cur := DescartarSobredimensionados(d, batch.1);
        DescartarSpec(d, batch.1);
        DescartarWf(d, batch.1);
      }
      forall i | 0 <= i < |selected| ensures selected[i] in cands {
        assert selected[i] in multiset(batch.0) + multiset(batch.1);
      }
    }
  }

  /** One more assignment and one more tour; nothing else changes. */
  function CountTour(s: State): (r: State)
    ensures r.totalAsignaciones == s.totalAsignaciones + 1 && r.totalTours == s.totalTours + 1
    ensures r.store == s.store && r.pending == s.pending && r.asignados == s.asignados
    ensures r.disponibles == s.disponibles && r.completados == s.completados && r.settings == s.settings
    ensures Wf(s) ==> Wf(r)
  {
    s.(totalAsignaciones := s.totalAsignaciones + 1, totalTours := s.totalTours + 1)
  }

  /**
   `solicitar_asignacion`: with work pending, the configured strategy's
   candidates become the batch (directly for the global and plan
   strategies, by cost otherwise), the batch is routed, and on success it is
   marked assigned to the agent and both counters grow by one.
   */
  method SolicitarAsignacion(d: State, p: Pathfinder, sqrt: real -> real, route: Router, o: Operator,
                             staging1: Option<Cell>, now: real) returns (r: State, tour: Option<Tour>)
    requires Wf(d)
    ensures Wf(r)
    ensures d.pending == [] ==> r == d && tour.None?
    ensures tour.None? ==> r.asignados == d.asignados && r.totalAsignaciones == d.totalAsignaciones
                           && r.totalTours == d.totalTours && d.completados <= r.completados
    ensures tour.Some? ==> r.totalAsignaciones == d.totalAsignaciones + 1 && r.totalTours == d.totalTours + 1
    ensures tour.Some? ==>
              var ws := tour.value.workOrders;
              && |ws| > 0
              && |ws| <= Max(1, d.settings.maxWos)
              && tour.value.route.success
              && tour.value.numStops == |ws| && tour.value.totalVolume == SumVol(ws)
              && tour.value.totalDistance == tour.value.route.totalDistance
              && (forall i :: 0 <= i < |ws| ==>
                    && ws[i] in PendingWos(d) && CanHandle(o, ws[i].workArea)
                    && ws[i].id in r.store && r.store[ws[i].id].status == "assigned"
                    && r.store[ws[i].id].assignedAgentId == Some(OpKey(o)))
              && multiset(r.pending) == multiset(d.pending) - multiset(Ids(ws))
              && Asignados(r, OpKey(o)) == Asignados(d, OpKey(o)) + Ids(ws)
              && OpKey(o) !in r.disponibles
              && (!UsesStrategyTour(d.settings.estrategia) || d.settings.tourType != TourSimple ==>
                    SumVol(ws) <= o.capacity)
  {
    if d.pending == [] {
      return d, None;
    }
    var cur, selected := ElegirLote(d, route, o, staging1);
    if selected == [] {
      return cur, None;
    }
    var rt := ConstruirTour(cur, p, sqrt, o, selected, staging1);
    if rt.None? {
      return cur, None;
    }
    var t;
    r, t := AssignTour(cur, o, selected, rt.value, now);
    tour := Some(t);
  }

  /** The successful end of `solicitar_asignacion`: the routed batch is marked assigned and counted. */
  method AssignTour(d: State, o: Operator, ws: seq<WorkOrder>, rt: RouteResult, now: real) returns (r: State, tour: Tour)
    requires Wf(d)
    ensures Wf(r)
    ensures r.totalAsignaciones == d.totalAsignaciones + 1 && r.totalTours == d.totalTours + 1
    ensures tour == Tour(ws, rt, rt.totalDistance, SumVol(ws), |ws|)
    ensures forall i :: 0 <= i < |ws| ==>
              ws[i].id in r.store && r.store[ws[i].id].status == "assigned" && r.store[ws[i].id].assignedAgentId == Some(OpKey(o))
    ensures multiset(r.pending) == multiset(d.pending) - multiset(Ids(ws))
    ensures Asignados(r, OpKey(o)) == Asignados(d, OpKey(o)) + Ids(ws)
    ensures OpKey(o) !in r.disponibles
  {
    AsignarQueues(d, o, ws, now);
    AsignarStore(d, o, ws, now);
    AsignarAgents(d, o, ws, now);
    AsignarWf(d, o, ws, now);
    r := MarcarAsignados(d, o, ws, now);
    r := CountTour(r);
    tour := Tour(ws, rt, rt.totalDistance, SumVol(ws), |ws|);
  }

}
