/**
 The warehouse entities: SKUs, work orders and their derived properties,
 the SKU catalogue, the per-work-area capacity table and quantity capping,
 the event log and the completion counters.
 */
module Warehouse {
  import opened Wrappers
  import opened Seqs
  import opened Strs
  import opened Dicts
  import opened PyMath
  import opened Grid
  import opened SimConfig
  import opened Json

  datatype Sku = Sku(id: string, volumen: int, descripcion: string)

  datatype WorkOrder = WorkOrder(
    id: string,
    orderId: string,
    tourId: string,
    sku: Option<Sku>,
    cantidadInicial: int,
    cantidadRestante: int,
    ubicacion: Cell,
    workArea: string,
    pickSequence: int,
    status: string,
    assignedAgentId: Option<string>,
    tiempoInicio: Option<real>,
    tiempoFin: Option<real>)

  /** A new work order: pending, nothing picked, unassigned, untimed. */
  function NewWorkOrder(id: string, orderId: string, tourId: string, sku: Option<Sku>, cantidad: int,
                        ubicacion: Cell, workArea: string, pickSequence: int): (w: WorkOrder)
    ensures w.id == id && w.sku == sku && w.ubicacion == ubicacion && w.workArea == workArea
    ensures w.pickSequence == pickSequence
    ensures w.status == "pending"
    ensures w.cantidadInicial == cantidad && w.cantidadRestante == w.cantidadInicial
    ensures w.assignedAgentId.None? && w.tiempoInicio.None? && w.tiempoFin.None?
  {
    WorkOrder(id, orderId, tourId, sku, cantidad, cantidad, ubicacion, workArea, pickSequence,
              "pending", None, None, None)
  }

  /** `sku_id`: the SKU's id, or "N/A" without a SKU. */
  function SkuId(w: WorkOrder): (r: string)
    ensures w.sku.Some? ==> r == w.sku.value.id
    ensures w.sku.None? ==> r == "N/A"
  {
    if w.sku.Some? then w.sku.value.id else "N/A"
  }

  /** `volumen_restante`: remaining units times the unit volume, 0 without a SKU. */
  function VolumenRestante(w: WorkOrder): (v: int)
    ensures w.sku.None? ==> v == 0
    ensures w.sku.Some? && w.cantidadRestante >= 0 && w.sku.value.volumen >= 0 ==> v >= 0
    ensures w.sku.Some? && w.cantidadRestante == 0 ==> v == 0
  {
    if w.sku.Some? then w.cantidadRestante * w.sku.value.volumen else 0
  }

  /** `calcular_volumen_restante`: the same product, but an error without a SKU. */
  function CalcularVolumenRestante(w: WorkOrder): (r: Result<int>)
    ensures r.Ok? <==> w.sku.Some?
    ensures r.Ok? ==> r.value == VolumenRestante(w)
  {
    if w.sku.Some? then Ok(w.cantidadRestante * w.sku.value.volumen)
    else Err("'NoneType' object has no attribute 'volumen'")
  }

  /** `staging_id` is a placeholder: every work order uses staging 1. */
  function StagingId(w: WorkOrder): int
  {
    1
  }

  /** `work_group`: tested in the order Ground, Piso, Rack; WG_A otherwise. */
  function WorkGroup(area: string): (g: string)
    ensures g in {"WG_A", "WG_B", "WG_C"}
    ensures g == "WG_B" <==> !Contains(area, "Ground") && Contains(area, "Piso")
    ensures g == "WG_C" <==> !Contains(area, "Ground") && !Contains(area, "Piso") && Contains(area, "Rack")
    ensures Contains(area, "Ground") ==> g == "WG_A"
  {
    if Contains(area, "Ground") then "WG_A"
    else if Contains(area, "Piso") then "WG_B"
    else if Contains(area, "Rack") then "WG_C"
    else "WG_A"
  }

  // ---------------------------------------------------------------- configuration

  /** `total_ordenes`, default 300. */
  function TotalOrdenes(c: Configuration): (n: int)
    ensures c.totalOrdenes.None? ==> n == 300
    ensures c.totalOrdenes.Some? ==> n == c.totalOrdenes.value
  {
    c.totalOrdenes.GetOr(300)
  }

  /** `distribucion_tipos`, default pequeno 60%/5, mediano 30%/25, grande 10%/80. */
  function DistribucionTipos(c: Configuration): (d: Dict<string, TypeDist>)
    ensures c.distribucion.Some? ==> d == c.distribucion.value
    ensures c.distribucion.None? ==> d.keys == ["pequeno", "mediano", "grande"]
    ensures c.distribucion.None? ==> d.vals == map["pequeno" := TypeDist(60, 5), "mediano" := TypeDist(30, 25), "grande" := TypeDist(10, 80)]
  {
    if c.distribucion.Some? then c.distribucion.value
    else Set(Set(Set(Empty(), "pequeno", TypeDist(60, 5)), "mediano", TypeDist(30, 25)), "grande", TypeDist(10, 80))
  }

  /** The areas an agent entry lists (`work_area_priorities`, default `{}`). */
  function EntryAreas(a: AgentEntry): set<string>
  {
    if a.priorities.Some? then a.priorities.value.vals.Keys else {}
  }

  /** One agent's pass of the capacity loop: each listed area keeps the larger of its value (0 if unset) and the capacity. */
  function AddAgentCapacity(caps: map<string, int>, capacity: int, areas: set<string>): (r: map<string, int>)
    ensures r.Keys == caps.Keys + areas
    ensures forall a :: a in areas ==> r[a] >= capacity && r[a] >= (if a in caps then caps[a] else 0)
    ensures forall a :: a in caps && a !in areas ==> r[a] == caps[a]
    ensures forall a :: a in caps ==> r[a] >= caps[a]
    ensures forall a :: a in areas ==> r[a] == capacity || r[a] == (if a in caps then caps[a] else 0)
  {
    map a | a in caps.Keys + areas :: if a in areas then Max(if a in caps then caps[a] else 0, capacity) else caps[a]
  }

  /** The capacity table after the first `n` agent entries. */
  function CapacitiesUpTo(agents: seq<AgentEntry>, n: nat): (caps: map<string, int>)
    requires n <= |agents|
    ensures forall a :: a in caps ==> caps[a] >= 0
  {
    if n == 0 then map[]
    else AddAgentCapacity(CapacitiesUpTo(agents, n - 1), agents[n - 1].capacity.GetOr(0), EntryAreas(agents[n - 1]))
  }

  /**
   `operator_capacities`: for every work area listed by some agent, the
   largest capacity among the agents listing it (missing capacities read 0,
   and the table never holds a value below 0).
   */
  function OperatorCapacities(c: Configuration): (caps: map<string, int>)
  {
    var agents := c.agentTypes.GetOr([]);
    CapacitiesUpTo(agents, |agents|)
  }

  lemma {:induction false} CapacitiesBound(agents: seq<AgentEntry>, n: nat, i: nat, area: string)
    requires i < n <= |agents|
    requires area in EntryAreas(agents[i])
    ensures area in CapacitiesUpTo(agents, n)
    ensures CapacitiesUpTo(agents, n)[area] >= agents[i].capacity.GetOr(0)
    ensures CapacitiesUpTo(agents, n)[area] >= 0
    decreases n
  {
    if i < n - 1 {
      CapacitiesBound(agents, n - 1, i, area);
    }
  }

  lemma {:induction false} CapacitiesAttained(agents: seq<AgentEntry>, n: nat, area: string)
    requires n <= |agents|
    requires area in CapacitiesUpTo(agents, n)
    ensures CapacitiesUpTo(agents, n)[area] == 0
         || exists i :: 0 <= i < n && area in EntryAreas(agents[i]) && CapacitiesUpTo(agents, n)[area] == agents[i].capacity.GetOr(0)
    ensures exists i :: 0 <= i < n && area in EntryAreas(agents[i])
    decreases n
  {
    var prev := CapacitiesUpTo(agents, n - 1);
    if area in prev {
      CapacitiesAttained(agents, n - 1, area);
    }
  }

  /** The capacity table is exactly the per-area maximum over the agents listing that area, floored at 0. */
  lemma OperatorCapacitiesIsMax(c: Configuration, area: string)
    ensures var agents := c.agentTypes.GetOr([]);
            var caps := OperatorCapacities(c);
            (area in caps <==> exists i :: 0 <= i < |agents| && area in EntryAreas(agents[i]))
            && (area in caps ==>
                  caps[area] >= 0
                  && (forall i :: 0 <= i < |agents| && area in EntryAreas(agents[i]) ==> caps[area] >= agents[i].capacity.GetOr(0))
                  && (caps[area] == 0 || exists i :: 0 <= i < |agents| && area in EntryAreas(agents[i]) && caps[area] == agents[i].capacity.GetOr(0)))
  {
    var agents := c.agentTypes.GetOr([]);
    if exists i :: 0 <= i < |agents| && area in EntryAreas(agents[i]) {
      var i :| 0 <= i < |agents| && area in EntryAreas(agents[i]);
      CapacitiesBound(agents, |agents|, i, area);
    }
    if area in OperatorCapacities(c) {
      CapacitiesAttained(agents, |agents|, area);
      forall i | 0 <= i < |agents| && area in EntryAreas(agents[i])
        ensures OperatorCapacities(c)[area] >= agents[i].capacity.GetOr(0)
      {
        CapacitiesBound(agents, |agents|, i, area);
      }
    }
  }

  function MaxOf(xs: seq<int>): (m: int)
    requires |xs| > 0
    ensures forall i :: 0 <= i < |xs| ==> xs[i] <= m
    ensures exists i :: 0 <= i < |xs| && xs[i] == m
  {
    if |xs| == 1 then xs[0]
    else
      var m := MaxOf(xs[1..]);
      assert forall i :: 1 <= i < |xs| ==> xs[i] == xs[1..][i - 1];
      if xs[0] >= m then xs[0] else m
  }

  /** `max_operator_capacity`: the largest agent capacity (missing reads 0), or 150 with no agents. */
  function MaxOperatorCapacity(c: Configuration): (m: int)
    ensures c.agentTypes.GetOr([]) == [] ==> m == 150
    ensures forall i :: 0 <= i < |c.agentTypes.GetOr([])| ==> c.agentTypes.GetOr([])[i].capacity.GetOr(0) <= m
    ensures c.agentTypes.GetOr([]) != [] ==>
              exists i :: 0 <= i < |c.agentTypes.GetOr([])| && c.agentTypes.GetOr([])[i].capacity.GetOr(0) == m
  {
    var agents := c.agentTypes.GetOr([]);
    if |agents| == 0 then 150
    else
      var caps := seq(|agents|, i requires 0 <= i < |agents| => agents[i].capacity.GetOr(0));
      assert forall i :: 0 <= i < |agents| ==> caps[i] == agents[i].capacity.GetOr(0);
      MaxOf(caps)
  }

  /**
   `_validar_y_ajustar_cantidad`: keep the quantity when its volume fits the
   area's capacity (the global maximum for an unlisted area); otherwise the
   most units that fit, but never fewer than one. A zero unit volume with a
   negative capacity divides by zero.
   */
  function AjustarCantidad(volumen: int, cantidad: int, area: string,
                           caps: map<string, int>, maxCapacity: int): (r: Result<int>)
    ensures var cap := if area in caps then caps[area] else maxCapacity;
            && (volumen * cantidad <= cap ==> r == Ok(cantidad))
            && (volumen * cantidad > cap && volumen != 0 ==> r.Ok? && r.value >= 1)
            && (volumen * cantidad > cap && volumen > 0 && cap >= volumen ==> r.Ok? && volumen * r.value <= cap)
            && (volumen * cantidad > cap && volumen > 0 && cantidad >= 1 ==> r.Ok? && r.value <= cantidad)
            && (volumen * cantidad > cap && volumen > 0 && cap < volumen ==> r == Ok(1))
            && (r.Err? <==> volumen * cantidad > cap && volumen == 0)
  {
    var cap := if area in caps then caps[area] else maxCapacity;
    if volumen * cantidad > cap then
      if volumen == 0 then Err("integer division or modulo by zero")
      else Ok(Max(1, FloorDiv(cap, volumen)))
    else Ok(cantidad)
  }

  /** The adjusted quantity never drops below 1 when the request was at least 1. */
  lemma AjustarAtLeastOne(volumen: int, cantidad: int, area: string, caps: map<string, int>, maxCapacity: int)
    requires cantidad >= 1
    ensures var r := AjustarCantidad(volumen, cantidad, area, caps, maxCapacity);
            r.Ok? ==> r.value >= 1
  {
  }

  // ---------------------------------------------------------------- catalogue

  /** `f"SKU-{tipo[:3].upper()}-{counter:03d}"` */
  function CatalogSkuId(tipo: string, counter: nat): string
  {
    "SKU-" + Upper(PyTake(tipo, 3)) + "-" + ZeroPad(counter, 3)
  }

  lemma DashDigitsInjective(x: string, y: string, a: string, b: string)
    requires forall i :: 0 <= i < |a| ==> IsDigit(a[i])
    requires forall i :: 0 <= i < |b| ==> IsDigit(b[i])
    requires a != b
    ensures x + "-" + a != y + "-" + b
  {
    var s, t := x + "-" + a, y + "-" + b;
    if |a| == |b| {
      assert s[|s| - |a|..] == a;
      assert t[|t| - |b|..] == b;
    } else if |a| < |b| {
      assert s[|s| - |a| - 1] == '-';
      assert t[|t| - |a| - 1] == b[|b| - |a| - 1];
    } else {
      assert t[|t| - |b| - 1] == '-';
      assert s[|s| - |b| - 1] == a[|a| - |b| - 1];
    }
  }

  /** Distinct counters give distinct SKU ids, whatever the type names. */
  lemma CatalogSkuIdInjective(t1: string, c1: nat, t2: string, c2: nat)
    requires c1 != c2
    ensures CatalogSkuId(t1, c1) != CatalogSkuId(t2, c2)
  {
    ZeroPadRoundTrip(c1, 3);
    ZeroPadRoundTrip(c2, 3);
    DashDigitsInjective("SKU-" + Upper(PyTake(t1, 3)), "SKU-" + Upper(PyTake(t2, 3)), ZeroPad(c1, 3), ZeroPad(c2, 3));
    assert CatalogSkuId(t1, c1) == ("SKU-" + Upper(PyTake(t1, 3))) + "-" + ZeroPad(c1, 3);
    assert CatalogSkuId(t2, c2) == ("SKU-" + Upper(PyTake(t2, 3))) + "-" + ZeroPad(c2, 3);
  }

  /** `s` is the catalogue SKU number `n` of some configured order type. */
  predicate MadeFrom(types: Dict<string, TypeDist>, s: Sku, n: nat)
  {
    exists t :: t in types.vals && s.id == CatalogSkuId(t, n) && s.volumen == types.vals[t].volumen
  }

  /** The SKUs created for the types from position `k` on, numbering from `counter`. */
  function CatalogSkus(types: Dict<string, TypeDist>, k: nat, counter: nat): (skus: seq<Sku>)
    requires k <= |types.keys|
    ensures |skus| == 5 * (|types.keys| - k)
    ensures forall j :: 0 <= j < |skus| ==> MadeFrom(types, skus[j], counter + j)
    decreases |types.keys| - k
  {
    if k == |types.keys| then []
    else
      HasIffKey(types, types.keys[k]);
      MadeFromConcat(types, TypeSkus(types, types.keys[k], counter), CatalogSkus(types, k + 1, counter + 5), counter);
      TypeSkus(types, types.keys[k], counter) + CatalogSkus(types, k + 1, counter + 5)
  }

  /** The five SKUs of one order type, `Producto <type> #1` to `#5`, numbered from `counter`. */
  function TypeSkus(types: Dict<string, TypeDist>, tipo: string, counter: nat): (skus: seq<Sku>)
    requires tipo in types.vals
    ensures |skus| == 5
    ensures forall i :: 0 <= i < 5 ==> MadeFrom(types, skus[i], counter + i)
  {
    var v := types.vals[tipo].volumen;
    var these := seq(5, i requires 0 <= i < 5 => Sku(CatalogSkuId(tipo, counter + i), v, "Producto " + tipo + " #" + NatToStr(i + 1)));
    assert forall i :: 0 <= i < 5 ==> these[i].id == CatalogSkuId(tipo, counter + i) && these[i].volumen == v;
    these
  }

  lemma MadeFromConcat(types: Dict<string, TypeDist>, a: seq<Sku>, b: seq<Sku>, counter: nat)
    requires forall i :: 0 <= i < |a| ==> MadeFrom(types, a[i], counter + i)
    requires forall i :: 0 <= i < |b| ==> MadeFrom(types, b[i], counter + |a| + i)
    ensures forall j :: 0 <= j < |a + b| ==> MadeFrom(types, (a + b)[j], counter + j)
  {
    forall j | 0 <= j < |a + b| ensures MadeFrom(types, (a + b)[j], counter + j) {
      if j >= |a| {
        assert (a + b)[j] == b[j - |a|];
      }
    }
  }

  /** The SKU ids of a sequence of SKUs. */
  function SkuIds(skus: seq<Sku>): (ids: seq<string>)
    ensures |ids| == |skus| && forall j :: 0 <= j < |skus| ==> ids[j] == skus[j].id
  {
    seq(|skus|, j requires 0 <= j < |skus| => skus[j].id)
  }

  lemma CatalogIdsDistinct(types: Dict<string, TypeDist>, skus: seq<Sku>)
    requires forall j :: 0 <= j < |skus| ==> MadeFrom(types, skus[j], j + 1)
    ensures NoDup(SkuIds(skus))
  {
    var ids := SkuIds(skus);
    forall i, j | 0 <= i < j < |ids| ensures ids[i] != ids[j] {
      SkuIdsDiffer(types, skus[i], i + 1, skus[j], j + 1);
    }
  }

  /** SKUs made at different positions have different ids. */
  lemma SkuIdsDiffer(types: Dict<string, TypeDist>, a: Sku, i: nat, b: Sku, j: nat)
    requires MadeFrom(types, a, i) && MadeFrom(types, b, j) && i != j
    ensures a.id != b.id
  {
    var t1 :| t1 in types.vals && a.id == CatalogSkuId(t1, i);
    var t2 :| t2 in types.vals && b.id == CatalogSkuId(t2, j);
    CatalogSkuIdInjective(t1, i, t2, j);
  }

  /**
   `_crear_catalogo_y_stock`: five SKUs per order type, numbered from 1 in
   type order, each with the type's unit volume; every id is distinct, and
   every SKU gets a stock of 1000.
   */
  function CrearCatalogo(types: Dict<string, TypeDist>): (r: (seq<Sku>, map<string, int>))
    ensures |r.0| == 5 * |types.keys|
    ensures NoDup(SkuIds(r.0))
    ensures forall j :: 0 <= j < |r.0| ==> MadeFrom(types, r.0[j], j + 1)
    ensures forall j :: 0 <= j < |r.0| ==> r.0[j].id in r.1
    ensures forall id :: id in r.1 ==> id in SkuIds(r.0) && r.1[id] == 1000
  {
    var skus := CatalogSkus(types, 0, 1);
    CatalogIdsDistinct(types, skus);
    var ids := SkuIds(skus);
    (skus, map id | id in ids :: 1000)
  }

  // ---------------------------------------------------------------- event log and counters

  /** The warehouse's bookkeeping: the analytics log, the optional replay buffer and the two counters. */
  datatype Almacen = Almacen(
    eventLog: seq<Fields>,
    replayBuffer: Option<seq<Fields>>,
    workordersCompletadas: int,
    tareasCompletadas: int)

  /**
   `registrar_evento`: one log entry `{'timestamp': now, 'tipo': tipo, **datos}`
   and, when a replay buffer exists, one entry `{'type': tipo, 'timestamp': now, **datos}`.
   Keys in `datos` override the two stamped ones.
   */
  /** `{k1: v1, k2: v2, **datos}` */
  function Stamped(k1: string, v1: Value, k2: string, v2: Value, datos: Fields): (r: Fields)
    ensures r.vals == map[k1 := v1, k2 := v2] + datos.vals
  {
    Update(Set(Set(Empty(), k1, v1), k2, v2), datos)
  }

  function RegistrarEvento(w: Almacen, now: real, tipo: string, datos: Fields): (r: Almacen)
    ensures |r.eventLog| == |w.eventLog| + 1 && r.eventLog[..|w.eventLog|] == w.eventLog
    ensures r.eventLog[|w.eventLog|].vals == map["timestamp" := Num(now), "tipo" := Str(tipo)] + datos.vals
    ensures r.replayBuffer.Some? <==> w.replayBuffer.Some?
    ensures w.replayBuffer.Some? ==>
              |r.replayBuffer.value| == |w.replayBuffer.value| + 1
              && r.replayBuffer.value[..|w.replayBuffer.value|] == w.replayBuffer.value
              && r.replayBuffer.value[|w.replayBuffer.value|].vals == map["type" := Str(tipo), "timestamp" := Num(now)] + datos.vals
    ensures r.workordersCompletadas == w.workordersCompletadas && r.tareasCompletadas == w.tareasCompletadas
  {
    var evento := Stamped("timestamp", Num(now), "tipo", Str(tipo), datos);
    var log := w.eventLog + [evento];
    if w.replayBuffer.Some? then
      var replay := Stamped("type", Str(tipo), "timestamp", Num(now), datos);
      assert (w.replayBuffer.value + [replay])[..|w.replayBuffer.value|] == w.replayBuffer.value;
      Almacen(log, Some(w.replayBuffer.value + [replay]), w.workordersCompletadas, w.tareasCompletadas)
    else
      Almacen(log, None, w.workordersCompletadas, w.tareasCompletadas)
  }

  function IncrementarWorkorders(w: Almacen): (r: Almacen)
    ensures r.workordersCompletadas == w.workordersCompletadas + 1
    ensures r.tareasCompletadas == w.tareasCompletadas && r.eventLog == w.eventLog
  {
    w.(workordersCompletadas := w.workordersCompletadas + 1)
  }

  function IncrementarTareas(w: Almacen): (r: Almacen)
    ensures r.tareasCompletadas == w.tareasCompletadas + 1
    ensures r.workordersCompletadas == w.workordersCompletadas && r.eventLog == w.eventLog
  {
    w.(tareasCompletadas := w.tareasCompletadas + 1)
  }
}
