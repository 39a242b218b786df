/**
 The dispatcher's candidate strategies: FIFO, the filter to the agent's
 best-priority work area, the choice of a tour's first work order, the
 capacity-bounded double sweep that fills a tour by pick sequence, the
 single-staging restriction of "Tour Simple", proximity, and the
 cost-ordered batch selection.
 */
module DispatchStrategies {
  import opened Wrappers
  import opened Seqs
  import opened Sorting
  import opened Grid
  import opened Operators
  import opened Warehouse
  import opened Assignment
  import opened Routing

  // ---------------------------------------------------------------- volumes

  /** The summed remaining volume of a batch of work orders. */
  function SumVol(ws: seq<WorkOrder>): int
  {
    if |ws| == 0 then 0 else SumVol(ws[..|ws| - 1]) + VolumenRestante(ws[|ws| - 1])
  }

  lemma SumVolSnoc(ws: seq<WorkOrder>, w: WorkOrder)
    ensures SumVol(ws + [w]) == SumVol(ws) + VolumenRestante(w)
  {
    assert (ws + [w])[..|ws|] == ws;
  }

  /** `operator.can_handle_work_area(wo.work_area)` as a filter predicate. */
  function Compatible(o: Operator): WorkOrder -> bool
  {
    (w: WorkOrder) => CanHandle(o, w.workArea)
  }

  lemma CompatibleMembers(o: Operator, pending: seq<WorkOrder>)
    ensures var c := Filter(pending, Compatible(o));
            forall i :: 0 <= i < |c| ==> c[i] in pending && CanHandle(o, c[i].workArea)
  {
    FilterMembers(pending, Compatible(o));
  }

  // ---------------------------------------------------------------- FIFO

  /**
   `_estrategia_fifo`: of the first `max_wos_por_tour` compatible pending
   work orders, the prefix taken while the running volume fits the agent's
   capacity, stopping at the first one that does not fit.
   */
  method Fifo(o: Operator, pending: seq<WorkOrder>, maxWos: int) returns (r: seq<WorkOrder>)
    ensures FifoResult(o, pending, maxWos, r)
    ensures forall i :: 0 <= i < |r| ==> r[i] in pending && CanHandle(o, r[i].workArea)
  {
    var ws := PyTake(Filter(pending, Compatible(o)), maxWos);
    var n := FittingPrefix(ws, o.capacity);
    r := ws[..n];
    FifoMembers(o, pending, maxWos, r);
  }

  /** The length of the longest prefix whose running volume stays within `capacity`. */
  method FittingPrefix(ws: seq<WorkOrder>, capacity: int) returns (n: nat)
    ensures n <= |ws|
    ensures forall k :: 0 < k <= n ==> SumVol(ws[..k]) <= capacity
    ensures n < |ws| ==> SumVol(ws[..n + 1]) > capacity
  {
    var vol := 0;
    n := 0;
    while n < |ws|
      invariant n <= |ws| && vol == SumVol(ws[..n])
      invariant forall k :: 0 < k <= n ==> SumVol(ws[..k]) <= capacity
    {
      assert ws[..n + 1] == ws[..n] + [ws[n]];
      SumVolSnoc(ws[..n], ws[n]);
      if vol + VolumenRestante(ws[n]) > capacity {
        return;
      }
      vol := vol + VolumenRestante(ws[n]);
      n := n + 1;
    }
  }

  /** A FIFO pick is a run of compatible pending work orders. */
  lemma FifoMembers(o: Operator, pending: seq<WorkOrder>, maxWos: int, r: seq<WorkOrder>)
    requires FifoResult(o, pending, maxWos, r)
    ensures forall i :: 0 <= i < |r| ==> r[i] in pending && CanHandle(o, r[i].workArea)
  {
    CompatibleMembers(o, pending);
    forall i | 0 <= i < |r| ensures r[i] in pending && CanHandle(o, r[i].workArea) {
      assert r[i] == Filter(pending, Compatible(o))[i];
    }
  }

  // ---------------------------------------------------------------- best-priority area

  /** The best (smallest) priority the agent gives to any candidate's area. */
  function MinPriority(o: Operator, cands: seq<WorkOrder>): (p: int)
    requires |cands| > 0
    ensures exists i :: 0 <= i < |cands| && p == PriorityFor(o, cands[i].workArea)
    ensures forall i :: 0 <= i < |cands| ==> p <= PriorityFor(o, cands[i].workArea)
  {
    if |cands| == 1 then PriorityFor(o, cands[0].workArea)
    else
      var rest := MinPriority(o, cands[1..]);
      assert forall i :: 1 <= i < |cands| ==> cands[i] == cands[1..][i - 1];
      Min(PriorityFor(o, cands[0].workArea), rest)
  }

  /** A candidate whose area has the best priority among all candidates' areas. */
  function InBestArea(o: Operator, cands: seq<WorkOrder>): WorkOrder -> bool
  {
    (w: WorkOrder) => forall i :: 0 <= i < |cands| ==> PriorityFor(o, w.workArea) <= PriorityFor(o, cands[i].workArea)
  }

  /**
   `_filtrar_por_area_prioridad`: nothing for no candidates; otherwise, in
   order, exactly the candidates whose area priority is the minimum present,
   of which there is at least one.
   */
  function FiltrarPorAreaPrioridad(o: Operator, cands: seq<WorkOrder>): (r: seq<WorkOrder>)
    ensures |cands| == 0 ==> r == []
    ensures r == Filter(cands, InBestArea(o, cands))
    ensures |cands| > 0 ==> |r| > 0
  {
    if |cands| == 0 then []
    else
      var best := MinPriority(o, cands);
      var p := (w: WorkOrder) => PriorityFor(o, w.workArea) == best;
      FilterCongruent(cands, p, InBestArea(o, cands));
      var k :| 0 <= k < |cands| && best == PriorityFor(o, cands[k].workArea);
      FilterMembers(cands, p);
      assert cands[k] in Filter(cands, p);
      Filter(cands, p)
  }

  // ---------------------------------------------------------------- the first work order

  /** `min(candidatos, key=lambda wo: wo.pick_sequence)`: the first of the smallest pick sequences. */
  function MinBySequence(ws: seq<WorkOrder>): (k: nat)
    requires |ws| > 0
    ensures k < |ws|
    ensures forall j :: 0 <= j < |ws| ==> ws[k].pickSequence <= ws[j].pickSequence
    ensures forall j :: 0 <= j < k ==> ws[j].pickSequence > ws[k].pickSequence
  {
    if |ws| == 1 then 0
    else
      var k := MinBySequence(ws[..|ws| - 1]);
      if ws[|ws| - 1].pickSequence < ws[k].pickSequence then |ws| - 1 else k
  }

  /** Where the agent starts: its position, else staging location 1, else the default depot. */
  function StartCell(o: Operator, staging1: Option<Cell>, depot: Cell): (c: Cell)
    ensures o.position.Some? ==> c == o.position.value
    ensures o.position.None? && staging1.Some? ==> c == staging1.value
    ensures o.position.None? && staging1.None? ==> c == depot
  {
    if o.position.Some? then o.position.value
    else if staging1.Some? then staging1.value
    else depot
  }

  /** The default depot when neither the agent nor staging 1 gives a position. */
  const DefaultDepot: Cell := Cell(3, 29)

  /** The assignment cost of one work order for this agent from `pos`. */
  function CostOf(route: Router, o: Operator, pos: Cell, w: WorkOrder): real
  {
    CalculateCost(route, Agent(o, None, false, None), w, Some(pos)).totalCost
  }

  /** Ordering by assignment cost; sorting the `(wo, cost)` pairs by cost orders the work orders the same way. */
  function ByCost(route: Router, o: Operator, pos: Cell): (WorkOrder, WorkOrder) -> bool
  {
    (a: WorkOrder, b: WorkOrder) => CostOf(route, o, pos, a) <= CostOf(route, o, pos, b)
  }

  /** `costos.sort(key=total_cost)`: the candidates stably sorted by cost. */
  function SortedByCost(route: Router, o: Operator, pos: Cell, ws: seq<WorkOrder>): seq<WorkOrder>
  {
    Sort(ws, ByCost(route, o, pos))
  }

  lemma SortedByCostSpec(route: Router, o: Operator, pos: Cell, ws: seq<WorkOrder>)
    ensures var s := SortedByCost(route, o, pos, ws);
            && multiset(s) == multiset(ws)
            && (forall i, j :: 0 <= i < j < |s| ==> CostOf(route, o, pos, s[i]) <= CostOf(route, o, pos, s[j]))
  {
    SortPerm(ws, ByCost(route, o, pos));
    SortSorted(ws, ByCost(route, o, pos));
  }

  /** The index of the first work order that fits `cap`, or `|s|`. */
  function FirstFitting(s: seq<WorkOrder>, cap: int): (k: nat)
    ensures k <= |s|
    ensures k < |s| ==> VolumenRestante(s[k]) <= cap
    ensures forall j :: 0 <= j < k ==> VolumenRestante(s[j]) > cap
  {
    if |s| == 0 then 0
    else if VolumenRestante(s[0]) <= cap then 0
    else 1 + FirstFitting(s[1..], cap)
  }

  /** In a list ascending by `c`, the first order that fits is the cheapest that fits, and the head the cheapest overall. */
  lemma FirstFittingCheapest(s: seq<WorkOrder>, cap: int, c: WorkOrder -> real)
    requires |s| > 0
    requires forall i, j :: 0 <= i < j < |s| ==> c(s[i]) <= c(s[j])
    ensures var k := FirstFitting(s, cap);
            && (k < |s| ==> forall j :: 0 <= j < |s| && VolumenRestante(s[j]) <= cap ==> c(s[k]) <= c(s[j]))
            && (k == |s| ==> forall j :: 0 <= j < |s| ==> VolumenRestante(s[j]) > cap)
            && (forall j :: 0 <= j < |s| ==> c(s[0]) <= c(s[j]))
  {
  }

  /**
   `_encontrar_mejor_primera_wo`: `None` without candidates; otherwise the
   cheapest candidate that fits the agent's capacity, or the cheapest of
   all when none fits on its own.
   */
  function EncontrarMejorPrimeraWo(route: Router, o: Operator, staging1: Option<Cell>, cands: seq<WorkOrder>)
    : (r: Option<WorkOrder>)
    ensures r.None? <==> |cands| == 0
    ensures r.Some? ==> r.value in cands
    ensures var pos := StartCell(o, staging1, DefaultDepot);
            r.Some? && VolumenRestante(r.value) <= o.capacity ==>
              forall i :: 0 <= i < |cands| && VolumenRestante(cands[i]) <= o.capacity ==>
                CostOf(route, o, pos, r.value) <= CostOf(route, o, pos, cands[i])
    ensures var pos := StartCell(o, staging1, DefaultDepot);
            r.Some? && VolumenRestante(r.value) > o.capacity ==>
              forall i :: 0 <= i < |cands| ==>
                VolumenRestante(cands[i]) > o.capacity && CostOf(route, o, pos, r.value) <= CostOf(route, o, pos, cands[i])
  {
    if |cands| == 0 then None
    else
      var pos := StartCell(o, staging1, DefaultDepot);
      var c := (w: WorkOrder) => CostOf(route, o, pos, w);
      var s := SortedByCost(route, o, pos, cands);
      SortedByCostSpec(route, o, pos, cands);
      var k := FirstFitting(s, o.capacity);
      FirstFittingCheapest(s, o.capacity, c);
      assert forall i :: 0 <= i < |cands| ==> cands[i] in multiset(s);
      assert forall i :: 0 <= i < |s| ==> s[i] in multiset(cands);
      if k < |s| then Some(s[k]) else Some(s[0])
  }

  // ---------------------------------------------------------------- the double sweep

  /** The tour under construction: its work orders, their volume, and the last pick sequence added by a first sweep. */
  datatype TourAcc = TourAcc(tour: seq<WorkOrder>, vol: int, ultimo: int)

  /**
   First sweep over an area's orders sorted by pick sequence: skip those
   before `minSeq`, add each later one that still fits, and stop once the
   tour is full by count or by volume.
   */
  function Sweep1(acc: TourAcc, ws: seq<WorkOrder>, minSeq: int, cap: int, maxWos: int): (r: TourAcc)
    requires acc.vol == SumVol(acc.tour)
    ensures r.vol == SumVol(r.tour) && acc.tour <= r.tour
    ensures forall i :: |acc.tour| <= i < |r.tour| ==> r.tour[i] in ws && r.tour[i].pickSequence >= minSeq
    ensures acc.vol <= cap ==> r.vol <= cap
    ensures |r.tour| <= Max(|acc.tour|, maxWos)
    ensures NoDup(acc.tour + ws) ==> NoDup(r.tour)
    decreases |ws|
  {
    if |ws| == 0 || |acc.tour| >= maxWos || acc.vol >= cap then
      NoDupParts(acc.tour, ws);
      acc
    else
      var w := ws[0];
      assert acc.tour + ws == acc.tour + [w] + ws[1..];
      if w.pickSequence < minSeq || acc.vol + VolumenRestante(w) > cap then
        NoDupSkip(acc.tour, ws);
        Sweep1(acc, ws[1..], minSeq, cap, maxWos)
      else
        SumVolSnoc(acc.tour, w);
        Sweep1(TourAcc(acc.tour + [w], acc.vol + VolumenRestante(w), w.pickSequence), ws[1..], minSeq, cap, maxWos)
  }

  /**
   Second sweep, filling gaps behind the first: only orders before
   `minSeq` not yet in the tour, each added when it fits, with the same
   stopping rule; the last added sequence is left alone.
   */
  function Sweep2(acc: TourAcc, ws: seq<WorkOrder>, minSeq: int, cap: int, maxWos: int): (r: TourAcc)
    requires acc.vol == SumVol(acc.tour)
    ensures r.vol == SumVol(r.tour) && acc.tour <= r.tour && r.ultimo == acc.ultimo
    ensures forall i :: |acc.tour| <= i < |r.tour| ==> r.tour[i] in ws && r.tour[i].pickSequence < minSeq
    ensures acc.vol <= cap ==> r.vol <= cap
    ensures |r.tour| <= Max(|acc.tour|, maxWos)
    ensures NoDup(acc.tour) ==> NoDup(r.tour)
    decreases |ws|
  {
    if |ws| == 0 || |acc.tour| >= maxWos || acc.vol >= cap then acc
    else
      var w := ws[0];
      if w.pickSequence >= minSeq || w in acc.tour || acc.vol + VolumenRestante(w) > cap then
        Sweep2(acc, ws[1..], minSeq, cap, maxWos)
      else
        SumVolSnoc(acc.tour, w);
        NoDupSnoc(acc.tour, w);
        Sweep2(TourAcc(acc.tour + [w], acc.vol + VolumenRestante(w), acc.ultimo), ws[1..], minSeq, cap, maxWos)
  }

  /** The agent's compatible areas among the candidates, in first-occurrence order (the keys of `areas_presentes`). */
  function PresentAreas(o: Operator, cands: seq<WorkOrder>): (keys: seq<string>)
    ensures NoDup(keys)
    ensures forall a :: a in keys <==> exists i :: 0 <= i < |cands| && cands[i].workArea == a && PriorityFor(o, a) != 999
    decreases |cands|
  {
    if |cands| == 0 then []
    else
      var prev := PresentAreas(o, cands[..|cands| - 1]);
      var a := cands[|cands| - 1].workArea;
      assert forall i :: 0 <= i < |cands| - 1 ==> cands[..|cands| - 1][i] == cands[i];
      if a in prev || PriorityFor(o, a) == 999 then prev
      else
        NoDupSnoc(prev, a);
        prev + [a]
  }

  function ByPriority(o: Operator): (string, string) -> bool
  {
    (a: string, b: string) => PriorityFor(o, a) <= PriorityFor(o, b)
  }

  /** Every area but `area`. */
  function OtherThan(area: string): string -> bool
  {
    (a: string) => a != area
  }

  /** The present areas other than the first order's, stably sorted by priority (`otras_areas`). */
  function OtherAreas(o: Operator, primera: WorkOrder, cands: seq<WorkOrder>): seq<string>
  {
    Sort(Filter(PresentAreas(o, cands), OtherThan(primera.workArea)), ByPriority(o))
  }

  lemma OtherAreasSpec(o: Operator, primera: WorkOrder, cands: seq<WorkOrder>)
    ensures var others := OtherAreas(o, primera, cands);
            && NoDup(others)
            && (forall a :: a in others <==>
                  (a != primera.workArea && exists i :: 0 <= i < |cands| && cands[i].workArea == a && PriorityFor(o, a) != 999))
            && (forall i, j :: 0 <= i < j < |others| ==> PriorityFor(o, others[i]) <= PriorityFor(o, others[j]))
  {
    OtherAreasMembers(o, primera, cands);
    SortSorted(Filter(PresentAreas(o, cands), OtherThan(primera.workArea)), ByPriority(o));
  }

  /** The sorted areas are the filtered present areas, once each. */
  lemma OtherAreasMembers(o: Operator, primera: WorkOrder, cands: seq<WorkOrder>)
    ensures NoDup(OtherAreas(o, primera, cands))
    ensures forall a :: a in OtherAreas(o, primera, cands) <==> a in PresentAreas(o, cands) && a != primera.workArea
  {
    var keys := PresentAreas(o, cands);
    var f := Filter(keys, OtherThan(primera.workArea));
    var sorted := Sort(f, ByPriority(o));
    FilterMembers(keys, OtherThan(primera.workArea));
    FilterNoDup(keys, OtherThan(primera.workArea));
    SortPerm(f, ByPriority(o));
    SubMultisetNoDup(f, sorted);
    forall a ensures a in sorted <==> a in keys && a != primera.workArea {
      assert a in sorted <==> a in multiset(sorted);
      assert a in f <==> a in multiset(f);
      if a in keys && a != primera.workArea {
        var i :| 0 <= i < |keys| && keys[i] == a;
      }
    }
  }

  /** `ordered_areas`: the first work order's area, then the others by priority. */
  function OrderedAreas(o: Operator, primera: WorkOrder, cands: seq<WorkOrder>): seq<string>
  {
    [primera.workArea] + OtherAreas(o, primera, cands)
  }

  /**
   The area order of the tour builder: the first work order's area, then
   every other compatible candidate area exactly once, by ascending priority.
   */
  lemma OrderedAreasSpec(o: Operator, primera: WorkOrder, cands: seq<WorkOrder>)
    ensures var areas := OrderedAreas(o, primera, cands);
            && |areas| > 0 && areas[0] == primera.workArea
            && NoDup(areas)
            && (forall a :: a in areas[1..] <==>
                  (a != primera.workArea && exists i :: 0 <= i < |cands| && cands[i].workArea == a && PriorityFor(o, a) != 999))
            && (forall i, j :: 1 <= i < j < |areas| ==> PriorityFor(o, areas[i]) <= PriorityFor(o, areas[j]))
  {
    var others := OtherAreas(o, primera, cands);
    OtherAreasSpec(o, primera, cands);
    NoDupConcat([primera.workArea], others);
    assert OrderedAreas(o, primera, cands)[1..] == others;
  }

  /** The orders of `area` still unused, restricted to the first order's staging in "Tour Simple". */
  function AreaWos(cands: seq<WorkOrder>, area: string, tour: seq<WorkOrder>, simple: bool, staging: int): seq<WorkOrder>
  {
    Filter(cands, (w: WorkOrder) => w.workArea == area && w !in tour && (!simple || StagingId(w) == staging))
  }

  /** `area_wos_sorted` */
  function SortedAreaWos(cands: seq<WorkOrder>, area: string, tour: seq<WorkOrder>, simple: bool, staging: int): seq<WorkOrder>
  {
    Sort(AreaWos(cands, area, tour, simple, staging), BySequence())
  }

  lemma AreaWosSorted(cands: seq<WorkOrder>, area: string, tour: seq<WorkOrder>, simple: bool, staging: int)
    ensures var s := SortedAreaWos(cands, area, tour, simple, staging);
            && (forall i :: 0 <= i < |s| ==>
                  (s[i] in cands && s[i].workArea == area && s[i] !in tour && (simple ==> StagingId(s[i]) == staging)))
            && (NoDup(cands) && NoDup(tour) ==> NoDup(tour + s))
  {
    var p := (w: WorkOrder) => w.workArea == area && w !in tour && (!simple || StagingId(w) == staging);
    var f := AreaWos(cands, area, tour, simple, staging);
    var s := Sort(f, BySequence());
    FilterMembers(cands, p);
    SortPerm(f, BySequence());
    forall i | 0 <= i < |s|
      ensures s[i] in cands && s[i].workArea == area && s[i] !in tour && (simple ==> StagingId(s[i]) == staging)
    {
      assert s[i] in multiset(f);
      var k :| 0 <= k < |f| && f[k] == s[i];
    }
    if NoDup(cands) && NoDup(tour) {
      FilterNoDup(cands, p);
      SubMultisetNoDup(f, s);
      NoDupConcat(tour, s);
    }
  }

  /** What every step of the tour builder keeps of the tour. */
  predicate TourInv(acc: TourAcc, cands: seq<WorkOrder>, primera: WorkOrder, cap: int, simple: bool)
  {
    && |acc.tour| > 0 && acc.tour[0] == primera
    && acc.vol == SumVol(acc.tour) && acc.vol <= cap
    && (forall i :: 1 <= i < |acc.tour| ==> acc.tour[i] in cands)
    && (simple ==> forall i :: 0 <= i < |acc.tour| ==> StagingId(acc.tour[i]) == StagingId(primera))
  }

  /** Extending the tour with orders of `s`, each a candidate of the right staging, keeps the invariant. */
  lemma TourInvKept(acc: TourAcc, r: TourAcc, s: seq<WorkOrder>, cands: seq<WorkOrder>, primera: WorkOrder,
                    cap: int, simple: bool)
    requires TourInv(acc, cands, primera, cap, simple)
    requires acc.tour <= r.tour && r.vol == SumVol(r.tour) && r.vol <= cap
    requires forall i :: |acc.tour| <= i < |r.tour| ==> r.tour[i] in s
    requires forall i :: 0 <= i < |s| ==> s[i] in cands && (simple ==> StagingId(s[i]) == StagingId(primera))
    ensures TourInv(r, cands, primera, cap, simple)
  {
    forall i | |acc.tour| <= i < |r.tour|
      ensures r.tour[i] in cands && (simple ==> StagingId(r.tour[i]) == StagingId(primera))
    {
      var k :| 0 <= k < |s| && s[k] == r.tour[i];
    }
  }

  /** Both sweeps over one area's sorted unused orders. */
  function Sweeps(acc: TourAcc, s: seq<WorkOrder>, cap: int, maxWos: int): (r: TourAcc)
    requires acc.vol == SumVol(acc.tour) && acc.vol <= cap && |acc.tour| < maxWos
    ensures r.vol == SumVol(r.tour) && r.vol <= cap
    ensures acc.tour <= r.tour && |r.tour| <= maxWos
    ensures forall i :: |acc.tour| <= i < |r.tour| ==> r.tour[i] in s
    ensures NoDup(acc.tour + s) ==> NoDup(r.tour)
  {
    var minSeq := acc.ultimo;
    var a1 := Sweep1(acc, s, minSeq, cap, maxWos);
    if cap - a1.vol > 0 && |a1.tour| < maxWos then
      var a2 := Sweep2(a1, s, minSeq, cap, maxWos);
      assert forall i :: |acc.tour| <= i < |a1.tour| ==> a2.tour[i] == a1.tour[i];
      a2
    else a1
  }

  /** One area of the builder: both sweeps over its unused orders sorted by pick sequence. */
  function ProcessArea(acc: TourAcc, area: string, cands: seq<WorkOrder>, primera: WorkOrder,
                       cap: int, maxWos: int, simple: bool): (r: TourAcc)
    requires TourInv(acc, cands, primera, cap, simple) && |acc.tour| < maxWos
    ensures TourInv(r, cands, primera, cap, simple)
    ensures acc.tour <= r.tour && |r.tour| <= maxWos
    ensures forall i :: |acc.tour| <= i < |r.tour| ==> r.tour[i].workArea == area
    ensures NoDup(cands) && NoDup(acc.tour) ==> NoDup(r.tour)
  {
    var s := SortedAreaWos(cands, area, acc.tour, simple, StagingId(primera));
    AreaWosSorted(cands, area, acc.tour, simple, StagingId(primera));
    if |s| == 0 then acc
    else
      var r := Sweeps(acc, s, cap, maxWos);
      TourInvKept(acc, r, s, cands, primera, cap, simple);
      r
  }

  /** The loop over areas, stopping once the tour is full by count or by volume. */
  function ProcessAreas(acc: TourAcc, areas: seq<string>, cands: seq<WorkOrder>, primera: WorkOrder,
                        cap: int, maxWos: int, simple: bool): (r: TourAcc)
    requires TourInv(acc, cands, primera, cap, simple)
    ensures TourInv(r, cands, primera, cap, simple)
    ensures acc.tour <= r.tour && |r.tour| <= Max(|acc.tour|, maxWos)
    ensures forall i :: |acc.tour| <= i < |r.tour| ==> r.tour[i].workArea in areas
    ensures NoDup(cands) && NoDup(acc.tour) ==> NoDup(r.tour)
    decreases |areas|
  {
    if |areas| == 0 || |acc.tour| >= maxWos || acc.vol >= cap then acc
    else
      var a := ProcessArea(acc, areas[0], cands, primera, cap, maxWos, simple);
      var r := ProcessAreas(a, areas[1..], cands, primera, cap, maxWos, simple);
      AreasStep(acc.tour, a.tour, r.tour, areas);
      r
  }

  /** The orders added for the first area, then for the rest, all come from the areas. */
  lemma AreasStep(t0: seq<WorkOrder>, t1: seq<WorkOrder>, t2: seq<WorkOrder>, areas: seq<string>)
    requires |areas| > 0 && t0 <= t1 && t1 <= t2
    requires forall i :: |t0| <= i < |t1| ==> t1[i].workArea == areas[0]
    requires forall i :: |t1| <= i < |t2| ==> t2[i].workArea in areas[1..]
    ensures t0 <= t2
    ensures forall i :: |t0| <= i < |t2| ==> t2[i].workArea in areas
  {
    forall i | |t0| <= i < |t2| ensures t2[i].workArea in areas {
      if i < |t1| {
        assert t2[i] == t1[i];
      } else {
        assert t2[i].workArea in areas[1..];
      }
    }
  }

  /**
   `_construir_tour_por_secuencia`: nothing without candidates or when the
   first order alone exceeds the capacity; otherwise a tour that starts
   with the first order, adds only candidates of the agent's compatible
   areas, stays within capacity and `max(1, max_wos_por_tour)` orders, has
   no duplicates when the candidates have none, and in "Tour Simple" keeps
   to the first order's staging.
   */
  function ConstruirTourPorSecuencia(o: Operator, primera: WorkOrder, cands: seq<WorkOrder>,
                                     maxWos: int, simple: bool): (r: seq<WorkOrder>)
    ensures |cands| == 0 || VolumenRestante(primera) > o.capacity ==> r == []
    ensures |cands| > 0 && VolumenRestante(primera) <= o.capacity ==> |r| > 0 && r[0] == primera
    ensures r != [] ==> SumVol(r) <= o.capacity
    ensures |r| <= Max(1, maxWos)
    ensures forall i :: 1 <= i < |r| ==>
              (r[i] in cands && (r[i].workArea == primera.workArea || PriorityFor(o, r[i].workArea) != 999))
    ensures NoDup(cands) ==> NoDup(r)
    ensures simple ==> forall i :: 0 <= i < |r| ==> StagingId(r[i]) == StagingId(primera)
  {
    if |cands| == 0 || VolumenRestante(primera) > o.capacity then []
    else
      var start := TourAcc([primera], VolumenRestante(primera), primera.pickSequence);
      assert SumVol([primera]) == VolumenRestante(primera) by { SumVolSnoc([], primera); assert [] + [primera] == [primera]; }
      var areas := OrderedAreas(o, primera, cands);
      OrderedAreasSpec(o, primera, cands);
      var r := ProcessAreas(start, areas, cands, primera, o.capacity, maxWos, simple);
      forall i | 1 <= i < |r.tour|
        ensures r.tour[i].workArea == primera.workArea || PriorityFor(o, r.tour[i].workArea) != 999
      {
        var a := r.tour[i].workArea;
        if a != areas[0] {
          assert a in areas[1..];
        }
      }
      r.tour
  }

  // ---------------------------------------------------------------- staging

  /** The work orders of one staging location, in order. */
  function Group(ws: seq<WorkOrder>, sid: int): seq<WorkOrder>
  {
    Filter(ws, (w: WorkOrder) => StagingId(w) == sid)
  }

  lemma GroupMembers(ws: seq<WorkOrder>, sid: int)
    ensures var g := Group(ws, sid);
            && (forall i :: 0 <= i < |g| ==> g[i] in ws && StagingId(g[i]) == sid)
            && (NoDup(ws) ==> NoDup(g))
  {
    FilterMembers(ws, (w: WorkOrder) => StagingId(w) == sid);
    if NoDup(ws) {
      FilterNoDup(ws, (w: WorkOrder) => StagingId(w) == sid);
    }
  }

  /** The staging ids present, in first-occurrence order (the keys of `staging_groups`). */
  function StagingIds(ws: seq<WorkOrder>): (ids: seq<int>)
    ensures forall sid :: sid in ids <==> exists i :: 0 <= i < |ws| && StagingId(ws[i]) == sid
    decreases |ws|
  {
    if |ws| == 0 then []
    else
      var prev := StagingIds(ws[..|ws| - 1]);
      var sid := StagingId(ws[|ws| - 1]);
      assert forall i :: 0 <= i < |ws| - 1 ==> ws[..|ws| - 1][i] == ws[i];
      if sid in prev then prev else prev + [sid]
  }

  /**
   The group scan: a group replaces the best so far when it fits `cap` and
   has strictly more volume. The result is the initial best or one of the
   scanned groups, and no scanned group that fits has more volume.
   */
  function BestGroup(ws: seq<WorkOrder>, sids: seq<int>, cap: int, best: seq<WorkOrder>, bestVol: int)
    : (r: (seq<WorkOrder>, int))
    ensures r.1 >= bestVol
    ensures (r.0 == best && r.1 == bestVol)
            || (r.1 > bestVol && exists k :: 0 <= k < |sids| && r.0 == Group(ws, sids[k]) && r.1 == SumVol(r.0) && r.1 <= cap)
    ensures forall k :: 0 <= k < |sids| && SumVol(Group(ws, sids[k])) <= cap ==> SumVol(Group(ws, sids[k])) <= r.1
    decreases |sids|
  {
    if |sids| == 0 then (best, bestVol)
    else
      var g := Group(ws, sids[0]);
      var v := SumVol(g);
      var r := if v <= cap && v > bestVol then BestGroup(ws, sids[1..], cap, g, v)
               else BestGroup(ws, sids[1..], cap, best, bestVol);
      assert forall k :: 1 <= k < |sids| ==> sids[k] == sids[1..][k - 1];
      r
  }

  /**
   The group `_filtrar_por_staging_unico` keeps before truncation: empty,
   or the whole group of one staging location whose positive volume fits
   the capacity, and at least as large as every other group that fits.
   */
  function ChooseStagingGroup(ws: seq<WorkOrder>, cap: int): (g: seq<WorkOrder>)
    ensures g == [] || (0 < SumVol(g) <= cap && g == Group(ws, StagingId(g[0])))
    ensures forall i :: 0 <= i < |ws| && SumVol(Group(ws, StagingId(ws[i]))) <= cap ==>
              SumVol(Group(ws, StagingId(ws[i]))) <= SumVol(g)
  {
    var sids := StagingIds(ws);
    var r := BestGroup(ws, sids, cap, [], 0);
    forall i | 0 <= i < |ws| ensures exists k :: 0 <= k < |sids| && sids[k] == StagingId(ws[i]) {
      assert StagingId(ws[i]) in sids;
    }
    assert r.0 == [] || (0 < SumVol(r.0) <= cap && r.0 == Group(ws, StagingId(r.0[0]))) by {
      if r.0 != [] {
        var k :| 0 <= k < |sids| && r.0 == Group(ws, sids[k]) && r.1 == SumVol(r.0) && r.1 <= cap;
        GroupMembers(ws, sids[k]);
      }
    }
    assert r.0 == [] ==> SumVol(r.0) == 0;
    r.0
  }

  lemma GroupFacts(ws: seq<WorkOrder>, g: seq<WorkOrder>)
    requires g == [] || g == Group(ws, StagingId(g[0]))
    ensures forall i :: 0 <= i < |g| ==> g[i] in ws && StagingId(g[i]) == StagingId(g[0])
    ensures NoDup(ws) ==> NoDup(g)
  {
    if g != [] {
      GroupMembers(ws, StagingId(g[0]));
    }
  }

  /** `_filtrar_por_staging_unico`: the chosen group cut to `max_wos_por_tour`. */
  function FiltrarPorStagingUnico(o: Operator, ws: seq<WorkOrder>, maxWos: int): (r: seq<WorkOrder>)
    ensures |ws| == 0 ==> r == []
    ensures r == PyTake(ChooseStagingGroup(ws, o.capacity), maxWos)
    ensures forall i :: 0 <= i < |r| ==> r[i] in ws && StagingId(r[i]) == StagingId(r[0])
    ensures NoDup(ws) ==> NoDup(r)
  {
    var g := ChooseStagingGroup(ws, o.capacity);
    GroupFacts(ws, g);
    PyTakeFacts(g, maxWos);
    PyTake(g, maxWos)
  }

  /** All work orders share one staging location. */
  predicate SingleStaging(ws: seq<WorkOrder>)
  {
    forall i, j :: 0 <= i < |ws| && 0 <= j < |ws| ==> StagingId(ws[i]) == StagingId(ws[j])
  }

  /** `_validar_tour_simple`: the input when it is non-empty with one staging location, else nothing. */
  function ValidarTourSimple(ws: seq<WorkOrder>): (r: seq<WorkOrder>)
    ensures |ws| > 0 && SingleStaging(ws) ==> r == ws
    ensures |ws| == 0 || !SingleStaging(ws) ==> r == []
  {
    if |ws| == 0 then []
    else if exists i :: 0 <= i < |ws| && StagingId(ws[i]) != StagingId(ws[0]) then []
    else ws
  }

  // ---------------------------------------------------------------- proximity

  /** `sqrt(dx**2 + dy**2) <= radio`, stated without the square root. */
  predicate WithinRadius(radio: real, a: Cell, b: Cell)
  {
    radio >= 0.0 && Dist2(a, b) as real <= radio * radio
  }

  function Near(o: Operator, pos: Cell, radio: real): WorkOrder -> bool
  {
    (w: WorkOrder) => CanHandle(o, w.workArea) && WithinRadius(radio, pos, w.ubicacion)
  }

  /** What FIFO returns (the contract of `Fifo`, reused by the proximity fallback). */
  predicate FifoResult(o: Operator, pending: seq<WorkOrder>, maxWos: int, r: seq<WorkOrder>)
  {
    var ws := PyTake(Filter(pending, Compatible(o)), maxWos);
    && |r| <= |ws| && r == ws[..|r|]
    && (forall k :: 0 < k <= |r| ==> SumVol(ws[..k]) <= o.capacity)
    && (|r| < |ws| ==> SumVol(ws[..|r| + 1]) > o.capacity)
  }

  /**
   `_estrategia_cercania`: FIFO when the agent has no position; otherwise
   the first `2 * max_wos_por_tour` compatible pending orders within the
   radius, in pending order.
   */
  method Cercania(o: Operator, pending: seq<WorkOrder>, maxWos: int, radio: real) returns (r: seq<WorkOrder>)
    ensures o.position.None? ==> FifoResult(o, pending, maxWos, r)
    ensures o.position.Some? ==>
              var near := Filter(pending, Near(o, o.position.value, radio));
              && |r| <= |near| && r == near[..|r|]
              && (maxWos >= 0 ==> |r| == Min(2 * maxWos, |near|))
    ensures o.position.Some? ==>
              forall i :: 0 <= i < |r| ==>
                r[i] in pending && CanHandle(o, r[i].workArea) && WithinRadius(radio, o.position.value, r[i].ubicacion)
    ensures forall i :: 0 <= i < |r| ==> r[i] in pending && CanHandle(o, r[i].workArea)
  {
    if o.position.None? {
      r := Fifo(o, pending, maxWos);
    } else {
      var p := Near(o, o.position.value, radio);
      FilterMembers(pending, p);
      r := PyTake(Filter(pending, p), maxWos * 2);
    }
  }

  // ---------------------------------------------------------------- cost-ordered batch

  /**
   The selection loop of `_seleccionar_mejor_batch` over orders ascending
   by `c`: add each that still fits and stop once `max_wos_por_tour` are
   selected; while nothing is selected, set aside orders too large on their
   own. `sel` and `over` are what the loop has gathered so far.
   */
  function BatchScan(s: seq<WorkOrder>, sel: seq<WorkOrder>, over: seq<WorkOrder>, cap: int, maxWos: int,
                     c: WorkOrder -> real): (r: (seq<WorkOrder>, seq<WorkOrder>))
    requires sel == [] || |sel| < maxWos
    requires sel != [] ==> SumVol(sel) <= cap
    requires CostOrdered(s, sel, c)
    ensures ScanOut(s, sel, over, cap, maxWos, c, r)
    ensures r.0 == [] ==> sel == [] && r.1 == over + s
    decreases |s|, 1
  {
    if |s| == 0 then
      assert over + s == over;
      (sel, over)
    else
      var v := VolumenRestante(s[0]);
      if SumVol(sel) + v <= cap then BatchAdd(s, sel, over, cap, maxWos, c)
      else if |sel| == 0 && v > cap then BatchSetAside(s, over, cap, maxWos, c)
      else BatchSkip(s, sel, over, cap, maxWos, c)
  }

  /** `s` is in cost order, and so is the batch `sel` gathered before it, every one no costlier than any in `s`. */
  predicate CostOrdered(s: seq<WorkOrder>, sel: seq<WorkOrder>, c: WorkOrder -> real)
  {
    && (forall i, j :: 0 <= i < j < |s| ==> c(s[i]) <= c(s[j]))
    && (forall a, j :: 0 <= a < |sel| && 0 <= j < |s| ==> c(sel[a]) <= c(s[j]))
    && (forall a, b :: 0 <= a < b < |sel| ==> c(sel[a]) <= c(sel[b]))
  }

  /**
   What the selection loop promises about its outcome `r` (the batch, the
   orders set aside): the batch is non-empty only within capacity, holds at
   most `max(1, max_wos_por_tour)` orders in cost order, and together with
   the set-aside orders is drawn from what the loop started with; the
   orders set aside after `over` are each too large on their own.
   */
  predicate ScanOut(s: seq<WorkOrder>, sel: seq<WorkOrder>, over: seq<WorkOrder>, cap: int, maxWos: int,
                    c: WorkOrder -> real, r: (seq<WorkOrder>, seq<WorkOrder>))
  {
    && (r.0 != [] ==> SumVol(r.0) <= cap)
    && |r.0| <= Max(1, maxWos)
    && multiset(r.0) + multiset(r.1) <= multiset(sel) + multiset(over) + multiset(s)
    && (forall k :: |over| <= k < |r.1| ==> VolumenRestante(r.1[k]) > cap)
    && over <= r.1
    && (forall a, b :: 0 <= a < b < |r.0| ==> c(r.0[a]) <= c(r.0[b]))
  }

  /** Taking the next order into the batch: the promise about the rest gives the promise about the whole. */
  lemma ScanOutAdd(s: seq<WorkOrder>, sel: seq<WorkOrder>, over: seq<WorkOrder>, cap: int, maxWos: int,
                   c: WorkOrder -> real, r: (seq<WorkOrder>, seq<WorkOrder>))
    requires |s| > 0 && ScanOut(s[1..], sel + [s[0]], over, cap, maxWos, c, r)
    ensures ScanOut(s, sel, over, cap, maxWos, c, r)
  {
    assert s == [s[0]] + s[1..];
    assert multiset(sel + [s[0]]) + multiset(s[1..]) == multiset(sel) + multiset(s);
  }

  /** Passing over the next order: likewise. */
  lemma ScanOutSkip(s: seq<WorkOrder>, sel: seq<WorkOrder>, over: seq<WorkOrder>, cap: int, maxWos: int,
                    c: WorkOrder -> real, r: (seq<WorkOrder>, seq<WorkOrder>))
    requires |s| > 0 && ScanOut(s[1..], sel, over, cap, maxWos, c, r)
    ensures ScanOut(s, sel, over, cap, maxWos, c, r)
  {
    assert s == [s[0]] + s[1..];
    assert multiset(s[1..]) <= multiset(s);
  }

  /** Setting aside an order too large on its own: likewise. */
  lemma ScanOutSetAside(s: seq<WorkOrder>, over: seq<WorkOrder>, cap: int, maxWos: int,
                        c: WorkOrder -> real, r: (seq<WorkOrder>, seq<WorkOrder>))
    requires |s| > 0 && VolumenRestante(s[0]) > cap
    requires ScanOut(s[1..], [], over + [s[0]], cap, maxWos, c, r)
    ensures ScanOut(s, [], over, cap, maxWos, c, r)
    ensures (over + [s[0]]) + s[1..] == over + s
  {
    assert s == [s[0]] + s[1..];
    assert multiset(over + [s[0]]) + multiset(s[1..]) == multiset(over) + multiset(s);
    assert (over + [s[0]])[..|over|] == over;
    assert r.1[|over|] == (over + [s[0]])[|over|];
  }

  /** The loop step that sets aside an order too large on its own while nothing is selected. */
  function BatchSetAside(s: seq<WorkOrder>, over: seq<WorkOrder>, cap: int, maxWos: int,
                         c: WorkOrder -> real): (r: (seq<WorkOrder>, seq<WorkOrder>))
    requires |s| > 0 && VolumenRestante(s[0]) > cap
    requires CostOrdered(s, [], c)
    ensures ScanOut(s, [], over, cap, maxWos, c, r)
    ensures r.0 == [] ==> r.1 == over + s
    decreases |s|, 0
  {
    SortedTail(s, c);
    var r := BatchScan(s[1..], [], over + [s[0]], cap, maxWos, c);
    ScanOutSetAside(s, over, cap, maxWos, c, r);
    r
  }

  /** The rest of a cost-ordered sequence is cost-ordered. */
  lemma SortedTail(s: seq<WorkOrder>, c: WorkOrder -> real)
    requires |s| > 0
    requires CostOrdered(s, [], c)
    ensures CostOrdered(s[1..], [], c)
  {
    forall i, j | 0 <= i < j < |s[1..]| ensures c(s[1..][i]) <= c(s[1..][j]) {
      assert s[1..][i] == s[i + 1] && s[1..][j] == s[j + 1];
    }
  }

  /** The loop step that passes over an order that does not fit the batch. */
  function BatchSkip(s: seq<WorkOrder>, sel: seq<WorkOrder>, over: seq<WorkOrder>, cap: int, maxWos: int,
                     c: WorkOrder -> real): (r: (seq<WorkOrder>, seq<WorkOrder>))
    requires |s| > 0 && sel != [] && |sel| < maxWos
    requires SumVol(sel) <= cap
    requires CostOrdered(s, sel, c)
    ensures ScanOut(s, sel, over, cap, maxWos, c, r)
    ensures r.0 != []
    decreases |s|, 0
  {
    var r := BatchScan(s[1..], sel, over, cap, maxWos, c);
    ScanOutSkip(s, sel, over, cap, maxWos, c, r);
    r
  }

  /** The loop step that takes the next order into the batch. */
  function BatchAdd(s: seq<WorkOrder>, sel: seq<WorkOrder>, over: seq<WorkOrder>, cap: int, maxWos: int,
                    c: WorkOrder -> real): (r: (seq<WorkOrder>, seq<WorkOrder>))
    requires |s| > 0 && SumVol(sel) + VolumenRestante(s[0]) <= cap
    requires sel == [] || |sel| < maxWos
    requires CostOrdered(s, sel, c)
    ensures ScanOut(s, sel, over, cap, maxWos, c, r)
    ensures r.0 != []
    decreases |s|, 0
  {
    SumVolSnoc(sel, s[0]);
    BatchOrderStep(s, sel, c);
    if |sel + [s[0]]| >= maxWos then
      BatchTaken(s, sel, over, cap, maxWos, c);
      (sel + [s[0]], over)
    else
      var r := BatchScan(s[1..], sel + [s[0]], over, cap, maxWos, c);
      ScanOutAdd(s, sel, over, cap, maxWos, c, r);
      r
  }

  /** A batch that reaches the size limit is a finished outcome. */
  lemma BatchTaken(s: seq<WorkOrder>, sel: seq<WorkOrder>, over: seq<WorkOrder>, cap: int, maxWos: int,
                   c: WorkOrder -> real)
    requires |s| > 0 && SumVol(sel) + VolumenRestante(s[0]) <= cap
    requires sel == [] || |sel| < maxWos
    requires |sel + [s[0]]| >= maxWos
    requires CostOrdered(s[1..], sel + [s[0]], c)
    ensures ScanOut(s, sel, over, cap, maxWos, c, (sel + [s[0]], over))
  {
    SumVolSnoc(sel, s[0]);
    assert s == [s[0]] + s[1..];
    assert multiset(sel + [s[0]]) <= multiset(sel) + multiset(s);
  }

  /** Moving the cheapest remaining order to the end of the batch keeps both in cost order. */
  lemma BatchOrderStep(s: seq<WorkOrder>, sel: seq<WorkOrder>, c: WorkOrder -> real)
    requires |s| > 0
    requires CostOrdered(s, sel, c)
    ensures CostOrdered(s[1..], sel + [s[0]], c)
  {
    var t := sel + [s[0]];
    forall a, j | 0 <= a < |t| && 0 <= j < |s| - 1 ensures c(t[a]) <= c(s[1..][j]) {
      assert s[1..][j] == s[j + 1];
    }
  }

  /**
   `_seleccionar_mejor_batch`: the batch taken from the candidates in
   ascending cost order, and the orders set aside as too large when nothing
   could be taken.
   */
  function SeleccionarMejorBatch(route: Router, o: Operator, staging1: Option<Cell>, cands: seq<WorkOrder>, maxWos: int)
    : (r: (seq<WorkOrder>, seq<WorkOrder>))
    ensures |cands| == 0 ==> r == ([], [])
    ensures r.0 != [] ==> SumVol(r.0) <= o.capacity
    ensures |r.0| <= Max(1, maxWos)
    ensures multiset(r.0) + multiset(r.1) <= multiset(cands)
    ensures forall i :: 0 <= i < |r.1| ==> VolumenRestante(r.1[i]) > o.capacity
    ensures r.0 == [] ==> multiset(r.1) == multiset(cands)
    ensures var pos := StartCell(o, staging1, DefaultDepot);
            forall i, j :: 0 <= i < j < |r.0| ==> CostOf(route, o, pos, r.0[i]) <= CostOf(route, o, pos, r.0[j])
  {
    if |cands| == 0 then ([], [])
    else
      var pos := StartCell(o, staging1, DefaultDepot);
      var s := SortedByCost(route, o, pos, cands);
      SortedByCostSpec(route, o, pos, cands);
      BatchScan(s, [], [], o.capacity, maxWos, (w: WorkOrder) => CostOf(route, o, pos, w))
  }

  // ---------------------------------------------------------------- plan strategies

  /** What both plan strategies promise: compatible pending orders, no repeats, bounded by count. */
  predicate PlanResult(o: Operator, pending: seq<WorkOrder>, maxWos: int, r: seq<WorkOrder>)
  {
    && (forall i :: 0 <= i < |r| ==> r[i] in pending && CanHandle(o, r[i].workArea))
    && (NoDup(pending) ==> NoDup(r))
    && |r| <= Max(1, maxWos)
  }

  /** The tour built from a chosen first order, then cut to one staging in "Tour Simple". */
  function TourFrom(o: Operator, first: WorkOrder, compat: seq<WorkOrder>, maxWos: int, simple: bool): (r: seq<WorkOrder>)
    ensures var t := ConstruirTourPorSecuencia(o, first, compat, maxWos, simple);
            forall i :: 0 <= i < |r| ==> r[i] in t
    ensures |r| <= Max(1, maxWos)
    ensures NoDup(compat) ==> NoDup(r)
    ensures !simple && r != [] ==> SumVol(r) <= o.capacity && r[0] == first
  {
    var t := ConstruirTourPorSecuencia(o, first, compat, maxWos, simple);
    if simple then FiltrarPorStagingUnico(o, t, maxWos) else t
  }

  lemma TourFromPlan(o: Operator, first: WorkOrder, pending: seq<WorkOrder>, maxWos: int, simple: bool)
    requires first in Filter(pending, Compatible(o))
    ensures PlanResult(o, pending, maxWos, TourFrom(o, first, Filter(pending, Compatible(o)), maxWos, simple))
  {
    CompatibleMembers(o, pending);
    if NoDup(pending) {
      FilterNoDup(pending, Compatible(o));
    }
    TourFromMembers(o, first, Filter(pending, Compatible(o)), maxWos, simple);
  }

  /** Every order of a tour built from candidates that include its first order is a candidate. */
  lemma TourFromMembers(o: Operator, first: WorkOrder, compat: seq<WorkOrder>, maxWos: int, simple: bool)
    requires first in compat
    ensures forall i :: 0 <= i < |TourFrom(o, first, compat, maxWos, simple)| ==> TourFrom(o, first, compat, maxWos, simple)[i] in compat
  {
    var t := ConstruirTourPorSecuencia(o, first, compat, maxWos, simple);
    forall i | 0 <= i < |t| ensures t[i] in compat {
      if i == 0 {
        assert t[0] == first;
      }
    }
  }

  /**
   `_estrategia_optimizacion_global`: among the compatible pending orders of
   the best-priority area, the cheapest fitting one starts the tour; the
   double sweep fills the rest from all compatible orders.
   */
  function OptimizacionGlobal(route: Router, o: Operator, staging1: Option<Cell>, pending: seq<WorkOrder>,
                              maxWos: int, simple: bool): (r: seq<WorkOrder>)
    ensures PlanResult(o, pending, maxWos, r)
    ensures Filter(pending, Compatible(o)) == [] ==> r == []
    ensures !simple && r != [] ==> SumVol(r) <= o.capacity
  {
    var compat := Filter(pending, Compatible(o));
    if |compat| == 0 then []
    else
      match EncontrarMejorPrimeraWo(route, o, staging1, FiltrarPorAreaPrioridad(o, compat))
      case None => []
      case Some(first) =>
        BestAreaMember(o, compat, first);
        TourFromPlan(o, first, pending, maxWos, simple);
        TourFrom(o, first, compat, maxWos, simple)
  }

  /** An order of the best-priority area is one of the candidates. */
  lemma BestAreaMember(o: Operator, cands: seq<WorkOrder>, w: WorkOrder)
    requires w in FiltrarPorAreaPrioridad(o, cands)
    ensures w in cands
  {
    FilterMembers(cands, InBestArea(o, cands));
    var i :| 0 <= i < |FiltrarPorAreaPrioridad(o, cands)| && FiltrarPorAreaPrioridad(o, cands)[i] == w;
  }

  // ---------------------------------------------------------------- as written: the cost log raises

  /**
   `_encontrar_mejor_primera_wo` as written: the first candidate's
   `calculate_cost` raises, so only the empty candidate list gets an answer.
   */
  function EncontrarMejorPrimeraWoAsWritten(route: Router, o: Operator, staging1: Option<Cell>, cands: seq<WorkOrder>)
    : (r: Result<Option<WorkOrder>>)
    ensures r.Ok? <==> |cands| == 0
    ensures r.Ok? ==> r.value == EncontrarMejorPrimeraWo(route, o, staging1, cands)
  {
    if |cands| == 0 then Ok(None)
    else
      var pos := StartCell(o, staging1, DefaultDepot);
      Err(CalculateCostAsWritten(route, Agent(o, None, false, None), cands[0], Some(pos)).error)
  }

  /** `_seleccionar_mejor_batch` as written: it raises whenever there is a candidate to cost. */
  function SeleccionarMejorBatchAsWritten(route: Router, o: Operator, staging1: Option<Cell>, cands: seq<WorkOrder>, maxWos: int)
    : (r: Result<(seq<WorkOrder>, seq<WorkOrder>)>)
    ensures r.Ok? <==> |cands| == 0
    ensures r.Ok? ==> r.value == SeleccionarMejorBatch(route, o, staging1, cands, maxWos)
  {
    if |cands| == 0 then Ok(([], []))
    else
      var pos := StartCell(o, staging1, DefaultDepot);
      Err(CalculateCostAsWritten(route, Agent(o, None, false, None), cands[0], Some(pos)).error)
  }

  /**
   `_estrategia_optimizacion_global` as written: it returns the empty plan
   when no pending order is compatible, and raises otherwise, because the
   best-priority area is never empty and its first order is costed.
   */
  function OptimizacionGlobalAsWritten(route: Router, o: Operator, staging1: Option<Cell>, pending: seq<WorkOrder>,
                                       maxWos: int, simple: bool): (r: Result<seq<WorkOrder>>)
    ensures r.Err? <==> Filter(pending, Compatible(o)) != []
    ensures r.Ok? ==> r.value == [] == OptimizacionGlobal(route, o, staging1, pending, maxWos, simple)
  {
    var compat := Filter(pending, Compatible(o));
    if |compat| == 0 then Ok([])
    else Err(EncontrarMejorPrimeraWoAsWritten(route, o, staging1, FiltrarPorAreaPrioridad(o, compat)).error)
  }

  /**
   `_estrategia_ejecucion_plan`: as the global strategy, but the tour starts
   with the best-priority order of smallest pick sequence, the first such.
   */
  function EjecucionPlan(o: Operator, pending: seq<WorkOrder>, maxWos: int, simple: bool): (r: seq<WorkOrder>)
    ensures PlanResult(o, pending, maxWos, r)
    ensures Filter(pending, Compatible(o)) == [] ==> r == []
    ensures !simple && r != [] ==> SumVol(r) <= o.capacity
  {
    var compat := Filter(pending, Compatible(o));
    if |compat| == 0 then []
    else
      var best := FiltrarPorAreaPrioridad(o, compat);
      var first := best[MinBySequence(best)];
      BestAreaMember(o, compat, first);
      TourFromPlan(o, first, pending, maxWos, simple);
      TourFrom(o, first, compat, maxWos, simple)
  }
}
