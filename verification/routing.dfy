/**
 The route calculator: ordering a tour's work orders by pick sequence or
 greedily by nearness, the length of a grid path, the tour's total volume,
 and the leg-by-leg route through the A* pathfinder.
 */
module Routing {
  import opened Wrappers
  import opened Seqs
  import opened Grid
  import opened Sorting
  import opened Pathfinder
  import opened Warehouse

  /** The constructor refuses a missing pathfinder. */
  function NewRouteCalculator(p: Option<Pathfinder>): (r: Result<Pathfinder>)
    ensures r.Ok? <==> p.Some?
    ensures r.Ok? ==> r.value == p.value
  {
    if p.None? then Err("[ROUTE-CALCULATOR ERROR] pathfinder cannot be None") else Ok(p.value)
  }

  // ---------------------------------------------------------------- ordering

  function BySequence(): (WorkOrder, WorkOrder) -> bool
  {
    (a: WorkOrder, b: WorkOrder) => a.pickSequence <= b.pickSequence
  }

  lemma BySequenceIsPreorder()
    ensures TotalPreorder(BySequence())
  {
  }

  /** `order_work_orders_by_sequence`: the input as given, or stably sorted by `pick_sequence`. */
  function OrderBySequence(wos: seq<WorkOrder>, preserveFirst: bool): (r: seq<WorkOrder>)
    ensures preserveFirst ==> r == wos
    ensures |r| == |wos|
  {
    if |wos| == 0 || preserveFirst then wos else Sort(wos, BySequence())
  }

  /** A work order that only carries a pick sequence: it names the class of orders sharing that sequence. */
  function Probe(s: int): WorkOrder
  {
    WorkOrder("", "", "", None, 0, 0, Cell(0, 0), "", s, "", None, None, None)
  }

  lemma ProbeClass(s: int, w: WorkOrder)
    ensures Equiv(BySequence(), Probe(s))(w) <==> w.pickSequence == s
  {
  }

  /**
   Without `preserve_first` the result is an ascending permutation, and
   orders sharing a pick sequence (the class of `Probe(s)`) keep their
   input order.
   */
  lemma OrderBySequenceSpec(wos: seq<WorkOrder>, s: int)
    ensures var r := OrderBySequence(wos, false);
            && multiset(r) == multiset(wos)
            && (forall i, j :: 0 <= i < j < |r| ==> r[i].pickSequence <= r[j].pickSequence)
            && Filter(r, Equiv(BySequence(), Probe(s))) == Filter(wos, Equiv(BySequence(), Probe(s)))
  {
    BySequenceIsPreorder();
    if |wos| > 0 {
      SortPerm(wos, BySequence());
      SortSorted(wos, BySequence());
      SortStable(wos, BySequence(), Probe(s));
    }
  }

  // ---------------------------------------------------------------- distances and volume

  /**
   The Euclidean length of one step: `sqrt(dx*dx + dy*dy)`, with the
   square root supplied by the caller (floating-point `math.sqrt`).
   */
  function StepLength(sqrt: real -> real, a: Cell, b: Cell): real
  {
    sqrt(Dist2(a, b) as real)
  }

  /** The step lengths along a path, one per consecutive pair. */
  function StepLengths(sqrt: real -> real, path: seq<Cell>): (ls: seq<real>)
    ensures |ls| == if |path| < 2 then 0 else |path| - 1
    ensures forall i :: 0 <= i < |ls| ==> ls[i] == StepLength(sqrt, path[i], path[i + 1])
  {
    if |path| < 2 then [] else seq(|path| - 1, i requires 0 <= i < |path| - 1 => StepLength(sqrt, path[i], path[i + 1]))
  }

  /** `calculate_path_distance`: 0 below two points, else the sum of the step lengths. */
  function PathDistance(sqrt: real -> real, path: seq<Cell>): (d: real)
    ensures |path| < 2 ==> d == 0.0
  {
    SumR(StepLengths(sqrt, path))
  }

  /** The cost the pathfinder charges for a move between adjacent cells. */
  function MoveLength(a: Cell, b: Cell): real
  {
    if Diagonal(a, b) then CostDiagonal else CostStraight
  }

  /** A correctly rounded square root. */
  predicate ExactOnSteps(sqrt: real -> real)
  {
    sqrt(1.0) == CostStraight && sqrt(2.0) == CostDiagonal
  }

  function MoveLengths(path: seq<Cell>): (ls: seq<real>)
    ensures |ls| == if |path| < 2 then 0 else |path| - 1
    ensures forall i :: 0 <= i < |ls| ==> ls[i] == MoveLength(path[i], path[i + 1])
  {
    if |path| < 2 then [] else seq(|path| - 1, i requires 0 <= i < |path| - 1 => MoveLength(path[i], path[i + 1]))
  }

  /**
   Along a path of adjacent cells (what the pathfinder returns) the
   Euclidean length is the sum of the pathfinder's own move costs.
   */
  lemma PathDistanceIsMoveCost(sqrt: real -> real, path: seq<Cell>)
    requires ExactOnSteps(sqrt)
    requires forall i :: 0 <= i < |path| - 1 ==> Adjacent(path[i], path[i + 1])
    ensures PathDistance(sqrt, path) == SumR(MoveLengths(path))
  {
    var ls := StepLengths(sqrt, path);
    forall i | 0 <= i < |ls| ensures ls[i] == MoveLength(path[i], path[i + 1]) {
      AdjacentDist2(path[i], path[i + 1]);
    }
    assert ls == MoveLengths(path);
  }

  /** An adjacent move has squared length 2 when diagonal and 1 otherwise. */
  lemma AdjacentDist2(a: Cell, b: Cell)
    requires Adjacent(a, b)
    ensures Dist2(a, b) == if Diagonal(a, b) then 2 else 1
  {
    var dx, dy := a.x - b.x, a.y - b.y;
    assert dx * dx == Abs(dx) && dy * dy == Abs(dy) by {
      assert -1 <= dx <= 1 && -1 <= dy <= 1;
    }
  }

  /** A path's length only grows as it is extended, for a non-negative square root. */
  lemma PathDistanceNonNeg(sqrt: real -> real, path: seq<Cell>)
    requires forall x :: x >= 0.0 ==> sqrt(x) >= 0.0
    ensures PathDistance(sqrt, path) >= 0.0
  {
    var ls := StepLengths(sqrt, path);
    assert forall i :: 0 <= i < |ls| ==> ls[i] >= 0.0;
    SumRNonNeg(ls);
  }

  function Volumes(wos: seq<WorkOrder>): (vs: seq<int>)
    ensures |vs| == |wos| && forall i :: 0 <= i < |wos| ==> vs[i] == VolumenRestante(wos[i])
  {
    seq(|wos|, i requires 0 <= i < |wos| => VolumenRestante(wos[i]))
  }

  /**
   `get_total_volume`: the sum of the remaining volumes; a work order
   without a SKU makes `calcular_volumen_restante` fail.
   */
  function TotalVolume(wos: seq<WorkOrder>): (r: Result<int>)
    ensures r.Ok? <==> forall i :: 0 <= i < |wos| ==> wos[i].sku.Some?
    ensures r.Ok? ==> r.value == Sum(Volumes(wos))
    decreases |wos|
  {
    if |wos| == 0 then Ok(0)
    else
      var last := wos[|wos| - 1];
      var rest := TotalVolume(wos[..|wos| - 1]);
      assert Volumes(wos) == Volumes(wos[..|wos| - 1]) + [VolumenRestante(last)];
      match CalcularVolumenRestante(last)
      case Err(e) => Err(e)
      case Ok(v) => if rest.Err? then rest else Ok(rest.value + v)
  }

  // ---------------------------------------------------------------- greedy nearest neighbour

  /** A distance between grid cells, used only through comparisons. */
  type Metric = (Cell, Cell) -> nat

  /** The index `min(.., key=distance)` picks: the first of the nearest work orders. */
  function Nearest(d: Metric, cur: Cell, ws: seq<WorkOrder>): (k: nat)
    requires |ws| > 0
    ensures k < |ws|
    ensures forall j :: 0 <= j < |ws| ==> d(cur, ws[k].ubicacion) <= d(cur, ws[j].ubicacion)
    ensures forall j :: 0 <= j < k ==> d(cur, ws[j].ubicacion) > d(cur, ws[k].ubicacion)
  {
    if |ws| == 1 then 0
    else
      var k := Nearest(d, cur, ws[1..]);
      if d(cur, ws[0].ubicacion) <= d(cur, ws[1..][k].ubicacion) then 0 else k + 1
  }

  /** Where the walker stands before visiting `r[i]`. */
  function Before(start: Cell, r: seq<WorkOrder>, i: nat): Cell
    requires i <= |r|
  {
    if i == 0 then start else r[i - 1].ubicacion
  }

  /** Every visited work order is a nearest one, from the previous stop, among those not yet visited. */
  predicate ClosestFirst(d: Metric, start: Cell, r: seq<WorkOrder>)
    decreases |r|
  {
    |r| == 0
    || ((forall j :: 0 <= j < |r| ==> d(start, r[0].ubicacion) <= d(start, r[j].ubicacion))
        && ClosestFirst(d, r[0].ubicacion, r[1..]))
  }

  /** Repeatedly visit the first nearest remaining work order. */
  function GreedyBy(d: Metric, start: Cell, ws: seq<WorkOrder>): (r: seq<WorkOrder>)
    ensures multiset(r) == multiset(ws)
    decreases |ws|
  {
    if |ws| == 0 then []
    else
      var k := Nearest(d, start, ws);
      assert ws == ws[..k] + [ws[k]] + ws[k + 1..];
      [ws[k]] + GreedyBy(d, ws[k].ubicacion, ws[..k] + ws[k + 1..])
  }

  /**
   `calculate_greedy_nearest_neighbor`: Euclidean nearness, compared
   through the squared distance (the square root is monotone).
   */
  function GreedyNearest(start: Cell, ws: seq<WorkOrder>): (r: seq<WorkOrder>)
    ensures ws == [] ==> r == []
  {
    GreedyBy(Dist2, start, ws)
  }

  lemma NearestOfPermutation(d: Metric, start: Cell, c: Cell, ws: seq<WorkOrder>, r: seq<WorkOrder>)
    requires multiset(r) == multiset(ws)
    requires forall j :: 0 <= j < |ws| ==> d(start, c) <= d(start, ws[j].ubicacion)
    ensures forall j :: 0 <= j < |r| ==> d(start, c) <= d(start, r[j].ubicacion)
  {
    forall j | 0 <= j < |r| ensures d(start, c) <= d(start, r[j].ubicacion) {
      assert r[j] in multiset(ws);
    }
  }

  /** The greedy order is a permutation in which each stop is a nearest remaining one. */
  lemma {:induction false} GreedyClosestFirst(d: Metric, start: Cell, ws: seq<WorkOrder>)
    ensures ClosestFirst(d, start, GreedyBy(d, start, ws))
    decreases |ws|
  {
    if |ws| > 0 {
      var k := Nearest(d, start, ws);
      var rest := ws[..k] + ws[k + 1..];
      GreedyClosestFirst(d, ws[k].ubicacion, rest);
      var r := GreedyBy(d, start, ws);
      NearestOfPermutation(d, start, ws[k].ubicacion, ws, r);
      assert r[1..] == GreedyBy(d, ws[k].ubicacion, rest);
    }
  }

  /** `calculate_greedy_nearest_neighbor` returns a permutation of its input in closest-first order. */
  lemma GreedyNearestSpec(start: Cell, ws: seq<WorkOrder>)
    ensures multiset(GreedyNearest(start, ws)) == multiset(ws)
    ensures ClosestFirst(Dist2, start, GreedyNearest(start, ws))
  {
    GreedyClosestFirst(Dist2, start, ws);
  }

  // ---------------------------------------------------------------- the route

  datatype RouteError =
    | StartNotWalkable(start: Cell)
    | InvalidPositions
    | NoPath(from: Cell, to: Cell, woId: string)
    | NoReturnPath(from: Cell, to: Cell)

  datatype RouteResult = RouteResult(
    success: bool,
    totalDistance: real,
    numStops: nat,
    visitSequence: seq<WorkOrder>,
    fullPath: seq<Cell>,
    segmentPaths: seq<seq<Cell>>,
    segmentDistances: seq<real>,
    errors: seq<RouteError>)

  /** `validate_work_order_positions` */
  predicate AllWalkable(p: Pathfinder, wos: seq<WorkOrder>)
  {
    forall i :: 0 <= i < |wos| ==> IsWalkable(p, wos[i].ubicacion)
  }

  /** The legs routed so far: leg `k` is a valid path from the previous stop to stop `k`. */
  ghost predicate LegsOk(p: Pathfinder, start: Cell, ordered: seq<WorkOrder>, n: nat, segs: seq<seq<Cell>>)
  {
    n <= |ordered| && n <= |segs|
    && forall k :: 0 <= k < n ==> ValidPath(p, segs[k], Before(start, ordered, k), ordered[k].ubicacion)
  }

  lemma LegsOkSnoc(p: Pathfinder, start: Cell, ordered: seq<WorkOrder>, n: nat, segs: seq<seq<Cell>>, path: seq<Cell>)
    requires LegsOk(p, start, ordered, n, segs) && |segs| == n && n < |ordered|
    requires ValidPath(p, path, Before(start, ordered, n), ordered[n].ubicacion)
    ensures LegsOk(p, start, ordered, n + 1, segs + [path])
  {
    var s := segs + [path];
    forall k | 0 <= k < n + 1 ensures ValidPath(p, s[k], Before(start, ordered, k), ordered[k].ubicacion) {
      if k < n {
        assert s[k] == segs[k];
      }
    }
  }

  lemma LegsOkExtra(p: Pathfinder, start: Cell, ordered: seq<WorkOrder>, n: nat, segs: seq<seq<Cell>>, path: seq<Cell>)
    requires LegsOk(p, start, ordered, n, segs)
    ensures LegsOk(p, start, ordered, n, segs + [path])
  {
    var s := segs + [path];
    forall k | 0 <= k < n ensures ValidPath(p, s[k], Before(start, ordered, k), ordered[k].ubicacion) {
      assert s[k] == segs[k];
    }
  }

  lemma MeasuredSnoc(sqrt: real -> real, segs: seq<seq<Cell>>, dists: seq<real>, path: seq<Cell>)
    requires |segs| == |dists| && forall k :: 0 <= k < |segs| ==> dists[k] == PathDistance(sqrt, segs[k])
    ensures forall k :: 0 <= k < |segs| + 1 ==>
      (dists + [PathDistance(sqrt, path)])[k] == PathDistance(sqrt, (segs + [path])[k])
  {
    forall k | 0 <= k < |segs| + 1
      ensures (dists + [PathDistance(sqrt, path)])[k] == PathDistance(sqrt, (segs + [path])[k])
    {
      if k < |segs| {
        assert (segs + [path])[k] == segs[k];
      }
    }
  }

  /** How a leg is appended to the full path: without its first point, unless it has only one. */
  function Extend(full: seq<Cell>, path: seq<Cell>): seq<Cell>
  {
    if |path| > 1 then full + path[1..] else full + path
  }

  /**
   The leg loop of `calculate_route`: A* from each stop to the next. On a
   missing path it stops with the legs routed so far and `failed` set.
   */
  method RouteLegs(p: Pathfinder, sqrt: real -> real, start: Cell, ordered: seq<WorkOrder>)
    returns (n: nat, segs: seq<seq<Cell>>, dists: seq<real>, full: seq<Cell>, failed: Option<RouteError>)
    ensures n <= |ordered| && |segs| == n && |dists| == n
    ensures failed.None? <==> n == |ordered|
    ensures failed.Some? ==> failed.value == NoPath(Before(start, ordered, n), ordered[n].ubicacion, ordered[n].id)
    ensures forall k :: 0 <= k < n ==> dists[k] == PathDistance(sqrt, segs[k])
    ensures LegsOk(p, start, ordered, n, segs)
    ensures |full| >= 1 && full[0] == start
  {
    segs, dists, full := [], [], [start];
    var cur := start;
    n := 0;
    while n < |ordered|
      invariant 0 <= n <= |ordered|
      invariant |segs| == n && |dists| == n
      invariant forall k :: 0 <= k < n ==> dists[k] == PathDistance(sqrt, segs[k])
      invariant LegsOk(p, start, ordered, n, segs)
      invariant cur == Before(start, ordered, n)
      invariant |full| >= 1 && full[0] == start
    {
      var w := ordered[n];
      var path := FindPath(p, cur, w.ubicacion);
      if path.None? {
        return n, segs, dists, full, Some(NoPath(cur, w.ubicacion, w.id));
      }
      LegsOkSnoc(p, start, ordered, n, segs, path.value);
      MeasuredSnoc(sqrt, segs, dists, path.value);
      segs := segs + [path.value];
      dists := dists + [PathDistance(sqrt, path.value)];
      full := Extend(full, path.value);
      cur := w.ubicacion;
      n := n + 1;
    }
    failed := None;
  }

  /** The optional leg back to the start; a missing path only adds an error. */
  method ReturnLeg(p: Pathfinder, sqrt: real -> real, start: Cell, ordered: seq<WorkOrder>, cur: Cell,
                   segs: seq<seq<Cell>>, dists: seq<real>, full: seq<Cell>, errors: seq<RouteError>)
    returns (segs': seq<seq<Cell>>, dists': seq<real>, full': seq<Cell>, errors': seq<RouteError>)
    requires |segs| == |dists| == |ordered|
    requires LegsOk(p, start, ordered, |ordered|, segs)
    ensures LegsOk(p, start, ordered, |ordered|, segs')
    ensures |segs'| == |dists'| && segs'[..|segs|] == segs && dists'[..|dists|] == dists
    ensures forall k :: |segs| <= k < |segs'| ==> dists'[k] == PathDistance(sqrt, segs'[k])
    ensures |full'| >= |full| && full'[..|full|] == full
    ensures forall e :: e in errors' ==> e in errors || e.NoReturnPath?
    ensures forall e :: e in errors ==> e in errors'
  {
    var back := FindPath(p, cur, start);
    if back.None? {
      return segs, dists, full, errors + [NoReturnPath(cur, start)];
    }
    LegsOkExtra(p, start, ordered, |ordered|, segs, back.value);
    segs' := segs + [back.value];
    dists' := dists + [PathDistance(sqrt, back.value)];
    assert segs'[..|segs|] == segs && dists'[..|dists|] == dists;
    full' := if |back.value| > 1 then full + back.value[1..] else full;
    assert full'[..|full|] == full;
    errors' := errors;
  }

  /** The outcome `calculate_route` promises for a non-empty tour from a walkable start. */
  ghost predicate RouteOk(p: Pathfinder, sqrt: real -> real, start: Cell, ordered: seq<WorkOrder>, r: RouteResult)
  {
    && |r.segmentDistances| == |r.segmentPaths|
    && (forall k :: 0 <= k < |r.segmentPaths| ==> r.segmentDistances[k] == PathDistance(sqrt, r.segmentPaths[k]))
    && |r.fullPath| >= 1 && r.fullPath[0] == start
    && r.numStops <= |ordered|
    && r.visitSequence == ordered[..r.numStops]
    && LegsOk(p, start, ordered, r.numStops, r.segmentPaths)
    && (r.success <==> r.numStops == |ordered|)
    && (!r.success ==> |r.segmentPaths| == r.numStops && r.totalDistance == 0.0
                       && |r.errors| > 0 && r.errors[|r.errors| - 1].NoPath?)
    && (r.success ==> r.totalDistance == SumR(r.segmentDistances) && |r.segmentPaths| >= r.numStops)
  }

  /** A successful route visits every order of the tour, in the tour's order. */
  lemma SuccessVisitsAll(p: Pathfinder, sqrt: real -> real, start: Cell, ordered: seq<WorkOrder>, r: RouteResult)
    requires RouteOk(p, sqrt, start, ordered, r) && r.success
    ensures r.visitSequence == ordered
  {
    assert ordered[..|ordered|] == ordered;
  }

  /** The legs of an already ordered, non-empty tour, then the optional return leg. */
  method RouteOrdered(p: Pathfinder, sqrt: real -> real, start: Cell, ordered: seq<WorkOrder>,
                      returnToStart: bool, errors: seq<RouteError>) returns (r: RouteResult)
    ensures RouteOk(p, sqrt, start, ordered, r)
    ensures r.success ==> forall e :: e in r.errors ==> e in errors || e.NoReturnPath?
    ensures r.success ==> forall e :: e in errors ==> e in r.errors
  {
    var n, segs, dists, full, failed := RouteLegs(p, sqrt, start, ordered);
    if failed.Some? {
      return RouteResult(false, 0.0, n, ordered[..n], full, segs, dists, errors + [failed.value]);
    }
    assert ordered[..|ordered|] == ordered;
    var errs := errors;
    var cur := Before(start, ordered, n);
    if returnToStart && cur != start {
      segs, dists, full, errs := ReturnLeg(p, sqrt, start, ordered, cur, segs, dists, full, errors);
      forall k | 0 <= k < |segs| ensures dists[k] == PathDistance(sqrt, segs[k]) {
        if k < n {
          assert segs[k] == segs[..n][k] && dists[k] == dists[..n][k];
        }
      }
    }
    return RouteResult(true, SumR(dists), n, ordered, full, segs, dists, errs);
  }

  /**
   `calculate_route`: one A* leg per work order in pick-sequence order,
   then an optional leg back to the start. A failed leg aborts with the
   legs already routed; a failed return leg is only recorded as an error.
   */
  method CalculateRoute(p: Pathfinder, sqrt: real -> real, start: Cell, wos: seq<WorkOrder>,
                        returnToStart: bool, preserveFirst: bool) returns (r: RouteResult)
    ensures wos == [] ==> r == RouteResult(true, 0.0, 0, [], [start], [], [], [])
    ensures wos != [] && !IsWalkable(p, start) ==>
              r == RouteResult(false, 0.0, 0, [], [], [], [], [StartNotWalkable(start)])
    ensures wos != [] && IsWalkable(p, start) ==>
              && RouteOk(p, sqrt, start, OrderBySequence(wos, preserveFirst), r)
              && (r.success ==> (InvalidPositions in r.errors <==> !AllWalkable(p, wos)))
  {
    if wos == [] {
      return RouteResult(true, 0.0, 0, [], [start], [], [], []);
    }
    if !IsWalkable(p, start) {
      return RouteResult(false, 0.0, 0, [], [], [], [], [StartNotWalkable(start)]);
    }
    var errors: seq<RouteError> := if AllWalkable(p, wos) then [] else [InvalidPositions];
    r := RouteOrdered(p, sqrt, start, OrderBySequence(wos, preserveFirst), returnToStart, errors);
  }
}
