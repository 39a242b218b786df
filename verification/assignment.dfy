/**
 The work-order to operator assignment cost: a priority penalty plus a
 weighted travel distance, its batch form sorted by cost, the greedy
 best pair over all available operators and pending work orders, and the
 availability test.
 */
module Assignment {
  import opened Wrappers
  import opened Seqs
  import opened Grid
  import opened Sorting
  import opened Operators
  import opened Warehouse

  const PenaltyIncompatible: real := 98000000.0
  const PenaltyLow: real := 50000.0
  const DistanceWeight: real := 100.0
  const PriorityThresholdGood: int := 10

  datatype CostResult = CostResult(totalCost: real, priorityScore: int, priorityPenalty: real, distanceCost: real)

  /**
   The attributes the calculator probes with `hasattr`: the grid position
   it falls back on, whether a truthy `tour_actual` is set, and `estado`.
   */
  datatype Agent = Agent(op: Operator, posicionGrilla: Option<Cell>, tourActual: bool, estado: Option<string>)

  /** The path search the calculator may consult: `None` without a route calculator or when the search fails. */
  type Router = (Cell, Cell) -> Option<seq<Cell>>

  /** The penalty for a priority: incompatible at 999, low above 10, none otherwise. */
  function PriorityPenalty(priority: int): (p: real)
    ensures priority == 999 ==> p == PenaltyIncompatible
    ensures priority != 999 && priority > PriorityThresholdGood ==> p == PenaltyLow
    ensures priority <= PriorityThresholdGood ==> p == 0.0
  {
    if priority == 999 then PenaltyIncompatible
    else if priority > PriorityThresholdGood then PenaltyLow
    else 0.0
  }

  /** `_calculate_distance`: the routed path's length when one is found, else the Manhattan distance. */
  function Distance(route: Router, a: Cell, b: Cell): (d: real)
    ensures d >= 0.0
    ensures route(a, b).None? || route(a, b) == Some([]) ==> d == Manhattan(a, b) as real
    ensures route(a, b).Some? && route(a, b).value != [] ==> d == |route(a, b).value| as real
  {
    var p := route(a, b);
    if p.Some? && p.value != [] then |p.value| as real else Manhattan(a, b) as real
  }

  /** The start position: the given one, else the agent's grid position, else (0, 0). */
  function StartPosition(agent: Agent, current: Option<Cell>): (c: Cell)
    ensures current.Some? ==> c == current.value
    ensures current.None? && agent.posicionGrilla.Some? ==> c == agent.posicionGrilla.value
    ensures current.None? && agent.posicionGrilla.None? ==> c == Cell(0, 0)
  {
    if current.Some? then current.value
    else if agent.posicionGrilla.Some? then agent.posicionGrilla.value
    else Cell(0, 0)
  }

  /** `calculate_cost` */
  function CalculateCost(route: Router, agent: Agent, wo: WorkOrder, current: Option<Cell>): (r: CostResult)
    ensures r.priorityScore == PriorityFor(agent.op, wo.workArea)
    ensures r.priorityPenalty == PriorityPenalty(r.priorityScore)
    ensures r.distanceCost == Distance(route, StartPosition(agent, current), wo.ubicacion) * DistanceWeight
    ensures r.totalCost == r.priorityPenalty + r.distanceCost
    ensures r.totalCost >= r.priorityPenalty
  {
    var score := PriorityFor(agent.op, wo.workArea);
    var penalty := PriorityPenalty(score);
    var dist := Distance(route, StartPosition(agent, current), wo.ubicacion);
    CostResult(penalty + dist * DistanceWeight, score, penalty, dist * DistanceWeight)
  }

  /**
   * `calculate_cost` as written.  After computing the cost, its log line
   * formats `operator.tipo`; operators keep their kind in `type`
   * (operators.py:41-42) and nothing defines `tipo`, so every call raises
   * AttributeError and the cost is never returned.  The rest of the model
   * uses the corrected `CalculateCost`.
   */
  function CalculateCostAsWritten(route: Router, agent: Agent, wo: WorkOrder, current: Option<Cell>): (r: Result<CostResult>)
    ensures r.Err?
  {
    Err("AttributeError: operator has no attribute 'tipo'")
  }

  /** An agent without a route is costed by Manhattan distance: `100 * (|dx| + |dy|)` plus the penalty. */
  lemma UnroutedCost(agent: Agent, wo: WorkOrder, current: Option<Cell>)
    ensures var r := CalculateCost((a, b) => None, agent, wo, current);
            r.totalCost == PriorityPenalty(PriorityFor(agent.op, wo.workArea))
                           + 100.0 * Manhattan(StartPosition(agent, current), wo.ubicacion) as real
  {
  }

  /** A compatible agent (priority at most 10) always costs less than an incompatible one at the same distance. */
  lemma CompatibleBeatsIncompatible(route: Router, a1: Agent, a2: Agent, wo: WorkOrder, current: Cell)
    requires PriorityFor(a1.op, wo.workArea) <= PriorityThresholdGood
    requires !CanHandle(a2.op, wo.workArea)
    requires Distance(route, current, wo.ubicacion) < 980000.0
    ensures CalculateCost(route, a1, wo, Some(current)).totalCost < CalculateCost(route, a2, wo, Some(current)).totalCost
  {
  }

  function CostLeq(): (CostResult, CostResult) -> bool
  {
    (a: CostResult, b: CostResult) => a.totalCost <= b.totalCost
  }

  lemma CostLeqIsPreorder()
    ensures TotalPreorder(CostLeq())
  {
  }

  /** `calculate_costs_for_candidates`: one cost per work order, stably sorted by total cost. */
  function CostsForCandidates(route: Router, agent: Agent, wos: seq<WorkOrder>, current: Option<Cell>): (r: seq<CostResult>)
    ensures |r| == |wos|
  {
    var costs := seq(|wos|, i requires 0 <= i < |wos| => CalculateCost(route, agent, wos[i], current));
    Sort(costs, CostLeq())
  }

  /** The batch result is ascending by cost and is exactly the multiset of per-order costs. */
  lemma CostsForCandidatesSpec(route: Router, agent: Agent, wos: seq<WorkOrder>, current: Option<Cell>)
    ensures var r := CostsForCandidates(route, agent, wos, current);
            && (forall i, j :: 0 <= i < j < |r| ==> r[i].totalCost <= r[j].totalCost)
            && multiset(r) == multiset(seq(|wos|, i requires 0 <= i < |wos| => CalculateCost(route, agent, wos[i], current)))
  {
    var costs := seq(|wos|, i requires 0 <= i < |wos| => CalculateCost(route, agent, wos[i], current));
    CostLeqIsPreorder();
    SortSorted(costs, CostLeq());
    SortPerm(costs, CostLeq());
  }

  /** `_is_operator_available`: no truthy tour, and a state (if any) among idle, disponible, waiting. */
  predicate IsAvailable(agent: Agent)
  {
    !agent.tourActual && (agent.estado.None? || agent.estado.value in {"idle", "disponible", "waiting"})
  }

  /** One available agent paired with each pending work order, in order. */
  function PairsFor(a: Agent, wos: seq<WorkOrder>): (ps: seq<(Agent, WorkOrder)>)
    ensures forall k :: 0 <= k < |ps| ==> ps[k].0 == a && ps[k].1 in wos && ps[k].1.status == "pending"
    ensures forall w :: w in wos && w.status == "pending" ==> (a, w) in ps
  {
    if |wos| == 0 then []
    else
      var rest := PairsFor(a, wos[1..]);
      assert forall w :: w in wos[1..] ==> w in wos;
      if wos[0].status == "pending" then [(a, wos[0])] + rest else rest
  }

  /** The (operator, work order) pairs the greedy search visits, operator-major. */
  function Pairs(agents: seq<Agent>, wos: seq<WorkOrder>): (ps: seq<(Agent, WorkOrder)>)
    ensures forall k :: 0 <= k < |ps| ==> IsAvailable(ps[k].0) && ps[k].0 in agents && ps[k].1 in wos && ps[k].1.status == "pending"
    ensures forall a, w :: a in agents && IsAvailable(a) && w in wos && w.status == "pending" ==> (a, w) in ps
  {
    if |agents| == 0 then []
    else
      var rest := Pairs(agents[1..], wos);
      assert forall a :: a in agents[1..] ==> a in agents;
      if IsAvailable(agents[0]) then PairsFor(agents[0], wos) + rest else rest
  }

  function PairCost(route: Router, p: (Agent, WorkOrder)): real
  {
    CalculateCost(route, p.0, p.1, None).totalCost
  }

  function PairCosts(route: Router, ps: seq<(Agent, WorkOrder)>): (cs: seq<real>)
    ensures |cs| == |ps| && forall k :: 0 <= k < |ps| ==> cs[k] == PairCost(route, ps[k])
  {
    seq(|ps|, k requires 0 <= k < |ps| => PairCost(route, ps[k]))
  }

  /** The index of the first minimum of a non-empty cost list. */
  function FirstMin(costs: seq<real>): (k: nat)
    requires |costs| > 0
    ensures k < |costs|
    ensures forall j :: 0 <= j < |costs| ==> costs[k] <= costs[j]
    ensures forall j :: 0 <= j < k ==> costs[j] > costs[k]
  {
    if |costs| == 1 then 0
    else
      var k := FirstMin(costs[1..]);
      if costs[0] <= costs[1..][k] then 0 else k + 1
  }

  /**
   `find_best_assignment`: over all available agents and pending work
   orders, the first pair (operator-major) whose cost is minimal; `None`
   when there is no such pair.
   */
  function FindBestAssignment(route: Router, agents: seq<Agent>, wos: seq<WorkOrder>): (r: Option<(Agent, WorkOrder, CostResult)>)
    ensures r.None? <==> Pairs(agents, wos) == []
    ensures r.None? <==> !exists a, w :: a in agents && IsAvailable(a) && w in wos && w.status == "pending"
    ensures r.Some? ==> IsAvailable(r.value.0) && r.value.0 in agents && r.value.1 in wos && r.value.1.status == "pending"
    ensures r.Some? ==> r.value.2 == CalculateCost(route, r.value.0, r.value.1, None)
    ensures r.Some? ==> forall a, w :: a in agents && IsAvailable(a) && w in wos && w.status == "pending" ==>
                          r.value.2.totalCost <= CalculateCost(route, a, w, None).totalCost
    ensures r.Some? ==> exists k :: 0 <= k < |Pairs(agents, wos)| && Pairs(agents, wos)[k] == (r.value.0, r.value.1)
                          && forall j :: 0 <= j < k ==> PairCost(route, Pairs(agents, wos)[j]) > r.value.2.totalCost
  {
    var ps := Pairs(agents, wos);
    if |ps| == 0 then None
    else
      var costs := PairCosts(route, ps);
      var k := FirstMin(costs);
      assert forall a, w :: a in agents && IsAvailable(a) && w in wos && w.status == "pending" ==>
               costs[k] <= CalculateCost(route, a, w, None).totalCost by {
        forall a, w | a in agents && IsAvailable(a) && w in wos && w.status == "pending"
          ensures costs[k] <= CalculateCost(route, a, w, None).totalCost
        {
          var j :| 0 <= j < |ps| && ps[j] == (a, w);
          assert costs[j] == CalculateCost(route, a, w, None).totalCost;
        }
      }
      Some((ps[k].0, ps[k].1, CalculateCost(route, ps[k].0, ps[k].1, None)))
  }
}
