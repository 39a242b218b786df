/**
 Warehouse agents: the shared operator state, its priority, area and
 capacity predicates, cargo bookkeeping, and the operator factory with its
 per-type sequential ids (`GroundOp-01`, `Forklift-01`, ...).
 */
module Operators {
  import opened Wrappers
  import opened Seqs
  import opened Strs
  import opened Dicts
  import opened Grid
  import opened SimConfig

  const Ground: string := "GroundOperator"
  const Forklift: string := "Forklift"

  datatype Operator = Operator(
    id: string,
    kind: string,
    capacity: int,
    dischargeTime: int,
    priorities: Dict<string, int>,
    position: Option<Cell>,
    currentTask: Option<string>,
    status: string,
    cargoVolume: int,
    tasksCompleted: int)

  /** A freshly built agent: no position, no task, idle, empty. */
  function NewOperator(id: string, kind: string, capacity: int, dischargeTime: int,
                       priorities: Dict<string, int>): (o: Operator)
    ensures o.id == id && o.kind == kind && o.capacity == capacity
    ensures o.dischargeTime == dischargeTime && o.priorities == priorities
    ensures o.position.None? && o.currentTask.None? && o.status == "idle"
    ensures o.cargoVolume == 0 && o.tasksCompleted == 0
  {
    Operator(id, kind, capacity, dischargeTime, priorities, None, None, "idle", 0, 0)
  }

  /** `get_priority_for_work_area`: the configured priority, 999 for an unlisted area. */
  function PriorityFor(o: Operator, area: string): (p: int)
    ensures area in o.priorities.vals ==> p == o.priorities.vals[area]
    ensures area !in o.priorities.vals ==> p == 999
  {
    GetOr(o.priorities, area, 999)
  }

  /** `can_handle_work_area`: the area is listed in the agent's priorities. */
  predicate CanHandle(o: Operator, area: string)
  {
    area in o.priorities.vals
  }

  /** An agent handles exactly the areas whose priority is not the 999 sentinel, unless 999 is configured. */
  lemma CanHandleIffPriority(o: Operator, area: string)
    requires forall a :: a in o.priorities.vals ==> o.priorities.vals[a] != 999
    ensures CanHandle(o, area) <==> PriorityFor(o, area) != 999
  {
  }

  /** `has_capacity_for` */
  predicate HasCapacityFor(o: Operator, volume: int)
  {
    o.cargoVolume + volume <= o.capacity
  }

  function AddCargo(o: Operator, volume: int): (r: Operator)
    ensures r.cargoVolume == o.cargoVolume + volume
    ensures r == o.(cargoVolume := r.cargoVolume)
  {
    o.(cargoVolume := o.cargoVolume + volume)
  }

  function ClearCargo(o: Operator): (r: Operator)
    ensures r.cargoVolume == 0
    ensures r == o.(cargoVolume := 0)
  {
    o.(cargoVolume := 0)
  }

  /** Loading only what `HasCapacityFor` admits never overfills the agent. */
  lemma AddCargoWithinCapacity(o: Operator, volume: int)
    requires HasCapacityFor(o, volume)
    ensures AddCargo(o, volume).cargoVolume <= o.capacity
    ensures ClearCargo(AddCargo(o, volume)) == ClearCargo(o)
  {
  }

  // ---------------------------------------------------------------- factory

  function IdPrefix(kind: string): string
  {
    if kind == Ground then "GroundOp-" else "Forklift-"
  }

  /** `f"GroundOp-{k:02d}"` / `f"Forklift-{k:02d}"` */
  function AgentId(kind: string, k: nat): string
  {
    IdPrefix(kind) + ZeroPad(k, 2)
  }

  function IsKind(kind: string): Operator -> bool
  {
    (o: Operator) => o.kind == kind
  }

  lemma AgentIdInjective(k1: string, n1: nat, k2: string, n2: nat)
    requires k1 in {Ground, Forklift} && k2 in {Ground, Forklift}
    requires k1 != k2 || n1 != n2
    ensures AgentId(k1, n1) != AgentId(k2, n2)
  {
    var a, b := AgentId(k1, n1), AgentId(k2, n2);
    if k1 != k2 {
      assert a[0] != b[0];
    } else {
      var p := IdPrefix(k1);
      if a == b {
        assert a[|p|..] == ZeroPad(n1, 2);
        assert b[|p|..] == ZeroPad(n2, 2);
        ZeroPadRoundTrip(n1, 2);
        ZeroPadRoundTrip(n2, 2);
      }
    }
  }

  /** The kind an `agent_types` entry asks for (`type`, default GroundOperator). */
  function EntryKind(a: AgentEntry): string
  {
    a.kind.GetOr(Ground)
  }

  predicate Known(a: AgentEntry)
  {
    EntryKind(a) in {Ground, Forklift}
  }

  /**
   Every operator is of a known kind and carries the id its position
   dictates: one more than the number of same-kind operators before it.
   */
  ghost predicate WellNumbered(ops: seq<Operator>)
  {
    forall i :: 0 <= i < |ops| ==> NumberedAfter(ops[i], ops[..i])
  }

  /** `o` is of a known kind and numbered one past the operators of its kind in `before`. */
  ghost predicate NumberedAfter(o: Operator, before: seq<Operator>)
  {
    o.kind in {Ground, Forklift} && o.id == AgentId(o.kind, Count(before, IsKind(o.kind)) + 1)
  }

  lemma WellNumberedSnoc(prev: seq<Operator>, o: Operator)
    requires WellNumbered(prev)
    requires o.kind in {Ground, Forklift}
    requires o.id == AgentId(o.kind, Count(prev, IsKind(o.kind)) + 1)
    ensures WellNumbered(prev + [o])
  {
    assert NumberedAfter(o, prev);
    PrefixPropertySnoc(prev, o, (x: Operator, before: seq<Operator>) => NumberedAfter(x, before));
  }

  /** A property of each element and the elements before it survives appending one that has it. */
  lemma PrefixPropertySnoc<T>(prev: seq<T>, x: T, p: (T, seq<T>) -> bool)
    requires forall i :: 0 <= i < |prev| ==> p(prev[i], prev[..i])
    requires p(x, prev)
    ensures forall i :: 0 <= i < |prev + [x]| ==> p((prev + [x])[i], (prev + [x])[..i])
  {
    var s := prev + [x];
    forall i | 0 <= i < |s| ensures p(s[i], s[..i]) {
      if i < |prev| {
        assert s[..i] == prev[..i] && s[i] == prev[i];
      } else {
        assert s[..i] == prev && s[i] == x;
      }
    }
  }

  /**
   `o` takes the entry's settings: its `type` (GroundOperator when absent),
   `capacity` (150), `discharge_time` (5) and `work_area_priorities` (none).
   */
  predicate BuiltFrom(o: Operator, e: AgentEntry)
  {
    && o.kind == EntryKind(e)
    && o.capacity == e.capacity.GetOr(150)
    && o.dischargeTime == e.dischargeTime.GetOr(5)
    && o.priorities == e.priorities.GetOr(Empty())
  }

  /**
   The operators built from the first `n` entries of `agent_types`; unknown
   kinds are skipped, and the i-th operator is built from the i-th known entry.
   */
  function FromAgentTypes(entries: seq<AgentEntry>, n: nat): (ops: seq<Operator>)
    requires n <= |entries|
    ensures |ops| == Count(entries[..n], Known)
    ensures WellNumbered(ops)
    ensures forall i :: 0 <= i < |ops| ==> ops[i].status == "idle" && ops[i].cargoVolume == 0
    ensures forall i :: 0 <= i < |ops| ==> BuiltFrom(ops[i], Filter(entries[..n], Known)[i])
  {
    if n == 0 then []
    else
      var prev := FromAgentTypes(entries, n - 1);
      var e := entries[n - 1];
      assert entries[..n] == entries[..n - 1] + [e];
      CountAppend(entries[..n - 1], [e], Known);
      FilterStep(entries, n);
      var kind := EntryKind(e);
      if Known(e) then
        var o := NewOperator(AgentId(kind, Count(prev, IsKind(kind)) + 1), kind, e.capacity.GetOr(150),
                             e.dischargeTime.GetOr(5), e.priorities.GetOr(Empty()));
        WellNumberedSnoc(prev, o);
        BuiltFromSnoc(prev, Filter(entries[..n - 1], Known), e, o);
        prev + [o]
      else
        prev
  }

  /** The known entries among the first `n` are those among the first `n - 1`, plus entry `n - 1` if known. */
  lemma FilterStep(entries: seq<AgentEntry>, n: nat)
    requires 0 < n <= |entries|
    ensures Filter(entries[..n], Known) ==
            Filter(entries[..n - 1], Known) + (if Known(entries[n - 1]) then [entries[n - 1]] else [])
  {
    assert entries[..n] == entries[..n - 1] + [entries[n - 1]];
    FilterAppend(entries[..n - 1], [entries[n - 1]], Known);
    FilterCons(entries[n - 1], [], Known);
    assert [entries[n - 1]] + [] == [entries[n - 1]];
  }

  /** Appending an operator built from the next known entry keeps operators and entries in step. */
  lemma BuiltFromSnoc(prev: seq<Operator>, known: seq<AgentEntry>, e: AgentEntry, o: Operator)
    requires |prev| == |known|
    requires forall i :: 0 <= i < |prev| ==> BuiltFrom(prev[i], known[i])
    requires BuiltFrom(o, e)
    ensures forall i :: 0 <= i < |prev + [o]| ==> BuiltFrom((prev + [o])[i], (known + [e])[i])
  {
  }

  lemma {:induction false} CountPrefixGrows(ops: seq<Operator>, i: nat, j: nat, p: Operator -> bool)
    requires i < j <= |ops|
    requires p(ops[i])
    ensures Count(ops[..j], p) >= Count(ops[..i], p) + 1
  {
    assert ops[..j] == ops[..i] + ops[i..j];
    CountAppend(ops[..i], ops[i..j], p);
  }

  /** Well-numbered operators never share an id. */
  lemma WellNumberedUnique(ops: seq<Operator>)
    requires WellNumbered(ops)
    ensures NoDup(seq(|ops|, i requires 0 <= i < |ops| => ops[i].id))
  {
    var ids := seq(|ops|, i requires 0 <= i < |ops| => ops[i].id);
    forall i, j | 0 <= i < j < |ids| ensures ids[i] != ids[j] {
      if ops[i].kind == ops[j].kind {
        CountPrefixGrows(ops, i, j, IsKind(ops[i].kind));
      }
      AgentIdInjective(ops[i].kind, Count(ops[..i], IsKind(ops[i].kind)) + 1,
                       ops[j].kind, Count(ops[..j], IsKind(ops[j].kind)) + 1);
    }
  }

  function LegacyGround(i: nat): Operator
  {
    NewOperator(AgentId(Ground, i + 1), Ground, 150, 5, LegacyGroundAreas())
  }

  function LegacyForklift(i: nat): Operator
  {
    NewOperator(AgentId(Forklift, i + 1), Forklift, 1000, 5, LegacyForkliftAreas())
  }

  /** The legacy fleet: `n` ground operators (capacity 150) then `m` forklifts (capacity 1000), numbered from 1 per kind. */
  function LegacyFleet(n: int, m: int): (ops: seq<Operator>)
    ensures |ops| == Max(0, n) + Max(0, m)
    ensures forall i :: 0 <= i < Max(0, n) ==> ops[i] == LegacyGround(i)
    ensures forall i :: Max(0, n) <= i < |ops| ==> ops[i] == LegacyForklift(i - Max(0, n))
  {
    seq(Max(0, n), i requires 0 <= i => LegacyGround(i)) + seq(Max(0, m), i requires 0 <= i => LegacyForklift(i))
  }

  function LegacyGroundAreas(): (d: Dict<string, int>)
    ensures d.vals == map["Area_Ground" := 1, "Area_Piso_L1" := 2]
  {
    Set(Set(Empty(), "Area_Ground", 1), "Area_Piso_L1", 2)
  }

  function LegacyForkliftAreas(): (d: Dict<string, int>)
    ensures d.vals == map["Area_Rack" := 1]
  {
    Set(Empty(), "Area_Rack", 1)
  }

  /**
   `crear_operarios`: the agent list, and beside it one process per agent
   (a process is represented by the id of the agent it runs). An absent or
   empty `agent_types` selects the legacy fleet.
   */
  function CrearOperarios(c: Configuration): (r: (seq<string>, seq<Operator>))
    ensures |r.0| == |r.1|
    ensures forall i :: 0 <= i < |r.0| ==> r.0[i] == r.1[i].id
    ensures NoDup(r.0)
    ensures c.agentTypes.GetOr([]) == [] ==>
              r.1 == LegacyFleet(c.numTerrestres.GetOr(2), c.numMontacargas.GetOr(1))
    ensures c.agentTypes.GetOr([]) != [] ==>
              |r.1| == Count(c.agentTypes.value, Known) && WellNumbered(r.1)
    ensures c.agentTypes.GetOr([]) != [] ==>
              forall i :: 0 <= i < |r.1| ==> BuiltFrom(r.1[i], Filter(c.agentTypes.value, Known)[i])
  {
    var entries := c.agentTypes.GetOr([]);
    var ops := if entries == [] then LegacyFleet(c.numTerrestres.GetOr(2), c.numMontacargas.GetOr(1))
               else (assert entries[..|entries|] == entries; FromAgentTypes(entries, |entries|));
    var procs := seq(|ops|, i requires 0 <= i < |ops| => ops[i].id);
    if entries == [] then
      LegacyUnique(c.numTerrestres.GetOr(2), c.numMontacargas.GetOr(1));
      (procs, ops)
    else
      WellNumberedUnique(ops);
      (procs, ops)
  }

  lemma LegacyUnique(n: int, m: int)
    ensures var ops := LegacyFleet(n, m);
            NoDup(seq(|ops|, i requires 0 <= i < |ops| => ops[i].id))
  {
    var ops := LegacyFleet(n, m);
    var ids := seq(|ops|, i requires 0 <= i < |ops| => ops[i].id);
    forall i, j | 0 <= i < j < |ids| ensures ids[i] != ids[j] {
      if j < Max(0, n) {
        AgentIdInjective(Ground, i + 1, Ground, j + 1);
      } else if i < Max(0, n) {
        assert ops[i] == LegacyGround(i) && ops[j] == LegacyForklift(j - Max(0, n));
        AgentIdInjective(Ground, i + 1, Forklift, j - Max(0, n) + 1);
      } else {
        AgentIdInjective(Forklift, i - Max(0, n) + 1, Forklift, j - Max(0, n) + 1);
      }
    }
  }
}
