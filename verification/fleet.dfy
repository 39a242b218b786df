/**
 * The agent fleet as the configurators edit it.  The editors show groups
 * ("slots") of identical agents with a count; the configuration stores one
 * entry per agent.  Expanding a slot emits `count` copies of its agent;
 * loading a stored fleet groups equal agents back together in order of
 * first occurrence.  The desktop configurator groups by the priorities as a
 * set of pairs, the browser editor by their JSON text, which also depends
 * on the order the work areas were entered in.
 */
module Fleet {
  import opened Wrappers
  import opened Seqs
  import opened Dicts

  /** One stored agent: type, capacity, discharge time and work-area priorities. */
  datatype Agent = Agent(kind: string, capacity: int, discharge: int, priorities: Dict<string, int>)

  /** A priority row of the editor: a work area (empty when none is chosen) and its priority. */
  datatype Row = Row(wa: string, priority: int)

  /** A group as the editor holds it: `count` agents sharing the settings and priority rows. */
  datatype Slot = Slot(kind: string, count: int, capacity: int, discharge: int, rows: seq<Row>)

  /** A group as loading produces it: the agent's settings and how many agents share them. */
  datatype Group = Group(kind: string, count: nat, capacity: int, discharge: int, priorities: Dict<string, int>)

  // ---------------------------------------------------------------------
  // Expanding slots into agents
  // ---------------------------------------------------------------------

  /**
   * The priorities of a slot's rows: a later row for the same work area
   * overwrites the earlier one, keeping its position; with `dropEmpty`
   * rows without a work area are skipped.
   */
  function PrioritiesOf(rows: seq<Row>, dropEmpty: bool): (d: Dict<string, int>)
    ensures forall w :: w in d.vals <==> exists i :: 0 <= i < |rows| && rows[i].wa == w && !(dropEmpty && w == "")
  {
    if |rows| == 0 then Empty()
    else
      var prev := PrioritiesOf(rows[..|rows| - 1], dropEmpty);
      var r := rows[|rows| - 1];
      assert forall i :: 0 <= i < |rows| - 1 ==> rows[..|rows| - 1][i] == rows[i];
      if dropEmpty && r.wa == "" then prev else Set(prev, r.wa, r.priority)
  }

  /** The priority of a work area is the one on the last row naming it. */
  lemma {:induction false} PrioritiesLastWins(rows: seq<Row>, dropEmpty: bool, i: nat)
    requires i < |rows| && !(dropEmpty && rows[i].wa == "") && LastFor(rows, i)
    ensures rows[i].wa in PrioritiesOf(rows, dropEmpty).vals
    ensures PrioritiesOf(rows, dropEmpty).vals[rows[i].wa] == rows[i].priority
  {
    var init := rows[..|rows| - 1];
    var r := rows[|rows| - 1];
    if i < |rows| - 1 {
      assert init[i] == rows[i];
      assert LastFor(init, i) by {
        forall j | i < j < |init| ensures init[j].wa != init[i].wa {
          assert init[j] == rows[j];
        }
      }
      PrioritiesLastWins(init, dropEmpty, i);
      assert r.wa != rows[i].wa;
    }
  }

  /** Row `i` is the last one naming its work area. */
  predicate LastFor(rows: seq<Row>, i: nat)
    requires i < |rows|
  {
    forall j :: i < j < |rows| ==> rows[j].wa != rows[i].wa
  }

  /** The agent every copy of a slot stands for. */
  function SlotAgent(s: Slot, dropEmpty: bool): Agent
  {
    Agent(s.kind, s.capacity, s.discharge, PrioritiesOf(s.rows, dropEmpty))
  }

  /** `n` copies of an agent; none for a count that is not positive, as `range(n)` and `i < n` give. */
  function Copies(a: Agent, n: int): (r: seq<Agent>)
    ensures |r| == if n > 0 then n else 0
    ensures forall i :: 0 <= i < |r| ==> r[i] == a
  {
    if n <= 0 then [] else [a] + Copies(a, n - 1)
  }

  /** The number of agents the slots stand for. */
  function SlotTotal(slots: seq<Slot>): nat
  {
    if |slots| == 0 then 0 else (if slots[0].count > 0 then slots[0].count else 0) + SlotTotal(slots[1..])
  }

  /**
   * `_convertir_agent_fleet_a_agent_types` (with `dropEmpty` false) and the
   * loop of `serializeFleet` (with `dropEmpty` true): every slot's copies,
   * slot after slot.
   */
  function Expand(slots: seq<Slot>, dropEmpty: bool): (r: seq<Agent>)
    ensures |r| == SlotTotal(slots)
  {
    if |slots| == 0 then []
    else Copies(SlotAgent(slots[0], dropEmpty), slots[0].count) + Expand(slots[1..], dropEmpty)
  }

  /** Every expanded agent is the agent of one of the slots. */
  lemma {:induction false} ExpandMembers(slots: seq<Slot>, dropEmpty: bool)
    ensures forall a :: a in Expand(slots, dropEmpty) ==> exists k :: 0 <= k < |slots| && a == SlotAgent(slots[k], dropEmpty)
  {
    if |slots| > 0 {
      ExpandMembers(slots[1..], dropEmpty);
      var head := Copies(SlotAgent(slots[0], dropEmpty), slots[0].count);
      forall a | a in Expand(slots, dropEmpty) ensures exists k :: 0 <= k < |slots| && a == SlotAgent(slots[k], dropEmpty) {
        if a in head {
          assert a == SlotAgent(slots[0], dropEmpty);
        } else {
          assert a in Expand(slots[1..], dropEmpty);
          var k :| 0 <= k < |slots| - 1 && a == SlotAgent(slots[1..][k], dropEmpty);
          assert slots[1..][k] == slots[k + 1];
        }
      }
    }
  }

  /** The slots with the agent type of the container they sit in. */
  function OfKind(slots: seq<Slot>, kind: string): (r: seq<Slot>)
    ensures |r| == |slots|
    ensures forall i :: 0 <= i < |r| ==> r[i] == slots[i].(kind := kind)
  {
    seq(|slots|, i requires 0 <= i < |slots| => slots[i].(kind := kind))
  }

  /**
   * `serializeFleet`: the ground-operator groups, then the forklift groups,
   * each expanded, rows without a work area left out.
   */
  function SerializeFleet(ground: seq<Slot>, forklifts: seq<Slot>): (r: seq<Agent>)
    ensures |r| == SlotTotal(ground) + SlotTotal(forklifts)
    ensures forall x :: x in r ==> (x.kind == "GroundOperator" || x.kind == "Forklift") && "" !in x.priorities.vals
    ensures r == Expand(OfKind(ground, "GroundOperator"), true) + Expand(OfKind(forklifts, "Forklift"), true)
  {
    var a, b := OfKind(ground, "GroundOperator"), OfKind(forklifts, "Forklift");
    SlotTotalKind(ground, "GroundOperator");
    SlotTotalKind(forklifts, "Forklift");
    ExpandMembers(a, true);
    ExpandMembers(b, true);
    Expand(a, true) + Expand(b, true)
  }

  lemma {:induction false} SlotTotalKind(slots: seq<Slot>, kind: string)
    ensures SlotTotal(OfKind(slots, kind)) == SlotTotal(slots)
  {
    if |slots| > 0 {
      SlotTotalKind(slots[1..], kind);
      assert OfKind(slots, kind)[1..] == OfKind(slots[1..], kind);
    }
  }

  // ---------------------------------------------------------------------
  // Grouping agents
  // ---------------------------------------------------------------------

  /** The agent a group stands for. */
  function AgentOf(g: Group): Agent
  {
    Agent(g.kind, g.capacity, g.discharge, g.priorities)
  }

  /** The first group whose agent has grouping key `k`. */
  function Find<K(==)>(acc: seq<Group>, k: K, key: Agent -> K): (r: Option<nat>)
    ensures r.Some? ==> r.value < |acc| && key(AgentOf(acc[r.value])) == k
    ensures r.Some? ==> forall j :: 0 <= j < r.value ==> key(AgentOf(acc[j])) != k
    ensures r.None? <==> forall j :: 0 <= j < |acc| ==> key(AgentOf(acc[j])) != k
  {
    if |acc| == 0 then None
    else if key(AgentOf(acc[0])) == k then Some(0)
    else
      var r := Find(acc[1..], k, key);
      if r.Some? then Some(r.value + 1) else None
  }

  /** One agent added: its group's count goes up, or a new group with count 1 is appended. */
  function AddAgent<K(==)>(acc: seq<Group>, a: Agent, key: Agent -> K): seq<Group>
  {
    match Find(acc, key(a), key)
    case Some(i) => acc[i := acc[i].(count := acc[i].count + 1)]
    case None => acc + [Group(a.kind, 1, a.capacity, a.discharge, a.priorities)]
  }

  /** The agents added one after the other to the groups `acc`. */
  function GroupFrom<K(==)>(acc: seq<Group>, agents: seq<Agent>, key: Agent -> K): seq<Group>
    decreases |agents|
  {
    if |agents| == 0 then acc else GroupFrom(AddAgent(acc, agents[0], key), agents[1..], key)
  }

  /** The number of agents the groups stand for. */
  function GroupTotal(gs: seq<Group>): nat
  {
    if |gs| == 0 then 0 else gs[0].count + GroupTotal(gs[1..])
  }

  lemma {:induction false} GroupTotalBump(gs: seq<Group>, i: nat)
    requires i < |gs|
    ensures GroupTotal(gs[i := gs[i].(count := gs[i].count + 1)]) == GroupTotal(gs) + 1
  {
    if i > 0 {
      GroupTotalBump(gs[1..], i - 1);
      assert gs[i := gs[i].(count := gs[i].count + 1)][1..] == gs[1..][i - 1 := gs[i].(count := gs[i].count + 1)];
    }
  }

  lemma {:induction false} GroupTotalSnoc(gs: seq<Group>, g: Group)
    ensures GroupTotal(gs + [g]) == GroupTotal(gs) + g.count
  {
    if |gs| > 0 {
      GroupTotalSnoc(gs[1..], g);
      assert (gs + [g])[1..] == gs[1..] + [g];
    }
  }

  /** Grouping loses no agent: the counts grow by exactly the number of agents added. */
  lemma {:induction false} GroupFromCounts<K>(acc: seq<Group>, agents: seq<Agent>, key: Agent -> K)
    ensures GroupTotal(GroupFrom(acc, agents, key)) == GroupTotal(acc) + |agents|
    decreases |agents|
  {
    if |agents| > 0 {
      AddAgentCount(acc, agents[0], key);
      GroupFromCounts(AddAgent(acc, agents[0], key), agents[1..], key);
    }
  }

  lemma AddAgentCount<K>(acc: seq<Group>, a: Agent, key: Agent -> K)
    ensures GroupTotal(AddAgent(acc, a, key)) == GroupTotal(acc) + 1
  {
    var f := Find(acc, key(a), key);
    if f.Some? {
      GroupTotalBump(acc, f.value);
    } else {
      GroupTotalSnoc(acc, Group(a.kind, 1, a.capacity, a.discharge, a.priorities));
    }
  }

  /** No two groups share a key. */
  predicate DistinctKeys<K(==)>(gs: seq<Group>, key: Agent -> K)
  {
    forall i, j :: 0 <= i < j < |gs| ==> key(AgentOf(gs[i])) != key(AgentOf(gs[j]))
  }

  /** Grouping keeps the groups' keys distinct. */
  lemma {:induction false} GroupFromDistinct<K>(acc: seq<Group>, agents: seq<Agent>, key: Agent -> K)
    requires DistinctKeys(acc, key)
    ensures DistinctKeys(GroupFrom(acc, agents, key), key)
    decreases |agents|
  {
    if |agents| > 0 {
      var a := agents[0];
      var next := AddAgent(acc, a, key);
      assert forall j :: 0 <= j < |next| ==> key(AgentOf(next[j])) == (if j < |acc| then key(AgentOf(acc[j])) else key(a));
      GroupFromDistinct(next, agents[1..], key);
    }
  }

  /** Every agent's key has a group, and every group's key comes from the accumulated groups or an agent. */
  lemma {:induction false} GroupFromCovers<K>(acc: seq<Group>, agents: seq<Agent>, key: Agent -> K)
    ensures forall a :: a in agents ==> exists j :: 0 <= j < |GroupFrom(acc, agents, key)| && key(AgentOf(GroupFrom(acc, agents, key)[j])) == key(a)
    ensures |GroupFrom(acc, agents, key)| >= |acc|
    ensures forall j :: 0 <= j < |acc| ==> key(AgentOf(GroupFrom(acc, agents, key)[j])) == key(AgentOf(acc[j]))
    decreases |agents|
  {
    if |agents| > 0 {
      var a := agents[0];
      var next := AddAgent(acc, a, key);
      assert forall j :: 0 <= j < |acc| ==> key(AgentOf(next[j])) == key(AgentOf(acc[j]));
      var f := Find(acc, key(a), key);
      var w := if f.Some? then f.value else |acc|;
      assert 0 <= w < |next| && key(AgentOf(next[w])) == key(a);
      GroupFromCovers(next, agents[1..], key);
      var out := GroupFrom(next, agents[1..], key);
      assert GroupFrom(acc, agents, key) == out;
      assert key(AgentOf(out[w])) == key(a);
      forall x | x in agents ensures exists j :: 0 <= j < |out| && key(AgentOf(out[j])) == key(x) {
        if x != a {
          assert x in agents[1..];
        }
      }
    }
  }

  lemma {:induction false} GroupFromAppend<K>(acc: seq<Group>, a: seq<Agent>, b: seq<Agent>, key: Agent -> K)
    ensures GroupFrom(acc, a + b, key) == GroupFrom(GroupFrom(acc, a, key), b, key)
    decreases |a|
  {
    if |a| == 0 {
      assert a + b == b;
    } else {
      assert (a + b)[0] == a[0] && (a + b)[1..] == a[1..] + b;
      assert GroupFrom(acc, a + b, key) == GroupFrom(AddAgent(acc, a[0], key), a[1..] + b, key);
      assert GroupFrom(acc, a, key) == GroupFrom(AddAgent(acc, a[0], key), a[1..], key);
      GroupFromAppend(AddAgent(acc, a[0], key), a[1..], b, key);
    }
  }

  /** A key that only the last group carries is found there. */
  lemma {:induction false} FindLast<K>(acc: seq<Group>, g: Group, key: Agent -> K)
    requires forall j :: 0 <= j < |acc| ==> key(AgentOf(acc[j])) != key(AgentOf(g))
    ensures Find(acc + [g], key(AgentOf(g)), key) == Some(|acc|)
  {
    if |acc| > 0 {
      assert (acc + [g])[1..] == acc[1..] + [g];
      FindLast(acc[1..], g, key);
    }
  }

  /** Further copies of the last group's agent only raise its count. */
  lemma {:induction false} CopiesJoinLast<K>(acc: seq<Group>, g: Group, m: int, key: Agent -> K)
    requires forall j :: 0 <= j < |acc| ==> key(AgentOf(acc[j])) != key(AgentOf(g))
    ensures GroupFrom(acc + [g], Copies(AgentOf(g), m), key) == acc + [g.(count := g.count + if m > 0 then m else 0)]
    decreases if m > 0 then m else 0
  {
    if m > 0 {
      var g' := g.(count := g.count + 1);
      assert Copies(AgentOf(g), m)[1..] == Copies(AgentOf(g), m - 1);
      AddCopyLast(acc, g, key);
      assert GroupFrom(acc + [g], Copies(AgentOf(g), m), key) == GroupFrom(acc + [g'], Copies(AgentOf(g), m - 1), key);
      assert AgentOf(g') == AgentOf(g);
      CopiesJoinLast(acc, g', m - 1, key);
    }
  }

  /** One more copy of the last group's agent raises its count by one. */
  lemma AddCopyLast<K>(acc: seq<Group>, g: Group, key: Agent -> K)
    requires forall j :: 0 <= j < |acc| ==> key(AgentOf(acc[j])) != key(AgentOf(g))
    ensures AddAgent(acc + [g], AgentOf(g), key) == acc + [g.(count := g.count + 1)]
  {
    FindLast(acc, g, key);
  }

  /** The group a slot becomes when its agents are loaded back. */
  function SlotGroup(s: Slot, dropEmpty: bool): (g: Group)
    ensures AgentOf(g) == SlotAgent(s, dropEmpty)
  {
    Group(s.kind, if s.count > 0 then s.count else 0, s.capacity, s.discharge, PrioritiesOf(s.rows, dropEmpty))
  }

  function SlotGroups(slots: seq<Slot>, dropEmpty: bool): (r: seq<Group>)
    ensures |r| == |slots|
    ensures forall i :: 0 <= i < |r| ==> r[i] == SlotGroup(slots[i], dropEmpty)
  {
    seq(|slots|, i requires 0 <= i < |slots| => SlotGroup(slots[i], dropEmpty))
  }

  /** Slots that grouping can tell apart: non-empty, with pairwise different agents under `key`. */
  predicate Separable<K(==)>(slots: seq<Slot>, dropEmpty: bool, key: Agent -> K)
  {
    && (forall i :: 0 <= i < |slots| ==> slots[i].count > 0)
    && (forall i, j :: 0 <= i < j < |slots| ==> key(SlotAgent(slots[i], dropEmpty)) != key(SlotAgent(slots[j], dropEmpty)))
  }

  /** A slot's copies, added to groups not holding its agent, become one group of `count` agents. */
  lemma {:induction false} SlotCopiesGroup<K>(acc: seq<Group>, s: Slot, dropEmpty: bool, key: Agent -> K)
    requires s.count > 0
    requires forall j :: 0 <= j < |acc| ==> key(AgentOf(acc[j])) != key(SlotAgent(s, dropEmpty))
    ensures GroupFrom(acc, Copies(SlotAgent(s, dropEmpty), s.count), key) == acc + [SlotGroup(s, dropEmpty)]
  {
    var a := SlotAgent(s, dropEmpty);
    var copies := Copies(a, s.count);
    assert copies == [a] + Copies(a, s.count - 1);
    var g1 := Group(a.kind, 1, a.capacity, a.discharge, a.priorities);
    assert AddAgent(acc, a, key) == acc + [g1];
    assert GroupFrom(acc, copies, key) == GroupFrom(acc + [g1], Copies(a, s.count - 1), key);
    CopiesJoinLast(acc, g1, s.count - 1, key);
  }

  /** Separable slots stay separable without their first, and the first's group joins the accumulated ones. */
  lemma {:induction false} RestSeparable<K>(acc: seq<Group>, slots: seq<Slot>, dropEmpty: bool, key: Agent -> K)
    requires |slots| > 0 && Separable(slots, dropEmpty, key)
    requires forall j, i :: 0 <= j < |acc| && 0 <= i < |slots| ==> key(AgentOf(acc[j])) != key(SlotAgent(slots[i], dropEmpty))
    ensures Separable(slots[1..], dropEmpty, key)
    ensures var acc' := acc + [SlotGroup(slots[0], dropEmpty)];
      forall j, i :: 0 <= j < |acc'| && 0 <= i < |slots[1..]| ==> key(AgentOf(acc'[j])) != key(SlotAgent(slots[1..][i], dropEmpty))
  {
    var acc' := acc + [SlotGroup(slots[0], dropEmpty)];
    var rest := slots[1..];
    assert forall i :: 0 <= i < |rest| ==> rest[i] == slots[i + 1];
    forall i, j | 0 <= i < j < |rest| ensures key(SlotAgent(rest[i], dropEmpty)) != key(SlotAgent(rest[j], dropEmpty)) {
      assert rest[i] == slots[i + 1] && rest[j] == slots[j + 1];
    }
    forall j, i | 0 <= j < |acc'| && 0 <= i < |rest| ensures key(AgentOf(acc'[j])) != key(SlotAgent(rest[i], dropEmpty)) {
      assert rest[i] == slots[i + 1];
      if j == |acc| {
        assert AgentOf(acc'[j]) == SlotAgent(slots[0], dropEmpty);
      } else {
        assert acc'[j] == acc[j];
      }
    }
  }

  lemma SlotGroupsCons(slots: seq<Slot>, dropEmpty: bool)
    requires |slots| > 0
    ensures SlotGroups(slots, dropEmpty) == [SlotGroup(slots[0], dropEmpty)] + SlotGroups(slots[1..], dropEmpty)
  {
  }

  lemma {:induction false} ExpandThenGroupFrom<K>(acc: seq<Group>, slots: seq<Slot>, dropEmpty: bool, key: Agent -> K)
    requires Separable(slots, dropEmpty, key)
    requires forall j, i :: 0 <= j < |acc| && 0 <= i < |slots| ==> key(AgentOf(acc[j])) != key(SlotAgent(slots[i], dropEmpty))
    ensures GroupFrom(acc, Expand(slots, dropEmpty), key) == acc + SlotGroups(slots, dropEmpty)
    decreases |slots|
  {
    if |slots| == 0 {
      assert Expand(slots, dropEmpty) == [] && SlotGroups(slots, dropEmpty) == [];
      assert acc + [] == acc;
    } else {
      var s := slots[0];
      var copies := Copies(SlotAgent(s, dropEmpty), s.count);
      var rest := slots[1..];
      assert Expand(slots, dropEmpty) == copies + Expand(rest, dropEmpty);
      GroupFromAppend(acc, copies, Expand(rest, dropEmpty), key);
      SlotCopiesGroup(acc, s, dropEmpty, key);
      RestSeparable(acc, slots, dropEmpty, key);
      var acc' := acc + [SlotGroup(s, dropEmpty)];
      ExpandThenGroupFrom(acc', rest, dropEmpty, key);
      SlotGroupsCons(slots, dropEmpty);
      ConcatAssoc(acc, [SlotGroup(s, dropEmpty)], SlotGroups(rest, dropEmpty));
    }
  }

  // ---------------------------------------------------------------------
  // The two grouping keys
  // ---------------------------------------------------------------------

  /** The priorities as (work area, priority) pairs in the order they were entered. */
  function Items(d: Dict<string, int>, i: nat): (r: seq<(string, int)>)
    requires i <= |d.keys|
    ensures |r| == |d.keys| - i
    ensures forall j :: 0 <= j < |r| ==> d.keys[i + j] in d.vals && r[j] == (d.keys[i + j], d.vals[d.keys[i + j]])
    decreases |d.keys| - i
  {
    if i == |d.keys| then []
    else
      HasIffKey(d, d.keys[i]);
      [(d.keys[i], d.vals[d.keys[i]])] + Items(d, i + 1)
  }

  /**
   * The desktop configurator's key: type, capacity, discharge time and the
   * sorted priority pairs.  Sorted pairs with distinct work areas are equal
   * exactly when the priority maps are, so the map stands for them.
   */
  function PyKey(a: Agent): (string, int, int, map<string, int>)
  {
    (a.kind, a.capacity, a.discharge, a.priorities.vals)
  }

  /** The browser editor's key: the same fields with the priorities' JSON text, which follows entry order. */
  function JsKey(a: Agent): (string, int, int, seq<(string, int)>)
  {
    (a.kind, a.capacity, a.discharge, Items(a.priorities, 0))
  }

  /** A stored agent as `_agrupar_agentes_para_ui` reads it, missing fields defaulted. */
  datatype StoredAgent = StoredAgent(kind: Option<string>, capacity: Option<int>, discharge: Option<int>,
                                     priorities: Option<Dict<string, int>>)

  function WithDefaults(s: StoredAgent): (a: Agent)
    ensures a.kind == s.kind.GetOr("GroundOperator") && a.capacity == s.capacity.GetOr(150)
    ensures a.discharge == s.discharge.GetOr(5) && (s.priorities.None? ==> a.priorities.keys == [])
  {
    Agent(s.kind.GetOr("GroundOperator"), s.capacity.GetOr(150), s.discharge.GetOr(5), s.priorities.GetOr(Empty()))
  }

  function AllWithDefaults(ss: seq<StoredAgent>): (r: seq<Agent>)
    ensures |r| == |ss| && forall i :: 0 <= i < |ss| ==> r[i] == WithDefaults(ss[i])
  {
    seq(|ss|, i requires 0 <= i < |ss| => WithDefaults(ss[i]))
  }

  /** `_agrupar_agentes_para_ui`: the groups in order of first occurrence, counts adding up to the agents. */
  function GroupForUi(stored: seq<StoredAgent>): (r: seq<Group>)
    ensures GroupTotal(r) == |stored|
    ensures DistinctKeys(r, PyKey)
  {
    GroupFromCounts([], AllWithDefaults(stored), PyKey);
    GroupFromDistinct([], AllWithDefaults(stored), PyKey);
    GroupFrom([], AllWithDefaults(stored), PyKey)
  }

  /** `loadFleet`'s grouping: the same, keyed by the priorities' JSON text. */
  function LoadFleetGroups(agents: seq<Agent>): (r: seq<Group>)
    ensures GroupTotal(r) == |agents|
    ensures DistinctKeys(r, JsKey)
  {
    GroupFromCounts([], agents, JsKey);
    GroupFromDistinct([], agents, JsKey);
    GroupFrom([], agents, JsKey)
  }

  /** Expanding separable slots and grouping the agents again gives back one group per slot, counts intact. */
  lemma ConvertThenGroup(slots: seq<Slot>)
    requires Separable(slots, false, PyKey)
    ensures GroupFrom([], Expand(slots, false), PyKey) == SlotGroups(slots, false)
  {
    ExpandThenGroupFrom([], slots, false, PyKey);
  }

  /** The same round trip for the browser editor's serialise and load. */
  lemma SerializeThenLoad(slots: seq<Slot>)
    requires Separable(slots, true, JsKey)
    ensures LoadFleetGroups(Expand(slots, true)) == SlotGroups(slots, true)
  {
    ExpandThenGroupFrom([], slots, true, JsKey);
  }

  /**
   * The keys differ: two agents whose priorities hold the same pairs entered
   * in a different order form one group on the desktop and two in the browser.
   */
  lemma EntryOrderSplitsBrowserGroups()
    ensures var p := Set(Set(Empty(), "A", 1), "B", 2);
      var q := Set(Set(Empty(), "B", 2), "A", 1);
      var a := Agent("GroundOperator", 150, 5, p);
      var b := Agent("GroundOperator", 150, 5, q);
      p.vals == q.vals && |GroupFrom([], [a, b], PyKey)| == 1 && |GroupFrom([], [a, b], JsKey)| == 2
  {
    var p := Set(Set(Empty(), "A", 1), "B", 2);
    var q := Set(Set(Empty(), "B", 2), "A", 1);
    SameEntriesOtherOrder(p, q);
    var a := Agent("GroundOperator", 150, 5, p);
    var b := Agent("GroundOperator", 150, 5, q);
    assert JsKey(a).3[0] != JsKey(b).3[0];
    SameKeyOneGroup(a, b, PyKey);
    OtherKeysTwoGroups(a, b, JsKey);
  }

  lemma SameEntriesOtherOrder(p: Dict<string, int>, q: Dict<string, int>)
    requires p == Set(Set(Empty(), "A", 1), "B", 2) && q == Set(Set(Empty(), "B", 2), "A", 1)
    ensures p.vals == q.vals && Items(p, 0)[0] == ("A", 1) && Items(q, 0)[0] == ("B", 2)
  {
    assert p.keys == ["A", "B"] && q.keys == ["B", "A"];
  }

  /** Two agents with the same grouping key form one group. */
  lemma SameKeyOneGroup<K>(a: Agent, b: Agent, key: Agent -> K)
    requires key(a) == key(b)
    ensures |GroupFrom([], [a, b], key)| == 1
  {
    var g1 := AddAgent([], a, key);
    assert [a, b][1..] == [b] && [b][1..] == [];
    assert GroupFrom([], [a, b], key) == GroupFrom(g1, [b], key);
    assert GroupFrom(g1, [b], key) == AddAgent(g1, b, key);
    assert |g1| == 1 && AgentOf(g1[0]) == a;
  }

  /** Two agents with different grouping keys form two groups. */
  lemma OtherKeysTwoGroups<K>(a: Agent, b: Agent, key: Agent -> K)
    requires key(a) != key(b)
    ensures |GroupFrom([], [a, b], key)| == 2
  {
    var g1 := AddAgent([], a, key);
    assert [a, b][1..] == [b] && [b][1..] == [];
    assert GroupFrom([], [a, b], key) == GroupFrom(g1, [b], key);
    assert GroupFrom(g1, [b], key) == AddAgent(g1, b, key);
    assert |g1| == 1 && AgentOf(g1[0]) == a;
  }

  // ---------------------------------------------------------------------
  // The editor's group list and dropdowns
  // ---------------------------------------------------------------------

  /** A group of the editor with its position number. */
  datatype Numbered = Numbered(index: int, slot: Slot)

  /** `renumberGroups`: positions 0, 1, ... in list order. */
  function Renumber(gs: seq<Numbered>): (r: seq<Numbered>)
    ensures |r| == |gs|
    ensures forall i :: 0 <= i < |r| ==> r[i] == Numbered(i, gs[i].slot)
  {
    seq(|gs|, i requires 0 <= i < |gs| => Numbered(i, gs[i].slot))
  }

  /** `removeGroup`: the groups numbered differently from `index`, renumbered. */
  function RemoveGroup(gs: seq<Numbered>, index: int): (r: seq<Numbered>)
    ensures |r| == Count(gs, (g: Numbered) => g.index != index)
    ensures forall i :: 0 <= i < |r| ==> r[i].index == i
  {
    Renumber(Filter(gs, (g: Numbered) => g.index != index))
  }

  /** The groups are numbered by position. */
  predicate NumberedInOrder(gs: seq<Numbered>)
  {
    forall i :: 0 <= i < |gs| ==> gs[i].index == i
  }

  lemma {:induction false} FilterSkipsOne(gs: seq<Numbered>, index: int, base: int)
    requires forall i :: 0 <= i < |gs| ==> gs[i].index == base + i
    requires base <= index < base + |gs|
    ensures Filter(gs, (g: Numbered) => g.index != index) == gs[..index - base] + gs[index - base + 1..]
    decreases |gs|
  {
    var p := (g: Numbered) => g.index != index;
    if index == base {
      FilterAll(gs[1..], p);
      assert gs == [gs[0]] + gs[1..];
    } else {
      FilterSkipsOne(gs[1..], index, base + 1);
      assert gs[..index - base] == [gs[0]] + gs[1..][..index - base - 1];
      assert gs[index - base + 1..] == gs[1..][index - base..];
    }
  }

  lemma {:induction false} FilterAll(gs: seq<Numbered>, p: Numbered -> bool)
    requires forall i :: 0 <= i < |gs| ==> p(gs[i])
    ensures Filter(gs, p) == gs
    decreases |gs|
  {
    if |gs| > 0 {
      FilterAll(gs[1..], p);
      assert gs == [gs[0]] + gs[1..];
    }
  }

  /** Removing a group from a list numbered in order drops exactly that group and shifts the later ones down. */
  lemma RemoveGroupShifts(gs: seq<Numbered>, index: int)
    requires NumberedInOrder(gs) && 0 <= index < |gs|
    ensures var r := RemoveGroup(gs, index);
      && |r| == |gs| - 1
      && (forall i :: 0 <= i < index ==> r[i] == gs[i])
      && (forall i :: index <= i < |r| ==> r[i] == Numbered(i, gs[i + 1].slot))
  {
    FilterSkipsOne(gs, index, 0);
  }

  /**
   * Refreshing a work-area dropdown: the previous choice survives only if it
   * is still a work area; otherwise the empty option is selected.
   */
  function RefreshSelection(current: string, workAreas: seq<string>): (r: string)
    ensures r == "" || r in workAreas
    ensures r == current <==> current == "" || current in workAreas
  {
    if current != "" && current in workAreas then current else ""
  }
}
