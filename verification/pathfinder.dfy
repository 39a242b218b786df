/**
 A* search on a boolean walkability matrix (`True` = walkable), with
 8-directional moves, straight cost 1 and diagonal cost sqrt(2), and the
 octile-distance heuristic. Open-list entries are `(f, counter, cell)` and
 the entry with the smallest `(f, counter)` is expanded first.
 */
module Pathfinder {
  import opened Wrappers
  import opened Grid
  import opened Seqs

  const CostStraight: real := 1.0
  /** `math.sqrt(2)`, as the double it evaluates to. */
  const CostDiagonal: real := 1.4142135623730951

  datatype RawPathfinder = RawPathfinder(matrix: seq<seq<bool>>)

  /** A constructed pathfinder: a non-empty matrix with a non-empty first row. */
  type Pathfinder = p: RawPathfinder | Rectangular(p.matrix) && |p.matrix[0]| > 0
    witness RawPathfinder([[true]])

  function Width(p: Pathfinder): nat { |p.matrix[0]| }
  function Height(p: Pathfinder): nat { |p.matrix| }

  /** The constructor: an empty matrix or an empty first row is an error. */
  function New(m: seq<seq<bool>>): (r: Result<Pathfinder>)
    requires forall y :: 0 <= y < |m| ==> |m[y]| == |m[0]|
    ensures r.Ok? <==> |m| > 0 && |m[0]| > 0
    ensures r.Ok? ==> r.value.matrix == m && Width(r.value) == |m[0]| && Height(r.value) == |m|
  {
    if |m| == 0 || |m[0]| == 0 then Err("collision_matrix cannot be empty")
    else Ok(RawPathfinder(m))
  }

  /** Out-of-bounds cells are blocked; in-bounds cells read the matrix. */
  function IsWalkable(p: Pathfinder, c: Cell): (r: bool)
    ensures r ==> InRect(c, Width(p), Height(p))
    ensures InRect(c, Width(p), Height(p)) ==> (r <==> p.matrix[c.y][c.x])
  {
    if c.x < 0 || c.x >= Width(p) then false
    else if c.y < 0 || c.y >= Height(p) then false
    else p.matrix[c.y][c.x]
  }

  datatype Move = Move(dx: int, dy: int, cost: real)

  /** N, E, S, W, then NE, SE, SW, NW. */
  const Directions: seq<Move> := [
    Move(0, -1, CostStraight), Move(1, 0, CostStraight), Move(0, 1, CostStraight), Move(-1, 0, CostStraight),
    Move(1, -1, CostDiagonal), Move(1, 1, CostDiagonal), Move(-1, 1, CostDiagonal), Move(-1, -1, CostDiagonal)
  ]

  function MoveCost(a: Cell, b: Cell): real
  {
    if Diagonal(a, b) then CostDiagonal else CostStraight
  }

  function Target(pos: Cell, d: Move): Cell
  {
    Cell(pos.x + d.dx, pos.y + d.dy)
  }

  predicate HasCell(r: seq<(Cell, real)>, c: Cell)
  {
    exists i :: 0 <= i < |r| && r[i].0 == c
  }

  lemma DirectionMove(pos: Cell, j: nat)
    requires j < |Directions|
    ensures Adjacent(pos, Target(pos, Directions[j]))
    ensures Directions[j].cost == MoveCost(pos, Target(pos, Directions[j]))
  {
  }

  /** Every entry is a walkable cell adjacent to `pos`, paired with the cost of the move. */
  ghost predicate AllMoves(p: Pathfinder, pos: Cell, r: seq<(Cell, real)>)
  {
    forall i :: 0 <= i < |r| ==> IsWalkable(p, r[i].0) && Adjacent(pos, r[i].0) && r[i].1 == MoveCost(pos, r[i].0)
  }

  /** Every walkable target of the directions from index `k` on is listed. */
  ghost predicate CoversFrom(p: Pathfinder, pos: Cell, k: nat, r: seq<(Cell, real)>)
  {
    forall j :: k <= j < |Directions| && IsWalkable(p, Target(pos, Directions[j])) ==>
      HasCell(r, Target(pos, Directions[j]))
  }

  function NeighborsFrom(p: Pathfinder, pos: Cell, k: nat): (r: seq<(Cell, real)>)
    requires k <= |Directions|
    ensures |r| <= |Directions| - k
    ensures AllMoves(p, pos, r)
    ensures CoversFrom(p, pos, k, r)
    decreases |Directions| - k
  {
    if k == |Directions| then []
    else
      var rest := NeighborsFrom(p, pos, k + 1);
      if IsWalkable(p, Target(pos, Directions[k])) then
        ConsNeighbor(p, pos, k, rest);
        [(Target(pos, Directions[k]), Directions[k].cost)] + rest
      else rest
  }

  /** Putting the walkable target of direction `k` in front keeps both facts, now from `k` on. */
  lemma ConsNeighbor(p: Pathfinder, pos: Cell, k: nat, rest: seq<(Cell, real)>)
    requires k < |Directions| && IsWalkable(p, Target(pos, Directions[k]))
    requires AllMoves(p, pos, rest) && CoversFrom(p, pos, k + 1, rest)
    ensures AllMoves(p, pos, [(Target(pos, Directions[k]), Directions[k].cost)] + rest)
    ensures CoversFrom(p, pos, k, [(Target(pos, Directions[k]), Directions[k].cost)] + rest)
  {
    var c := Target(pos, Directions[k]);
    var r := [(c, Directions[k].cost)] + rest;
    DirectionMove(pos, k);
    assert r[0].0 == c;
    forall i | 0 <= i < |rest| ensures r[i + 1] == rest[i] {
    }
    forall x | HasCell(rest, x) ensures HasCell(r, x) {
      var i :| 0 <= i < |rest| && rest[i].0 == x;
      assert r[i + 1].0 == x;
    }
  }

  /**
   The walkable cells among the eight surrounding ones, in direction order,
   each paired with its move cost.
   */
  function Neighbors(p: Pathfinder, pos: Cell): (r: seq<(Cell, real)>)
    ensures |r| <= 8
    ensures forall i :: 0 <= i < |r| ==>
      IsWalkable(p, r[i].0) && Adjacent(pos, r[i].0) && r[i].1 == MoveCost(pos, r[i].0)
  {
    var r := NeighborsFrom(p, pos, 0);
    assert AllMoves(p, pos, r);
    r
  }

  /** Every walkable cell at Chebyshev distance one is returned. */
  lemma NeighborsComplete(p: Pathfinder, pos: Cell, c: Cell)
    requires Adjacent(pos, c) && IsWalkable(p, c)
    ensures HasCell(Neighbors(p, pos), c)
  {
    var dx, dy := c.x - pos.x, c.y - pos.y;
    var j :=
      if dx == 0 && dy == -1 then 0
      else if dx == 1 && dy == 0 then 1
      else if dx == 0 && dy == 1 then 2
      else if dx == -1 && dy == 0 then 3
      else if dx == 1 && dy == -1 then 4
      else if dx == 1 && dy == 1 then 5
      else if dx == -1 && dy == 1 then 6
      else 7;
    assert c == Target(pos, Directions[j]);
  }

  /** Octile distance: `(dx + dy) + (sqrt(2) - 2) * min(dx, dy)`. */
  function Heuristic(a: Cell, b: Cell): (r: real)
    ensures r >= 0.0
    ensures a == b ==> r == 0.0
    ensures r <= (Manhattan(a, b) as real)
  {
    var dx := Abs(a.x - b.x);
    var dy := Abs(a.y - b.y);
    CostStraight * ((dx + dy) as real) + (CostDiagonal - 2.0 * CostStraight) * (Min(dx, dy) as real)
  }

  lemma HeuristicSymmetric(a: Cell, b: Cell)
    ensures Heuristic(a, b) == Heuristic(b, a)
  {
    assert Abs(a.x - b.x) == Abs(b.x - a.x) && Abs(a.y - b.y) == Abs(b.y - a.y);
  }

  /** Follow parent links back from `current`; return the chain root-first. */
  method ReconstructPath(cameFrom: map<Cell, Cell>, current: Cell, ghost rank: map<Cell, nat>)
    returns (path: seq<Cell>)
    requires forall k :: k in cameFrom ==> cameFrom[k] in rank
    requires forall k :: k in cameFrom && k in rank ==> rank[cameFrom[k]] < rank[k]
    ensures |path| >= 1 && path[|path| - 1] == current
    ensures path[0] !in cameFrom
    ensures forall i :: 1 <= i < |path| ==> path[i] in cameFrom && cameFrom[path[i]] == path[i - 1]
  {
    var chain := [current];
    var cur := current;
    while cur in cameFrom
      invariant |chain| >= 1 && chain[0] == current && chain[|chain| - 1] == cur
      invariant forall i :: 0 <= i < |chain| - 1 ==> chain[i] in cameFrom && cameFrom[chain[i]] == chain[i + 1]
      decreases if cur in rank then 0 else 1, if cur in rank then rank[cur] else 0
    {
      cur := cameFrom[cur];
      chain := chain + [cur];
    }
    path := Reverse(chain);
  }

  /** A path from `s` to `g`: consecutive cells are adjacent; all are walkable unless `s == g`. */
  predicate ValidPath(p: Pathfinder, path: seq<Cell>, s: Cell, g: Cell)
  {
    && |path| >= 1 && path[0] == s && path[|path| - 1] == g
    && (forall i :: 0 <= i < |path| - 1 ==> Adjacent(path[i], path[i + 1]))
    && (s != g ==> forall i :: 0 <= i < |path| ==> IsWalkable(p, path[i]))
  }

  datatype Entry = Entry(f: real, counter: int, pos: Cell)

  predicate EntryLe(a: Entry, b: Entry)
  {
    a.f < b.f || (a.f == b.f && a.counter <= b.counter)
  }

  /** `heapq.heappop`: the position of the smallest `(f, counter)`. */
  function MinIndex(open: seq<Entry>): (k: nat)
    requires |open| > 0
    ensures k < |open|
    ensures forall j :: 0 <= j < |open| ==> EntryLe(open[k], open[j])
  {
    if |open| == 1 then 0
    else
      var k := MinIndex(open[1..]) + 1;
      assert forall j :: 1 <= j < |open| ==> open[j] == open[1..][j - 1];
      if EntryLe(open[0], open[k]) then 0 else k
  }

  /** Every queued cell is walkable, has a g-score, and is the start or has a parent. */
  ghost predicate OpenOk(p: Pathfinder, start: Cell, open: seq<Entry>, g: map<Cell, real>, cameFrom: map<Cell, Cell>)
  {
    forall j :: 0 <= j < |open| ==>
      IsWalkable(p, open[j].pos) && open[j].pos in g && (open[j].pos == start || open[j].pos in cameFrom)
  }

  /** Parent links join adjacent walkable cells, and every parent is closed. */
  ghost predicate ParentsOk(p: Pathfinder, start: Cell, closed: set<Cell>, g: map<Cell, real>, cameFrom: map<Cell, Cell>)
  {
    && start !in cameFrom && start in g && IsWalkable(p, start)
    && (forall k :: k in cameFrom ==> IsWalkable(p, k) && cameFrom[k] in closed && Adjacent(cameFrom[k], k))
    && (forall c :: c in closed ==> IsWalkable(p, c) && c in g && (c == start || c in cameFrom))
  }

  /** `rank` records closing order; a closed cell was closed after its parent. */
  ghost predicate RankOk(closed: set<Cell>, rank: map<Cell, nat>, cameFrom: map<Cell, Cell>)
  {
    && rank.Keys == closed
    && (forall c :: c in rank ==> rank[c] < |closed|)
    && (forall k :: k in cameFrom && k in closed ==> cameFrom[k] in rank && rank[cameFrom[k]] < rank[k])
  }

  /** The neighbour loop of one A* iteration: relax every non-closed neighbour of `current`. */
  method Expand(p: Pathfinder, start: Cell, goal: Cell, current: Cell,
                open0: seq<Entry>, counter0: int, closed: set<Cell>,
                g0: map<Cell, real>, f0: map<Cell, real>, cameFrom0: map<Cell, Cell>, ghost rank: map<Cell, nat>)
    returns (open: seq<Entry>, counter: int, g: map<Cell, real>, f: map<Cell, real>, cameFrom: map<Cell, Cell>)
    requires start in closed && current in closed && current in g0
    requires OpenOk(p, start, open0, g0, cameFrom0)
    requires ParentsOk(p, start, closed, g0, cameFrom0)
    requires RankOk(closed, rank, cameFrom0)
    ensures OpenOk(p, start, open, g, cameFrom)
    ensures ParentsOk(p, start, closed, g, cameFrom)
    ensures RankOk(closed, rank, cameFrom)
    ensures |open| >= |open0| && open[..|open0|] == open0
    ensures forall k :: k in cameFrom && k !in cameFrom0 ==> cameFrom[k] == current
  {
    open, counter, g, f, cameFrom := open0, counter0, g0, f0, cameFrom0;
    var nbs := Neighbors(p, current);
    var i := 0;
    while i < |nbs|
      invariant 0 <= i <= |nbs| && current in g
      invariant SearchOk(p, start, closed, rank, open, g, cameFrom)
      invariant open0 <= open
      invariant forall k :: k in cameFrom && k !in cameFrom0 ==> cameFrom[k] == current
    {
      var nb := nbs[i].0;
      if nb !in closed {
        open, counter, g, f, cameFrom := Relax(p, start, goal, closed, rank, current, nb, nbs[i].1,
                                               open, counter, g, f, cameFrom);
      }
      i := i + 1;
    }
  }

  /** One neighbour of the loop: a better route to `nb` through `current` replaces the old one and is queued. */
  method Relax(p: Pathfinder, start: Cell, goal: Cell, closed: set<Cell>, ghost rank: map<Cell, nat>,
               current: Cell, nb: Cell, cost: real,
               open0: seq<Entry>, counter0: int, g0: map<Cell, real>, f0: map<Cell, real>, cameFrom0: map<Cell, Cell>)
    returns (open: seq<Entry>, counter: int, g: map<Cell, real>, f: map<Cell, real>, cameFrom: map<Cell, Cell>)
    requires start in closed && current in closed && current in g0 && nb !in closed
    requires IsWalkable(p, nb) && Adjacent(current, nb)
    requires SearchOk(p, start, closed, rank, open0, g0, cameFrom0)
    ensures current in g && SearchOk(p, start, closed, rank, open, g, cameFrom)
    ensures open0 <= open
    ensures forall k :: k in cameFrom && k !in cameFrom0 ==> cameFrom[k] == current
    ensures forall k :: k in cameFrom0 ==> k in cameFrom && (cameFrom[k] == cameFrom0[k] || cameFrom[k] == current)
  {
    open, counter, g, f, cameFrom := open0, counter0, g0, f0, cameFrom0;
    var tentative := g[current] + cost;
    if nb !in g || tentative < g[nb] {
      var e := Entry(tentative + Heuristic(nb, goal), counter, nb);
      RelaxKeeps(p, start, closed, rank, open, g, cameFrom, current, nb, tentative, e);
      cameFrom := cameFrom[nb := current];
      g := g[nb := tentative];
      f := f[nb := e.f];
      open := open + [e];
      counter := counter + 1;
    }
  }

  /** Relaxing a non-closed walkable neighbour of a closed cell keeps the search invariants. */
  lemma RelaxKeeps(p: Pathfinder, start: Cell, closed: set<Cell>, rank: map<Cell, nat>, open: seq<Entry>,
                   g: map<Cell, real>, cameFrom: map<Cell, Cell>, current: Cell, nb: Cell, t: real, e: Entry)
    requires start in closed && current in closed && nb !in closed && e.pos == nb
    requires IsWalkable(p, nb) && Adjacent(current, nb)
    requires OpenOk(p, start, open, g, cameFrom)
    requires ParentsOk(p, start, closed, g, cameFrom)
    requires RankOk(closed, rank, cameFrom)
    ensures SearchOk(p, start, closed, rank, open + [e], g[nb := t], cameFrom[nb := current])
  {
    RelaxKeepsOpen(p, start, open, g, cameFrom, current, nb, t, e);
    RelaxKeepsParents(p, start, closed, g, cameFrom, current, nb, t);
    RelaxKeepsRank(closed, rank, cameFrom, current, nb);
  }

  lemma RelaxKeepsOpen(p: Pathfinder, start: Cell, open: seq<Entry>, g: map<Cell, real>, cameFrom: map<Cell, Cell>,
                       current: Cell, nb: Cell, t: real, e: Entry)
    requires e.pos == nb && IsWalkable(p, nb)
    requires OpenOk(p, start, open, g, cameFrom)
    ensures OpenOk(p, start, open + [e], g[nb := t], cameFrom[nb := current])
  {
    var open' := open + [e];
    forall j | 0 <= j < |open'|
      ensures IsWalkable(p, open'[j].pos) && open'[j].pos in g[nb := t]
      ensures open'[j].pos == start || open'[j].pos in cameFrom[nb := current]
    {
      if j < |open| {
        assert open'[j] == open[j];
      }
    }
  }

  lemma RelaxKeepsParents(p: Pathfinder, start: Cell, closed: set<Cell>, g: map<Cell, real>, cameFrom: map<Cell, Cell>,
                          current: Cell, nb: Cell, t: real)
    requires start in closed && current in closed && nb !in closed
    requires IsWalkable(p, nb) && Adjacent(current, nb)
    requires ParentsOk(p, start, closed, g, cameFrom)
    ensures ParentsOk(p, start, closed, g[nb := t], cameFrom[nb := current])
  {
  }

  lemma RelaxKeepsRank(closed: set<Cell>, rank: map<Cell, nat>, cameFrom: map<Cell, Cell>, current: Cell, nb: Cell)
    requires current in closed && nb !in closed
    requires RankOk(closed, rank, cameFrom)
    ensures RankOk(closed, rank, cameFrom[nb := current])
  {
  }

  /** The three invariants of the search together. */
  ghost predicate SearchOk(p: Pathfinder, start: Cell, closed: set<Cell>, rank: map<Cell, nat>, open: seq<Entry>,
                           g: map<Cell, real>, cameFrom: map<Cell, Cell>)
  {
    OpenOk(p, start, open, g, cameFrom) && ParentsOk(p, start, closed, g, cameFrom) && RankOk(closed, rank, cameFrom)
  }

  /**
   `find_path`: `[start]` when `start == goal` (checked before walkability),
   None when either end is blocked or no path exists, else the A* path.
   */
  method FindPath(p: Pathfinder, start: Cell, goal: Cell) returns (r: Option<seq<Cell>>)
    ensures start == goal ==> r == Some([start])
    ensures start != goal && !(IsWalkable(p, start) && IsWalkable(p, goal)) ==> r == None
    ensures r.Some? ==> ValidPath(p, r.value, start, goal)
  {
    if start == goal {
      return Some([start]);
    }
    if !IsWalkable(p, start) {
      return None;
    }
    if !IsWalkable(p, goal) {
      return None;
    }
    var open := [Entry(0.0, 0, start)];
    var counter := 1;
    var closed: set<Cell> := {};
    var g: map<Cell, real> := map[start := 0.0];
    var f: map<Cell, real> := map[start := Heuristic(start, goal)];
    var cameFrom: map<Cell, Cell> := map[];
    ghost var rank: map<Cell, nat> := map[];
    ghost var all := AllCells(Width(p), Height(p));
    while |open| > 0
      invariant closed != {} ==> start in closed
      invariant SearchOk(p, start, closed, rank, open, g, cameFrom)
      invariant closed <= all
      decreases |all - closed|, |open|
    {
      var k := MinIndex(open);
      var current := open[k].pos;
      PopKeepsOpen(p, start, open, k, g, cameFrom);
      open := open[..k] + open[k + 1..];
      if current in closed {
        continue;
      }
      if current == goal {
        var path := PathTo(p, start, closed, g, cameFrom, rank, current);
        return Some(path);
      }
      assert current in all;
      assert all - (closed + {current}) < all - closed;
      open, counter, closed, g, f, cameFrom, rank := Close(p, start, goal, current, open, counter, closed, g, f, cameFrom, rank);
    }
    return None;
  }

  /** The goal was popped: its parent chain is the path found. */
  method PathTo(p: Pathfinder, start: Cell, closed: set<Cell>, g: map<Cell, real>, cameFrom: map<Cell, Cell>,
                ghost rank: map<Cell, nat>, goal: Cell)
    returns (path: seq<Cell>)
    requires ParentsOk(p, start, closed, g, cameFrom) && RankOk(closed, rank, cameFrom)
    requires goal != start && goal in cameFrom
    ensures ValidPath(p, path, start, goal)
  {
    path := ReconstructPath(cameFrom, goal, rank);
    ChainIsPath(p, start, closed, g, cameFrom, path);
  }

  /** Close the popped cell with the next rank, then relax its neighbours. */
  method Close(p: Pathfinder, start: Cell, goal: Cell, current: Cell,
               open0: seq<Entry>, counter0: int, closed0: set<Cell>,
               g0: map<Cell, real>, f0: map<Cell, real>, cameFrom0: map<Cell, Cell>, ghost rank0: map<Cell, nat>)
    returns (open: seq<Entry>, counter: int, closed: set<Cell>, g: map<Cell, real>, f: map<Cell, real>,
             cameFrom: map<Cell, Cell>, ghost rank: map<Cell, nat>)
    requires current !in closed0 && IsWalkable(p, current) && current in g0
    requires current == start || current in cameFrom0
    requires closed0 != {} ==> start in closed0
    requires SearchOk(p, start, closed0, rank0, open0, g0, cameFrom0)
    ensures closed == closed0 + {current} && start in closed
    ensures SearchOk(p, start, closed, rank, open, g, cameFrom)
  {
    assert current == start || start in closed0;
    CloseKeepsParents(p, start, current, closed0, g0, cameFrom0);
    CloseKeepsRank(current, closed0, cameFrom0, rank0);
    rank := rank0[current := |closed0|];
    closed := closed0 + {current};
    open, counter, g, f, cameFrom := Expand(p, start, goal, current, open0, counter0, closed, g0, f0, cameFrom0, rank);
  }

  /** Popping an entry keeps the queue invariant. */
  lemma PopKeepsOpen(p: Pathfinder, start: Cell, open: seq<Entry>, k: nat, g: map<Cell, real>, cameFrom: map<Cell, Cell>)
    requires k < |open|
    requires OpenOk(p, start, open, g, cameFrom)
    ensures OpenOk(p, start, open[..k] + open[k + 1..], g, cameFrom)
    ensures IsWalkable(p, open[k].pos) && open[k].pos in g && (open[k].pos == start || open[k].pos in cameFrom)
  {
    var rest := open[..k] + open[k + 1..];
    forall j | 0 <= j < |rest| ensures rest[j] == open[if j < k then j else j + 1] {
    }
  }

  /** Closing `current` keeps the parent-link invariant. */
  lemma CloseKeepsParents(p: Pathfinder, start: Cell, current: Cell, closed: set<Cell>,
                          g: map<Cell, real>, cameFrom: map<Cell, Cell>)
    requires IsWalkable(p, current) && current in g
    requires current == start || current in cameFrom
    requires ParentsOk(p, start, closed, g, cameFrom)
    ensures ParentsOk(p, start, closed + {current}, g, cameFrom)
  {
  }

  /** Closing `current` with the next closing rank keeps the rank invariant. */
  lemma CloseKeepsRank(current: Cell, closed: set<Cell>, cameFrom: map<Cell, Cell>, rank: map<Cell, nat>)
    requires current !in closed
    requires forall k :: k in cameFrom ==> cameFrom[k] in closed
    requires RankOk(closed, rank, cameFrom)
    ensures RankOk(closed + {current}, rank[current := |closed|], cameFrom)
  {
    var closed' := closed + {current};
    var rank' := rank[current := |closed|];
    assert |closed'| == |closed| + 1;
    assert rank'.Keys == closed';
    assert forall c :: c in rank' ==> rank'[c] < |closed'| by {
      forall c | c in rank' ensures rank'[c] < |closed'| {
        if c != current {
          assert rank'[c] == rank[c];
        }
      }
    }
    forall k | k in cameFrom && k in closed' ensures cameFrom[k] in rank' && rank'[cameFrom[k]] < rank'[k] {
      assert cameFrom[k] in closed;
      if k != current {
        assert rank'[k] == rank[k];
      }
    }
  }

  /** A parent chain ending at a cell with a parent is a valid path from the start. */
  lemma ChainIsPath(p: Pathfinder, start: Cell, closed: set<Cell>, g: map<Cell, real>,
                    cameFrom: map<Cell, Cell>, path: seq<Cell>)
    requires ParentsOk(p, start, closed, g, cameFrom)
    requires |path| >= 1 && path[|path| - 1] != start
    requires path[|path| - 1] in cameFrom
    requires path[0] !in cameFrom
    requires forall i :: 1 <= i < |path| ==> path[i] in cameFrom && cameFrom[path[i]] == path[i - 1]
    ensures ValidPath(p, path, start, path[|path| - 1])
  {
    forall i | 0 <= i < |path| ensures path[i] == start || path[i] in cameFrom {
      if i < |path| - 1 {
        assert path[i] == cameFrom[path[i + 1]];
      }
    }
  }
}
