/**
 * What the browser simulator's canvas derives from the replay state: each
 * operator's colour, the numbered picking nodes drawn along an active
 * operator's route, the scale that fits the layout into its panel, and the
 * height of the canvas panel the user drags.
 */
module WebCanvas {
  import opened Wrappers
  import opened Seqs
  import opened Sorting

  // ---------------------------------------------------------------------
  // Operator colours
  // ---------------------------------------------------------------------

  const Two31: int := 0x8000_0000
  const Two32: int := 0x1_0000_0000

  /** The twelve colours operators are drawn in. */
  const Palette: seq<(int, int, int)> := [
    (255, 50, 50), (50, 255, 50), (100, 150, 255), (255, 255, 0), (255, 0, 255), (0, 255, 255),
    (255, 165, 0), (255, 100, 150), (150, 100, 255), (50, 200, 200), (200, 200, 50), (255, 150, 50)]

  /** JavaScript's ToInt32: the integer reduced into the signed 32-bit range. */
  function Wrap32(x: int): (r: int)
    ensures -Two31 <= r < Two31
  {
    (x + Two31) % Two32 - Two31
  }

  /** Euclidean remainder is determined by any quotient-remainder split. */
  lemma ModUnique(n: int, q: int, r: int)
    requires n == q * Two32 + r && 0 <= r < Two32
    ensures n % Two32 == r
  {
    var q', r' := n / Two32, n % Two32;
    assert n == q' * Two32 + r';
    assert (q - q') * Two32 == r' - r;
  }

  /** Values that differ by a multiple of 2^32 wrap alike. */
  lemma Wrap32Congruent(x: int, y: int, k: int)
    requires x - y == k * Two32
    ensures Wrap32(x) == Wrap32(y)
  {
    var q, r := (y + Two31) / Two32, (y + Two31) % Two32;
    assert y + Two31 == q * Two32 + r;
    ModUnique(x + Two31, q + k, r);
  }

  /** Wrapping moves a value by a multiple of 2^32. */
  lemma Wrap32Shift(x: int) returns (k: int)
    ensures Wrap32(x) - x == k * Two32
  {
    k := -((x + Two31) / Two32);
  }

  /** The code unit the hash reads for a character. */
  function Code(c: char): int { c as int }

  /** One step of the hash: `((hash << 5) - hash) + code`, then `hash & hash`. */
  function HashStep(h: int, c: char): int
  {
    Wrap32(Wrap32(h * 32) - h + Code(c))
  }

  /** The hash of `getOperatorColor`, read left to right. */
  function Hash(id: string): (h: int)
    ensures -Two31 <= h < Two31
  {
    if |id| == 0 then 0 else HashStep(Hash(id[..|id| - 1]), id[|id| - 1])
  }

  /** The reference: the polynomial sum of the codes in base 31, without overflow. */
  function Poly(id: string): int
  {
    if |id| == 0 then 0 else 31 * Poly(id[..|id| - 1]) + Code(id[|id| - 1])
  }

  /** The shift-and-wrap loop computes the base-31 polynomial reduced into 32 bits. */
  lemma {:induction false} HashIsPolynomial(id: string)
    ensures Hash(id) == Wrap32(Poly(id))
  {
    if |id| == 0 {
      assert Wrap32(0) == 0;
    } else {
      var pre, c := id[..|id| - 1], id[|id| - 1];
      HashIsPolynomial(pre);
      var h, p := Hash(pre), Poly(pre);
      var k1 := Wrap32Shift(p);
      var k2 := Wrap32Shift(h * 32);
      // Wrap32(32h) - h + c = 31h + c + 2^32·k2 and h = p + 2^32·k1
      assert Wrap32(h * 32) - h + Code(c) - (31 * p + Code(c)) == (k2 + 31 * k1) * Two32;
      Wrap32Congruent(Wrap32(h * 32) - h + Code(c), 31 * p + Code(c), k2 + 31 * k1);
    }
  }

  /** `Math.abs(hash) % 12`: always a palette index. */
  function ColorIndex(id: string): (i: int)
    ensures 0 <= i < |Palette|
  {
    var h := Hash(id);
    (if h < 0 then -h else h) % |Palette|
  }

  /** The colour depends only on the polynomial hash, so ids with the same hash share a colour. */
  lemma ColorFromPolynomial(a: string, b: string)
    requires (Poly(a) - Poly(b)) % Two32 == 0
    ensures ColorIndex(a) == ColorIndex(b)
  {
    HashIsPolynomial(a);
    HashIsPolynomial(b);
    var k := (Poly(a) - Poly(b)) / Two32;
    Wrap32Congruent(Poly(a), Poly(b), k);
  }

  function OperatorColor(id: string): (rgb: (int, int, int))
    ensures rgb in Palette
  {
    Palette[ColorIndex(id)]
  }

  // ---------------------------------------------------------------------
  // Picking nodes
  // ---------------------------------------------------------------------

  /** An assigned work order: its grid location (two coordinates when valid) and pick sequence. */
  datatype WorkOrder = WorkOrder(location: Option<seq<int>>, pickSequence: Option<real>)

  /** A location on an operator's route: how many of its work orders are there, and its sequence key. */
  datatype Stop = Stop(pos: (int, int), count: nat, firstSeq: real)

  /** A work order is drawn only when its location is a pair. */
  predicate Placed(wo: WorkOrder)
  {
    wo.location.Some? && |wo.location.value| == 2
  }

  function PosOf(wo: WorkOrder): (int, int)
    requires Placed(wo)
  {
    (wo.location.value[0], wo.location.value[1])
  }

  /** `wo.pick_sequence || idx`: a missing or zero sequence falls back to the position in the list. */
  function SeqOf(wo: WorkOrder, idx: nat): real
  {
    if wo.pickSequence.Some? && wo.pickSequence.value != 0.0 then wo.pickSequence.value else idx as real
  }

  function FindPos(stops: seq<Stop>, p: (int, int)): (i: int)
    ensures -1 <= i < |stops|
    ensures i >= 0 ==> stops[i].pos == p
    ensures i < 0 ==> forall k :: 0 <= k < |stops| ==> stops[k].pos != p
  {
    if |stops| == 0 then -1
    else if stops[0].pos == p then 0
    else
      var j := FindPos(stops[1..], p);
      if j < 0 then -1 else j + 1
  }

  /**
   * The locations of the first `n` work orders in first-seen order, keyed
   * by position; the first work order at a location fixes its sequence key.
   */
  function Stops(wos: seq<WorkOrder>, n: nat): (r: seq<Stop>)
    requires n <= |wos|
  {
    if n == 0 then []
    else
      var prev := Stops(wos, n - 1);
      var wo := wos[n - 1];
      if !Placed(wo) then prev
      else
        var i := FindPos(prev, PosOf(wo));
        if i < 0 then prev + [Stop(PosOf(wo), 1, SeqOf(wo, n - 1))]
        else prev[i := prev[i].(count := prev[i].count + 1)]
  }

  predicate DistinctPositions(stops: seq<Stop>)
  {
    forall i, j :: 0 <= i < j < |stops| ==> stops[i].pos != stops[j].pos
  }

  function IsPlaced(): WorkOrder -> bool
  {
    wo => Placed(wo)
  }

  function At(p: (int, int)): WorkOrder -> bool
  {
    wo => Placed(wo) && PosOf(wo) == p
  }

  /** Splitting off the last work order of a prefix, for counting. */
  lemma CountSnoc(wos: seq<WorkOrder>, n: nat, p: WorkOrder -> bool)
    requires 0 < n <= |wos|
    ensures Count(wos[..n], p) == Count(wos[..n - 1], p) + (if p(wos[n - 1]) then 1 else 0)
  {
    assert wos[..n] == wos[..n - 1] + [wos[n - 1]];
    CountAppend(wos[..n - 1], [wos[n - 1]], p);
    assert Count([wos[n - 1]], p) == (if p(wos[n - 1]) then 1 else 0) + Count([wos[n - 1]][1..], p);
  }

  /**
   * Each location appears once, and its count is the number of work orders
   * placed there; every placed work order's location appears.
   */
  lemma {:induction false} StopsCount(wos: seq<WorkOrder>, n: nat)
    requires n <= |wos|
    ensures DistinctPositions(Stops(wos, n))
    ensures forall k :: 0 <= k < |Stops(wos, n)| ==> Stops(wos, n)[k].count == Count(wos[..n], At(Stops(wos, n)[k].pos))
    ensures forall p :: Count(wos[..n], At(p)) > 0 ==> exists k :: 0 <= k < |Stops(wos, n)| && Stops(wos, n)[k].pos == p
  {
    if n > 0 {
      StopsCount(wos, n - 1);
      var prev, r, wo := Stops(wos, n - 1), Stops(wos, n), wos[n - 1];
      forall p ensures Count(wos[..n], At(p)) == Count(wos[..n - 1], At(p)) + (if At(p)(wo) then 1 else 0) {
        CountSnoc(wos, n, At(p));
      }
      if Placed(wo) {
        var i := FindPos(prev, PosOf(wo));
        if i < 0 {
          assert Count(wos[..n - 1], At(PosOf(wo))) == 0;
        }
        forall p | Count(wos[..n], At(p)) > 0
          ensures exists k :: 0 <= k < |r| && r[k].pos == p
        {
          if p == PosOf(wo) {
            if i < 0 { assert r[|prev|].pos == p; } else { assert r[i].pos == p; }
          } else {
            var k :| 0 <= k < |prev| && prev[k].pos == p;
            assert r[k].pos == p;
          }
        }
      }
    }
  }

  function CountsOf(stops: seq<Stop>): (r: seq<int>)
    ensures |r| == |stops|
    ensures forall i :: 0 <= i < |stops| ==> r[i] == stops[i].count
  {
    seq(|stops|, i requires 0 <= i < |stops| => stops[i].count as int)
  }

  lemma {:induction false} SumUpdate(xs: seq<int>, i: nat, v: int)
    requires i < |xs|
    ensures Sum(xs[i := v]) == Sum(xs) - xs[i] + v
    decreases |xs|
  {
    var ys := xs[i := v];
    if i < |xs| - 1 {
      assert ys[..|ys| - 1] == xs[..|xs| - 1][i := v];
      SumUpdate(xs[..|xs| - 1], i, v);
    } else {
      assert ys[..|ys| - 1] == xs[..|xs| - 1];
    }
  }

  /** Together the locations hold every placed work order once. */
  lemma {:induction false} StopsTotal(wos: seq<WorkOrder>, n: nat)
    requires n <= |wos|
    ensures Sum(CountsOf(Stops(wos, n))) == Count(wos[..n], IsPlaced())
  {
    if n > 0 {
      StopsTotal(wos, n - 1);
      CountSnoc(wos, n, IsPlaced());
      var prev, wo := Stops(wos, n - 1), wos[n - 1];
      if Placed(wo) {
        var i := FindPos(prev, PosOf(wo));
        if i < 0 {
          assert CountsOf(prev + [Stop(PosOf(wo), 1, SeqOf(wo, n - 1))]) == CountsOf(prev) + [1];
          SumAppend(CountsOf(prev), [1]);
        } else {
          var r := prev[i := prev[i].(count := prev[i].count + 1)];
          assert CountsOf(r) == CountsOf(prev)[i := prev[i].count + 1];
          SumUpdate(CountsOf(prev), i, prev[i].count + 1);
        }
      }
    }
  }

  /** `a.minSequence - b.minSequence`: the sort key of the drawn locations. */
  function BySeq(): (Stop, Stop) -> bool
  {
    (a: Stop, b: Stop) => a.firstSeq <= b.firstSeq
  }

  lemma BySeqIsPreorder()
    ensures TotalPreorder(BySeq())
  {
  }

  /** The label of each location: the running total of work orders up to and including it. */
  function Accumulated(stops: seq<Stop>): (r: seq<int>)
    ensures |r| == |stops|
  {
    seq(|stops|, i requires 0 <= i < |stops| => Sum(CountsOf(stops[..i + 1])))
  }

  /** The labels are prefix sums: each adds its location's count to the previous one. */
  lemma AccumulatedSteps(stops: seq<Stop>)
    ensures |stops| > 0 ==> Accumulated(stops)[0] == stops[0].count
    ensures forall i :: 0 < i < |stops| ==> Accumulated(stops)[i] == Accumulated(stops)[i - 1] + stops[i].count
    ensures |stops| > 0 ==> Accumulated(stops)[|stops| - 1] == Sum(CountsOf(stops))
  {
    var r := Accumulated(stops);
    forall i | 0 < i < |stops| ensures r[i] == r[i - 1] + stops[i].count {
      assert CountsOf(stops[..i + 1])[..i] == CountsOf(stops[..i]);
    }
    if |stops| > 0 {
      assert stops[..|stops|] == stops;
      assert CountsOf(stops[..1]) == [stops[0].count];
      assert Sum([stops[0].count as int]) == Sum([]) + stops[0].count;
    }
  }

  /** An agent as the canvas reads it. */
  datatype Agent = Agent(status: Option<string>, workOrders: seq<WorkOrder>)

  /** `agent.status || 'idle'` */
  function StatusOf(a: Agent): string
  {
    if a.status.Some? && a.status.value != "" then a.status.value else "idle"
  }

  predicate Active(a: Agent)
  {
    |a.workOrders| > 0 && StatusOf(a) != "idle" && StatusOf(a) != "completed"
  }

  datatype Node = Node(pos: (int, int), number: int)

  /** The numbered nodes drawn for one agent, in route order. */
  function PickingNodes(a: Agent): (r: seq<Node>)
    ensures !Active(a) ==> r == []
  {
    if !Active(a) then [] else NodesOf(Sort(Stops(a.workOrders, |a.workOrders|), BySeq()))
  }

  /** The drawn locations are in pick-sequence order. */
  lemma PickingOrder(a: Agent)
    ensures Sorted(Sort(Stops(a.workOrders, |a.workOrders|), BySeq()), BySeq())
  {
    BySeqIsPreorder();
    SortSorted(Stops(a.workOrders, |a.workOrders|), BySeq());
  }

  /** Each location with its running total. */
  function NodesOf(stops: seq<Stop>): (r: seq<Node>)
    ensures |r| == |stops|
    ensures forall i :: 0 <= i < |r| ==> r[i].pos == stops[i].pos && r[i].number == Accumulated(stops)[i]
  {
    var labels := Accumulated(stops);
    seq(|stops|, i requires 0 <= i < |stops| => Node(stops[i].pos, labels[i]))
  }

  /** Some location is at `p`. */
  predicate Shows(stops: seq<Stop>, p: (int, int))
  {
    exists k :: 0 <= k < |stops| && stops[k].pos == p
  }

  /** Some node is at `p`. */
  predicate HasNode(r: seq<Node>, p: (int, int))
  {
    exists i :: 0 <= i < |r| && r[i].pos == p
  }

  lemma SortKeepsSum(stops: seq<Stop>)
    ensures Sum(CountsOf(Sort(stops, BySeq()))) == Sum(CountsOf(stops))
    ensures forall s :: s in Sort(stops, BySeq()) <==> s in stops
  {
    var r := Sort(stops, BySeq());
    SortPerm(stops, BySeq());
    SumCountsSort(stops);
    forall s ensures s in r <==> s in stops {
      assert s in r <==> s in multiset(r);
      assert s in stops <==> s in multiset(stops);
    }
  }

  lemma SumCons(v: int, r: seq<int>)
    ensures Sum([v] + r) == v + Sum(r)
  {
    SumAppend([v], r);
    assert Sum([v]) == Sum([]) + v;
  }

  lemma CountsCons(x: Stop, t: seq<Stop>)
    ensures Sum(CountsOf([x] + t)) == x.count + Sum(CountsOf(t))
  {
    assert CountsOf([x] + t) == [x.count as int] + CountsOf(t);
    SumCons(x.count, CountsOf(t));
  }

  /** Inserting a location adds its count to the total. */
  lemma {:induction false} SumCountsInsert(x: Stop, t: seq<Stop>)
    ensures Sum(CountsOf(Insert(x, t, BySeq()))) == x.count + Sum(CountsOf(t))
    decreases |t|
  {
    if |t| == 0 {
      CountsCons(x, t);
    } else if BySeq()(x, t[0]) {
      CountsCons(x, t);
    } else {
      SumCountsInsert(x, t[1..]);
      CountsCons(t[0], Insert(x, t[1..], BySeq()));
      CountsCons(t[0], t[1..]);
      assert [t[0]] + t[1..] == t;
    }
  }

  /** The total count depends only on which locations there are, not their order. */
  lemma {:induction false} SumCountsSort(s: seq<Stop>)
    ensures Sum(CountsOf(Sort(s, BySeq()))) == Sum(CountsOf(s))
    decreases |s|
  {
    if |s| > 0 {
      SumCountsSort(s[1..]);
      SumCountsInsert(s[0], Sort(s[1..], BySeq()));
      CountsCons(s[0], s[1..]);
      assert [s[0]] + s[1..] == s;
    }
  }

  /** The sorted locations: distinct, each holding a work order, together holding all of them. */
  lemma SortedStopsFacts(wos: seq<WorkOrder>)
    ensures var stops := Sort(Stops(wos, |wos|), BySeq());
      && DistinctPositions(stops)
      && (forall k :: 0 <= k < |stops| ==> stops[k].count >= 1)
      && Sum(CountsOf(stops)) == Count(wos, IsPlaced())
  {
    var raw := Stops(wos, |wos|);
    var stops := Sort(raw, BySeq());
    assert wos[..|wos|] == wos;
    StopsCount(wos, |wos|);
    StopsTotal(wos, |wos|);
    SortKeepsSum(raw);
    SortPerm(raw, BySeq());
    DistinctAfterSort(raw, stops);
    forall k | 0 <= k < |stops| ensures stops[k].count >= 1 {
      assert stops[k] in raw;
      var m :| 0 <= m < |raw| && raw[m] == stops[k];
      CountPositiveFromStop(wos, |wos|, m);
    }
  }

  /** The sorted locations are exactly those where some work order is placed. */
  lemma SortedStopsCover(wos: seq<WorkOrder>, p: (int, int))
    ensures Shows(Sort(Stops(wos, |wos|), BySeq()), p) <==> Count(wos, At(p)) > 0
  {
    var raw := Stops(wos, |wos|);
    var stops := Sort(raw, BySeq());
    assert wos[..|wos|] == wos;
    StopsCount(wos, |wos|);
    SortKeepsSum(raw);
    if Count(wos, At(p)) > 0 {
      var m :| 0 <= m < |raw| && raw[m].pos == p;
      assert raw[m] in stops;
      var k :| 0 <= k < |stops| && stops[k] == raw[m];
      assert Shows(stops, p);
    }
    if Shows(stops, p) {
      var k :| 0 <= k < |stops| && stops[k].pos == p;
      assert stops[k] in raw;
      var m :| 0 <= m < |raw| && raw[m] == stops[k];
      CountPositiveFromStop(wos, |wos|, m);
      assert wos[..|wos|] == wos;
    }
  }

  /** Nodes over distinct locations that each hold a work order are distinct and strictly increasing, ending at the total. */
  lemma NodesOfMeaning(stops: seq<Stop>)
    requires DistinctPositions(stops)
    requires forall k :: 0 <= k < |stops| ==> stops[k].count >= 1
    ensures var r := NodesOf(stops);
      && (forall i, j :: 0 <= i < j < |r| ==> r[i].pos != r[j].pos && r[i].number < r[j].number)
      && (|r| > 0 ==> r[|r| - 1].number == Sum(CountsOf(stops)))
      && (forall p :: HasNode(r, p) <==> Shows(stops, p))
  {
    var r := NodesOf(stops);
    AccumulatedSteps(stops);
    StrictlyIncreasing(Accumulated(stops), stops);
    forall p ensures HasNode(r, p) <==> Shows(stops, p) {
      if Shows(stops, p) {
        var k :| 0 <= k < |stops| && stops[k].pos == p;
        assert r[k].pos == p;
      }
    }
  }

  /**
   * For an active agent, one node per distinct location, in pick-sequence
   * order, numbered with strictly increasing running totals that end at the
   * number of its work orders that have a location.
   */
  lemma PickingNodesMeaning(a: Agent)
    requires Active(a)
    ensures var r := PickingNodes(a);
      && (forall i, j :: 0 <= i < j < |r| ==> r[i].pos != r[j].pos && r[i].number < r[j].number)
      && (forall p :: HasNode(r, p) <==> Count(a.workOrders, At(p)) > 0)
      && (|r| > 0 ==> r[|r| - 1].number == Count(a.workOrders, IsPlaced()))
      && (|r| == 0 ==> Count(a.workOrders, IsPlaced()) == 0)
  {
    var stops := Sort(Stops(a.workOrders, |a.workOrders|), BySeq());
    SortedStopsFacts(a.workOrders);
    NodesOfMeaning(stops);
    forall p ensures Shows(stops, p) <==> Count(a.workOrders, At(p)) > 0 {
      SortedStopsCover(a.workOrders, p);
    }
    if |stops| == 0 {
      assert CountsOf(stops) == [];
    }
  }

  /** A location is recorded only once a work order is placed there. */
  lemma {:induction false} CountPositiveFromStop(wos: seq<WorkOrder>, n: nat, m: nat)
    requires n <= |wos| && m < |Stops(wos, n)|
    ensures Stops(wos, n)[m].count >= 1
    ensures Count(wos[..n], At(Stops(wos, n)[m].pos)) > 0
  {
    StopsCount(wos, n);
    if n > 0 {
      var prev, wo := Stops(wos, n - 1), wos[n - 1];
      if !Placed(wo) {
        CountPositiveFromStop(wos, n - 1, m);
      } else {
        var i := FindPos(prev, PosOf(wo));
        if m < |prev| && m != i {
          CountPositiveFromStop(wos, n - 1, m);
        } else if m < |prev| {
          CountPositiveFromStop(wos, n - 1, m);
        }
      }
    }
  }

  lemma StrictlyIncreasing(labels: seq<int>, stops: seq<Stop>)
    requires |labels| == |stops|
    requires forall i :: 0 < i < |stops| ==> labels[i] == labels[i - 1] + stops[i].count
    requires forall k :: 0 <= k < |stops| ==> stops[k].count >= 1
    ensures forall i, j :: 0 <= i < j < |labels| ==> labels[i] < labels[j]
  {
    forall i, j | 0 <= i < j < |labels| ensures labels[i] < labels[j] {
      StrictlyIncreasingFrom(labels, stops, i, j);
    }
  }

  lemma {:induction false} StrictlyIncreasingFrom(labels: seq<int>, stops: seq<Stop>, i: nat, j: nat)
    requires |labels| == |stops| && i < j < |labels|
    requires forall i :: 0 < i < |stops| ==> labels[i] == labels[i - 1] + stops[i].count
    requires forall k :: 0 <= k < |stops| ==> stops[k].count >= 1
    ensures labels[i] < labels[j]
    decreases j - i
  {
    if j > i + 1 {
      StrictlyIncreasingFrom(labels, stops, i, j - 1);
    }
  }

  lemma DistinctAfterSort(raw: seq<Stop>, stops: seq<Stop>)
    requires DistinctPositions(raw) && multiset(stops) == multiset(raw)
    ensures DistinctPositions(stops)
  {
    assert NoDup(raw) by {
      forall x, y | 0 <= x < y < |raw| ensures raw[x] != raw[y] {
        assert raw[x].pos != raw[y].pos;
      }
    }
    SubMultisetNoDup(raw, stops);
    forall i, j | 0 <= i < j < |stops| ensures stops[i].pos != stops[j].pos {
      assert stops[i] in multiset(raw) && stops[j] in multiset(raw);
      var a :| 0 <= a < |raw| && raw[a] == stops[i];
      var b :| 0 <= b < |raw| && raw[b] == stops[j];
      assert a != b;
      if a < b { assert raw[a].pos != raw[b].pos; } else { assert raw[b].pos != raw[a].pos; }
    }
  }

  // ---------------------------------------------------------------------
  // Fitting the layout and resizing the panel
  // ---------------------------------------------------------------------

  /** The canvas scale: as large as fits both ways, but never enlarging. */
  function FitScale(availableWidth: real, availableHeight: real, layoutWidth: real, layoutHeight: real): (s: real)
    requires layoutWidth > 0.0 && layoutHeight > 0.0
    ensures s <= 1.0
    ensures s * layoutWidth <= availableWidth && s * layoutHeight <= availableHeight
    ensures s == 1.0 || s * layoutWidth == availableWidth || s * layoutHeight == availableHeight
  {
    var sx, sy := availableWidth / layoutWidth, availableHeight / layoutHeight;
    if sx <= sy && sx <= 1.0 then sx else if sy <= 1.0 then sy else 1.0
  }

  const MinPercent: real := 30.0
  const MaxPercent: real := 85.0

  /** `Math.max(30, Math.min(85, percent))` */
  function ClampPercent(p: real): (r: real)
    ensures MinPercent <= r <= MaxPercent
    ensures MinPercent <= p <= MaxPercent ==> r == p
    ensures p < MinPercent ==> r == MinPercent
    ensures p > MaxPercent ==> r == MaxPercent
  {
    if p > MaxPercent then MaxPercent else if p < MinPercent then MinPercent else p
  }

  /** The resize handle: dragging state, the panel's height and the stored preference. */
  datatype Panel = Panel(dragging: bool, percent: real, saved: Option<real>)

  datatype ResizeEvent = StartDrag | Drag(percent: real) | StopDrag | Reload

  function ResizeStep(p: Panel, e: ResizeEvent): Panel
  {
    match e
    case StartDrag => p.(dragging := true)
    case Drag(x) => if p.dragging then p.(percent := ClampPercent(x)) else p
    case StopDrag => if p.dragging then p.(dragging := false, saved := Some(p.percent)) else p
    case Reload => Panel(false, if p.saved.Some? then p.saved.value else 65.0, p.saved)
  }

  function ResizeRun(p: Panel, es: seq<ResizeEvent>): Panel
    decreases |es|
  {
    if |es| == 0 then p else ResizeRun(ResizeStep(p, es[0]), es[1..])
  }

  predicate InRange(x: real) { MinPercent <= x <= MaxPercent }

  predicate PanelInRange(p: Panel)
  {
    InRange(p.percent) && (p.saved.Some? ==> InRange(p.saved.value))
  }

  /**
   * Starting from the default height with nothing stored (or a stored value
   * in range), the panel's height stays within 30–85 % through any drags and
   * reloads: only clamped values are ever stored.
   */
  lemma {:induction false} ResizeStaysInRange(p: Panel, es: seq<ResizeEvent>)
    requires PanelInRange(p)
    ensures PanelInRange(ResizeRun(p, es))
    decreases |es|
  {
    if |es| > 0 {
      ResizeStaysInRange(ResizeStep(p, es[0]), es[1..]);
    }
  }
}
