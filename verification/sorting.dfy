/**
 Python's `sorted`/`list.sort` (and a JavaScript comparator sort) as a
 stable insertion sort over a total preorder `leq`: the result is ordered,
 is a permutation of the input, and keeps equivalent elements in their
 original relative order.
 */
module Sorting {
  import opened Seqs

  /** `leq` is total and transitive: what a sort key or a comparator provides. */
  ghost predicate TotalPreorder<T(!new)>(leq: (T, T) -> bool)
  {
    && (forall a, b :: leq(a, b) || leq(b, a))
    && (forall a, b, c :: leq(a, b) && leq(b, c) ==> leq(a, c))
  }

  predicate Sorted<T>(s: seq<T>, leq: (T, T) -> bool)
  {
    forall i, j :: 0 <= i < j < |s| ==> leq(s[i], s[j])
  }

  /** Equivalence under the preorder, the classes stability is about. */
  function Equiv<T>(leq: (T, T) -> bool, y: T): T -> bool
  {
    x => leq(x, y) && leq(y, x)
  }

  /** Put `x` before the first element it is `leq` to. */
  function Insert<T>(x: T, t: seq<T>, leq: (T, T) -> bool): (r: seq<T>)
    ensures |r| == |t| + 1
  {
    if |t| == 0 then [x]
    else if leq(x, t[0]) then [x] + t
    else [t[0]] + Insert(x, t[1..], leq)
  }

  /** Stable insertion sort: the earlier of two equivalent elements ends up first. */
  function Sort<T>(s: seq<T>, leq: (T, T) -> bool): (r: seq<T>)
    ensures |r| == |s|
  {
    if |s| == 0 then [] else Insert(s[0], Sort(s[1..], leq), leq)
  }

  lemma {:induction false} InsertPerm<T>(x: T, t: seq<T>, leq: (T, T) -> bool)
    ensures multiset(Insert(x, t, leq)) == multiset(t) + multiset{x}
    decreases |t|
  {
    if |t| > 0 && !leq(x, t[0]) {
      InsertPerm(x, t[1..], leq);
      assert t == [t[0]] + t[1..];
    }
  }

  /** Sorting only reorders. */
  lemma {:induction false} SortPerm<T>(s: seq<T>, leq: (T, T) -> bool)
    ensures multiset(Sort(s, leq)) == multiset(s)
    decreases |s|
  {
    if |s| > 0 {
      SortPerm(s[1..], leq);
      InsertPerm(s[0], Sort(s[1..], leq), leq);
      assert s == [s[0]] + s[1..];
    }
  }

  lemma {:induction false} InsertSorted<T(!new)>(x: T, t: seq<T>, leq: (T, T) -> bool)
    requires TotalPreorder(leq)
    requires Sorted(t, leq)
    ensures Sorted(Insert(x, t, leq), leq)
    ensures forall k :: 0 <= k < |Insert(x, t, leq)| ==> Insert(x, t, leq)[k] == x || Insert(x, t, leq)[k] in t
    decreases |t|
  {
    if |t| > 0 && !leq(x, t[0]) {
      InsertSorted(x, t[1..], leq);
      var r := Insert(x, t[1..], leq);
      assert leq(t[0], x);
      forall k | 0 <= k < |r| ensures leq(t[0], r[k]) {
        if r[k] != x {
          var m :| 0 <= m < |t[1..]| && t[1..][m] == r[k];
          assert t[m + 1] == r[k];
        }
      }
    }
  }

  /** The result is ordered by `leq`. */
  lemma {:induction false} SortSorted<T(!new)>(s: seq<T>, leq: (T, T) -> bool)
    requires TotalPreorder(leq)
    ensures Sorted(Sort(s, leq), leq)
    decreases |s|
  {
    if |s| > 0 {
      SortSorted(s[1..], leq);
      InsertSorted(s[0], Sort(s[1..], leq), leq);
    }
  }

  lemma {:induction false} InsertStable<T(!new)>(x: T, t: seq<T>, leq: (T, T) -> bool, y: T)
    requires TotalPreorder(leq)
    ensures Filter(Insert(x, t, leq), Equiv(leq, y))
         == (if Equiv(leq, y)(x) then [x] else []) + Filter(t, Equiv(leq, y))
    decreases |t|
  {
    var p := Equiv(leq, y);
    if |t| == 0 {
      FilterCons(x, [], p);
    } else if leq(x, t[0]) {
      FilterCons(x, t, p);
    } else {
      var r := Insert(x, t[1..], leq);
      assert Insert(x, t, leq) == [t[0]] + r;
      InsertStable(x, t[1..], leq, y);
      FilterCons(t[0], r, p);
      FilterCons(t[0], t[1..], p);
      assert [t[0]] + t[1..] == t;
      if p(x) {
        assert !p(t[0]);
        assert Filter(t, p) == Filter(t[1..], p);
        assert Filter(Insert(x, t, leq), p) == Filter(r, p);
      } else {
        assert Filter(r, p) == Filter(t[1..], p);
      }
    }
  }

  /** Equivalent elements appear in the sorted output in their input order. */
  lemma {:induction false} SortStable<T(!new)>(s: seq<T>, leq: (T, T) -> bool, y: T)
    requires TotalPreorder(leq)
    ensures Filter(Sort(s, leq), Equiv(leq, y)) == Filter(s, Equiv(leq, y))
    decreases |s|
  {
    if |s| > 0 {
      SortStable(s[1..], leq, y);
      InsertStable(s[0], Sort(s[1..], leq), leq, y);
    }
  }

  /** Insertion compares `x` only with the elements it passes. */
  lemma {:induction false} InsertAgree<T>(x: T, t: seq<T>, l1: (T, T) -> bool, l2: (T, T) -> bool)
    requires forall y :: y in t ==> l1(x, y) == l2(x, y)
    ensures Insert(x, t, l1) == Insert(x, t, l2)
    decreases |t|
  {
    if |t| > 0 {
      assert t[0] in t;
      if !l1(x, t[0]) {
        InsertAgree(x, t[1..], l1, l2);
      }
    }
  }

  /** Two orders that agree on the elements being sorted sort them alike. */
  lemma {:induction false} SortAgree<T>(s: seq<T>, l1: (T, T) -> bool, l2: (T, T) -> bool)
    requires forall a, b :: a in s && b in s ==> l1(a, b) == l2(a, b)
    ensures Sort(s, l1) == Sort(s, l2)
    decreases |s|
  {
    if |s| > 0 {
      SortAgree(s[1..], l1, l2);
      var t := Sort(s[1..], l1);
      SortPerm(s[1..], l1);
      forall y | y in t
        ensures l1(s[0], y) == l2(s[0], y)
      {
        assert y in multiset(t);
        assert y in s[1..];
      }
      InsertAgree(s[0], t, l1, l2);
    }
  }
}
