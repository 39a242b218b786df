/**
 Python dictionaries (and JavaScript plain objects / `Map`s) as an
 insertion-ordered finite map: a duplicate-free key sequence recording
 first-insertion order, plus the key/value map. Assigning to an existing key
 keeps its position; assigning to a new key appends it.
 */
module Dicts {
  import opened Wrappers
  import opened Seqs

  datatype RawDict<K(==), V> = RawDict(keys: seq<K>, vals: map<K, V>) {
    ghost predicate Valid()
    {
      && NoDup(keys)
      && vals.Keys == (set i | 0 <= i < |keys| :: keys[i])
    }
  }

  type Dict<K(==), V> = d: RawDict<K, V> | d.Valid() witness RawDict([], map[])

  /** `{}` */
  function Empty<K(==), V>(): (r: Dict<K, V>)
    ensures r.keys == [] && r.vals == map[]
  {
    RawDict([], map[])
  }

  /** `k in d` */
  predicate Has<K(==), V>(d: Dict<K, V>, k: K)
  {
    k in d.vals
  }

  lemma HasIffKey<K, V>(d: Dict<K, V>, k: K)
    ensures Has(d, k) <==> k in d.keys
  {
    if k in d.keys {
      var i :| 0 <= i < |d.keys| && d.keys[i] == k;
      assert k in (set i | 0 <= i < |d.keys| :: d.keys[i]);
    }
  }

  lemma SetNewKeyGrows<K, V>(d: Dict<K, V>, k: K, v: V)
    requires k !in d.vals
    ensures |Set(d, k, v).keys| == |d.keys| + 1
  {
  }

  /** Every stored value appears in the listing of values. */
  lemma ValueListed<K, V>(d: Dict<K, V>, k: K)
    requires k in d.vals
    ensures d.vals[k] in Values(d)
  {
    HasIffKey(d, k);
    var j :| 0 <= j < |d.keys| && d.keys[j] == k;
    assert Values(d)[j] == d.vals[k];
  }

  /** Every key of the order has a value. */
  predicate KeysInVals<K(==), V>(d: Dict<K, V>)
  {
    forall j :: 0 <= j < |d.keys| ==> d.keys[j] in d.vals
  }

  lemma KeysAreIn<K, V>(d: Dict<K, V>)
    ensures KeysInVals(d)
  {
    forall j | 0 <= j < |d.keys| ensures d.keys[j] in d.vals {
      HasIffKey(d, d.keys[j]);
    }
  }

  /** The map a sequence of keyed writes leaves: each element with a key stores its value there, in order. */
  ghost function WriteAll<E, K, V>(m: map<K, V>, es: seq<E>, key: E -> Option<K>, val: E -> V): map<K, V>
    decreases |es|
  {
    if es == [] then m
    else
      var prev := WriteAll(m, es[..|es| - 1], key, val);
      var e := es[|es| - 1];
      if key(e).Some? then prev[key(e).value := val(e)] else prev
  }

  /** The last write to a key is the one that stays. */
  lemma {:induction false} WriteAllLastWins<E, K, V>(m: map<K, V>, es: seq<E>, key: E -> Option<K>, val: E -> V, i: nat)
    requires i < |es| && key(es[i]).Some?
    requires forall j :: i < j < |es| ==> key(es[j]) != key(es[i])
    ensures key(es[i]).value in WriteAll(m, es, key, val) && WriteAll(m, es, key, val)[key(es[i]).value] == val(es[i])
    decreases |es|
  {
    var n := |es| - 1;
    if i < n {
      assert es[..n][i] == es[i];
      WriteAllLastWins(m, es[..n], key, val, i);
    }
  }

  /** `d.get(k)` */
  function Get<K(==), V>(d: Dict<K, V>, k: K): (r: Option<V>)
    ensures r.Some? <==> k in d.keys
    ensures r.Some? ==> r.value == d.vals[k]
  {
    HasIffKey(d, k);
    if k in d.vals then Some(d.vals[k]) else None
  }

  /** `d.get(k, default)` */
  function GetOr<K(==), V>(d: Dict<K, V>, k: K, default: V): (r: V)
    ensures k in d.vals ==> r == d.vals[k]
    ensures k !in d.vals ==> r == default
  {
    if k in d.vals then d.vals[k] else default
  }

  /** `d[k] = v` */
  function Set<K(==), V>(d: Dict<K, V>, k: K, v: V): (r: Dict<K, V>)
    ensures r.vals == d.vals[k := v]
    ensures k in d.vals ==> r.keys == d.keys
    ensures k !in d.vals ==> r.keys == d.keys + [k]
  {
    HasIffKey(d, k);
    if k in d.vals then
      RawDict(d.keys, d.vals[k := v])
    else
      var r := RawDict(d.keys + [k], d.vals[k := v]);
      assert r.vals.Keys == (set i | 0 <= i < |r.keys| :: r.keys[i]) by {
        forall x | x in r.vals.Keys ensures x in (set i | 0 <= i < |r.keys| :: r.keys[i]) {
          if x == k {
            assert r.keys[|d.keys|] == k;
          } else {
            var i :| 0 <= i < |d.keys| && d.keys[i] == x;
            assert r.keys[i] == x;
          }
        }
      }
      r
  }

  function FilterKeys<K(==)>(ks: seq<K>, k: K): (r: seq<K>)
    ensures forall i :: 0 <= i < |r| ==> r[i] in ks && r[i] != k
    ensures forall i :: 0 <= i < |ks| && ks[i] != k ==> ks[i] in r
    ensures NoDup(ks) ==> NoDup(r)
  {
    if |ks| == 0 then []
    else if ks[0] == k then FilterKeys(ks[1..], k)
    else [ks[0]] + FilterKeys(ks[1..], k)
  }

  /** `del d[k]` (when present) or `d.pop(k, None)` */
  function Remove<K(==), V>(d: Dict<K, V>, k: K): (r: Dict<K, V>)
    ensures r.vals == d.vals - {k}
    ensures forall i :: 0 <= i < |r.keys| ==> r.keys[i] in d.keys && r.keys[i] != k
    ensures forall i :: 0 <= i < |d.keys| && d.keys[i] != k ==> d.keys[i] in r.keys
  {
    var ks := FilterKeys(d.keys, k);
    var r := RawDict(ks, d.vals - {k});
    assert r.vals.Keys == (set i | 0 <= i < |ks| :: ks[i]) by {
      forall x | x in r.vals.Keys ensures x in (set i | 0 <= i < |ks| :: ks[i]) {
        HasIffKey(d, x);
        var i :| 0 <= i < |ks| && ks[i] == x;
      }
    }
    r
  }

  /** `list(d.values())`, in key-insertion order */
  function Values<K(==), V>(d: Dict<K, V>): (r: seq<V>)
    ensures |r| == |d.keys|
    ensures forall i :: 0 <= i < |r| ==> d.keys[i] in d.vals && r[i] == d.vals[d.keys[i]]
  {
    seq(|d.keys|, i requires 0 <= i < |d.keys| => assert d.keys[i] in d.vals; d.vals[d.keys[i]])
  }

  /** The first `n` keys of `b` copied over `a`, in `b`'s key order. */
  function UpdatePrefix<K(==), V>(a: Dict<K, V>, b: Dict<K, V>, n: nat): (r: Dict<K, V>)
    requires n <= |b.keys|
    ensures r.vals.Keys == a.vals.Keys + (set i | 0 <= i < n :: b.keys[i])
    ensures forall k :: k in r.vals ==> r.vals[k] == if k in b.keys[..n] then b.vals[k] else a.vals[k]
    ensures |a.keys| <= |r.keys| && r.keys[..|a.keys|] == a.keys
    decreases n
  {
    if n == 0 then a
    else
      UpdatePrefixStep(b, n);
      PrefixOfAppend(UpdatePrefix(a, b, n - 1).keys, [b.keys[n - 1]], |a.keys|);
      Set(UpdatePrefix(a, b, n - 1), b.keys[n - 1], b.vals[b.keys[n - 1]])
  }

  lemma UpdatePrefixStep<K, V>(b: Dict<K, V>, n: nat)
    requires 0 < n <= |b.keys|
    ensures b.keys[n - 1] in b.vals
    ensures (set i | 0 <= i < n :: b.keys[i]) == (set i | 0 <= i < n - 1 :: b.keys[i]) + {b.keys[n - 1]}
    ensures b.keys[..n] == b.keys[..n - 1] + [b.keys[n - 1]]
  {
    var k := b.keys[n - 1];
    assert k in (set i | 0 <= i < |b.keys| :: b.keys[i]);
    assert b.vals.Keys == (set i | 0 <= i < |b.keys| :: b.keys[i]);
  }

  lemma PrefixOfAppend<T>(s: seq<T>, t: seq<T>, m: nat)
    requires m <= |s|
    ensures (s + t)[..m] == s[..m]
  {
  }

  /** `a.update(b)`, or `{**a, **b}`: `b` wins on shared keys; `a`'s keys keep their positions. */
  function Update<K(==), V>(a: Dict<K, V>, b: Dict<K, V>): (r: Dict<K, V>)
    ensures r.vals == a.vals + b.vals
    ensures |a.keys| <= |r.keys| && r.keys[..|a.keys|] == a.keys
  {
    UpdateAll(a, b);
    UpdatePrefix(a, b, |b.keys|)
  }

  /** Copying every key of `b` yields the map union with `b` winning. */
  lemma UpdateAll<K, V>(a: Dict<K, V>, b: Dict<K, V>)
    ensures UpdatePrefix(a, b, |b.keys|).vals == a.vals + b.vals
  {
    UpdateAllKeys(a, b);
    UpdateAllVals(a, b);
    UnionOf(UpdatePrefix(a, b, |b.keys|).vals, a.vals, b.vals);
  }

  lemma UpdateAllKeys<K, V>(a: Dict<K, V>, b: Dict<K, V>)
    ensures UpdatePrefix(a, b, |b.keys|).vals.Keys == a.vals.Keys + b.vals.Keys
  {
    assert b.vals.Keys == (set i | 0 <= i < |b.keys| :: b.keys[i]);
  }

  lemma UpdateAllVals<K, V>(a: Dict<K, V>, b: Dict<K, V>)
    ensures var r := UpdatePrefix(a, b, |b.keys|).vals;
      forall k :: k in r ==> r[k] == if k in b.vals then b.vals[k] else a.vals[k]
  {
    assert b.keys[..|b.keys|] == b.keys;
    forall k | k in b.keys || k in b.vals {
      HasIffKey(b, k);
    }
  }

  /** A map holding both maps' keys, with the second's value where it has one, is their union. */
  lemma UnionOf<K, V>(r: map<K, V>, m: map<K, V>, n: map<K, V>)
    requires r.Keys == m.Keys + n.Keys
    requires forall k :: k in r ==> r[k] == if k in n then n[k] else m[k]
    ensures r == m + n
  {
  }

  /** `{key(x): x for x in xs}`: the last value for a key wins, its first position is kept. */
  function FromSeq<K(==), V>(xs: seq<V>, key: V -> K): (r: Dict<K, V>)
    ensures forall i :: 0 <= i < |xs| ==> key(xs[i]) in r.vals
    ensures forall k :: k in r.vals ==> r.vals[k] in xs && key(r.vals[k]) == k
    decreases |xs|
  {
    if |xs| == 0 then Empty()
    else
      assert xs == xs[..|xs| - 1] + [xs[|xs| - 1]];
      FromSeqStep(FromSeq(xs[..|xs| - 1], key), xs[..|xs| - 1], xs[|xs| - 1], key);
      Set(FromSeq(xs[..|xs| - 1], key), key(xs[|xs| - 1]), xs[|xs| - 1])
  }

  /** Writing one more element keeps every element's key present and every value keyed by itself. */
  lemma FromSeqStep<K, V>(prev: Dict<K, V>, init: seq<V>, x: V, key: V -> K)
    requires forall i :: 0 <= i < |init| ==> key(init[i]) in prev.vals
    requires forall k :: k in prev.vals ==> prev.vals[k] in init && key(prev.vals[k]) == k
    ensures var r := Set(prev, key(x), x);
      && (forall i :: 0 <= i < |init + [x]| ==> key((init + [x])[i]) in r.vals)
      && (forall k :: k in r.vals ==> r.vals[k] in init + [x] && key(r.vals[k]) == k)
  {
  }

  /** The value kept for a key is its last occurrence. */
  lemma {:induction false} FromSeqLastWins<K, V>(xs: seq<V>, key: V -> K, i: nat)
    requires i < |xs|
    requires forall j :: i < j < |xs| ==> key(xs[j]) != key(xs[i])
    ensures FromSeq(xs, key).vals[key(xs[i])] == xs[i]
    decreases |xs|
  {
    if i < |xs| - 1 {
      FromSeqLastWins(xs[..|xs| - 1], key, i);
    }
  }
}
