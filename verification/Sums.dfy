/** Sums over the queues of a registry: every conservation law is stated with these. */
module Sums {

  ghost function SumSeq<T>(s: seq<T>, w: T -> nat): nat {
    if s == [] then 0 else w(s[0]) + SumSeq(s[1..], w)
  }

  /** The key a sum starts with; which one it is does not matter. */
  ghost function SomeKey<K, V>(m: map<K, V>): (k: K)
    requires |m| > 0
    ensures k in m
  {
    var k :| k in m; k
  }

  ghost function SumMap<K>(m: map<K, nat>): nat
    decreases |m|
  {
    if |m| == 0 then 0 else
      var k := SomeKey(m);
      RemoveShrinks(m, k);
      m[k] + SumMap(m - {k})
  }

  /** The weight of each queue of a map of queues. */
  ghost function Weights<K, T>(m: map<K, seq<T>>, w: T -> nat): map<K, nat> {
    map k | k in m :: SumSeq(m[k], w)
  }

  /** The total weight of all entries of all queues. */
  ghost function Total<K, T>(m: map<K, seq<T>>, w: T -> nat): nat {
    SumMap(Weights(m, w))
  }

  lemma RemoveShrinks<K, V>(m: map<K, V>, k: K)
    requires k in m
    ensures |m - {k}| == |m| - 1
  {
    assert (m - {k}).Keys == m.Keys - {k};
  }

  lemma RemoveCommutes<K, V>(m: map<K, V>, k: K, j: K)
    requires k in m && j in m && k != j
    ensures j in m - {k} && (m - {k})[j] == m[j]
    ensures k in m - {j} && (m - {j})[k] == m[k]
    ensures m - {k} - {j} == m - {j} - {k}
  {
  }

  // ---------- sequences ----------

  lemma {:induction false} SumSeqConcat<T>(a: seq<T>, b: seq<T>, w: T -> nat)
    ensures SumSeq(a + b, w) == SumSeq(a, w) + SumSeq(b, w)
  {
    if a == [] {
      assert a + b == b;
    } else {
      assert (a + b)[1..] == a[1..] + b;
      SumSeqConcat(a[1..], b, w);
    }
  }

  lemma SumSeqUpdate<T>(s: seq<T>, i: nat, x: T, w: T -> nat)
    requires i < |s|
    ensures SumSeq(s[i := x], w) == SumSeq(s, w) - w(s[i]) + w(x)
    ensures w(s[i]) <= SumSeq(s, w)
  {
    var tail := s[i + 1..];
    assert s == s[..i] + ([s[i]] + tail);
    assert s[i := x] == s[..i] + ([x] + tail);
    SumSeqConcat(s[..i], [s[i]] + tail, w);
    SumSeqConcat(s[..i], [x] + tail, w);
    SumSeqConcat([s[i]], tail, w);
    SumSeqConcat([x], tail, w);
  }

  lemma {:induction false} SumSeqCong<T>(a: seq<T>, b: seq<T>, w: T -> nat)
    requires |a| == |b|
    requires forall i :: 0 <= i < |a| ==> w(a[i]) == w(b[i])
    ensures SumSeq(a, w) == SumSeq(b, w)
  {
    if a != [] {
      SumSeqCong(a[1..], b[1..], w);
    }
  }

  // ---------- maps ----------

  /** The sum does not depend on the order in which keys are taken. */
  lemma {:induction false} SumMapRemove<K>(m: map<K, nat>, k: K)
    requires k in m
    ensures SumMap(m) == m[k] + SumMap(m - {k})
    decreases |m|
  {
    assert |m| > 0;
    var p := SomeKey(m);
    assert SumMap(m) == m[p] + SumMap(m - {p});
    hide SumMap, SomeKey;
    if p != k {
      RemoveShrinks(m, p);
      RemoveShrinks(m, k);
      RemoveCommutes(m, p, k);
      SumMapRemove(m - {p}, k);
      SumMapRemove(m - {k}, p);
    }
  }

  lemma SumMapUpdate<K>(m: map<K, nat>, k: K, v: nat)
    ensures SumMap(m[k := v]) == SumMap(m) - (if k in m then m[k] else 0) + v
    ensures k in m ==> m[k] <= SumMap(m)
  {
    hide SumMap;
    SumMapRemove(m[k := v], k);
    assert m[k := v] - {k} == m - {k};
    if k in m {
      SumMapRemove(m, k);
    } else {
      assert m - {k} == m;
    }
  }

  /** Key-wise balance adds up: if a + b + c == d at every key, the sums balance too. */
  lemma {:induction false} SumMapBalance<K>(a: map<K, nat>, b: map<K, nat>, c: map<K, nat>, d: map<K, nat>)
    requires a.Keys == b.Keys == c.Keys == d.Keys
    requires forall k :: k in a ==> a[k] + b[k] + c[k] == d[k]
    ensures SumMap(a) + SumMap(b) + SumMap(c) == SumMap(d)
    decreases |a|
  {
    if |a| == 0 {
      assert a == b == c == d == map[];
    } else {
      var k :| k in a;
      SumMapRemove(a, k); SumMapRemove(b, k); SumMapRemove(c, k); SumMapRemove(d, k);
      RemoveShrinks(a, k);
      SumMapBalance(a - {k}, b - {k}, c - {k}, d - {k});
    }
  }

  lemma OneMore(n: nat, b: nat)
    ensures (n + 1) * b == n * b + b
  {
  }

  lemma {:induction false} SumMapAtMost<K>(m: map<K, nat>, bound: nat)
    requires forall k :: k in m ==> m[k] <= bound
    ensures SumMap(m) <= |m| * bound
    decreases |m|
  {
    if |m| != 0 {
      var k :| k in m;
      SumMapRemove(m, k);
      RemoveShrinks(m, k);
      SumMapAtMost(m - {k}, bound);
      OneMore(|m| - 1, bound);
    }
  }

  lemma {:induction false} SumMapZero<K>(m: map<K, nat>)
    ensures SumMap(m) == 0 <==> forall k :: k in m ==> m[k] == 0
    decreases |m|
  {
    if |m| != 0 {
      var k :| k in m;
      SumMapRemove(m, k);
      RemoveShrinks(m, k);
      SumMapZero(m - {k});
      assert forall j :: j in m ==> j == k || j in m - {k};
      assert forall j :: j in m - {k} ==> j in m && m[j] == (m - {k})[j];
    }
  }

  // ---------- maps of queues ----------

  lemma TotalSetQueue<K, T>(m: map<K, seq<T>>, k: K, q: seq<T>, w: T -> nat)
    ensures Total(m[k := q], w)
         == Total(m, w) - (if k in m then SumSeq(m[k], w) else 0) + SumSeq(q, w)
    ensures k in m ==> SumSeq(m[k], w) <= Total(m, w)
  {
    assert Weights(m[k := q], w) == Weights(m, w)[k := SumSeq(q, w)];
    SumMapUpdate(Weights(m, w), k, SumSeq(q, w));
  }

  lemma TotalSetEntry<K, T>(m: map<K, seq<T>>, k: K, i: nat, x: T, w: T -> nat)
    requires k in m && i < |m[k]|
    ensures Total(m[k := m[k][i := x]], w) == Total(m, w) - w(m[k][i]) + w(x)
    ensures w(m[k][i]) <= Total(m, w)
  {
    TotalSetQueue(m, k, m[k][i := x], w);
    SumSeqUpdate(m[k], i, x, w);
  }

  lemma TotalPush<K, T>(m: map<K, seq<T>>, k: K, x: T, w: T -> nat)
    ensures Total(m[k := (if k in m then m[k] else []) + [x]], w) == Total(m, w) + w(x)
  {
    var q := if k in m then m[k] else [];
    TotalSetQueue(m, k, q + [x], w);
    SumSeqConcat(q, [x], w);
  }

  /** Dropping the oldest entry of a queue, and the queue itself once it is empty. */
  lemma TotalPop<K, T>(m: map<K, seq<T>>, k: K, w: T -> nat)
    requires k in m && |m[k]| > 0
    ensures Total(if |m[k]| > 1 then m[k := m[k][1..]] else m - {k}, w) == Total(m, w) - w(m[k][0])
    ensures w(m[k][0]) <= Total(m, w)
  {
    TotalSetQueue(m, k, m[k][1..], w);
    if |m[k]| == 1 {
      assert Weights(m - {k}, w) == Weights(m, w) - {k};
      SumMapRemove(Weights(m, w), k);
    }
  }

  /** Two maps of queues that agree entry by entry on `w` have the same total. */
  lemma TotalCong<K, T>(m: map<K, seq<T>>, m': map<K, seq<T>>, w: T -> nat)
    requires m.Keys == m'.Keys
    requires forall k :: k in m ==> |m[k]| == |m'[k]|
    requires forall k, i :: k in m && 0 <= i < |m[k]| ==> w(m[k][i]) == w(m'[k][i])
    ensures Total(m, w) == Total(m', w)
  {
    forall k | k in m ensures SumSeq(m[k], w) == SumSeq(m'[k], w) {
      SumSeqCong(m[k], m'[k], w);
    }
    assert Weights(m, w) == Weights(m', w);
  }
}
