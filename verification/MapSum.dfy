/** Sums over the values of a finite map: token balances, stake positions, vouchers. */
module MapSum {
  /** Sum of `w(k, m[k])` over the keys of `m`. */
  ghost function Sum<K(!new), V(!new)>(m: map<K, V>, w: (K, V) -> int): int
    decreases |m|, 1
  {
    if |m| == 0 then 0 else SumFrom(m, w, Pick(m))
  }

  /** The key `k` first. */
  ghost function SumFrom<K(!new), V(!new)>(m: map<K, V>, w: (K, V) -> int, k: K): int
    requires k in m
    decreases |m|, 0
  {
    w(k, m[k]) + Sum(m - {k}, w)
  }

  ghost function Pick<K, V>(m: map<K, V>): (k: K)
    requires |m| > 0
    ensures k in m
  {
    var k :| k in m;
    k
  }

  /** The order in which keys are taken does not matter. */
  lemma {:induction false} SumTake<K(!new), V(!new)>(m: map<K, V>, w: (K, V) -> int, k: K)
    requires k in m
    ensures Sum(m, w) == w(k, m[k]) + Sum(m - {k}, w)
    decreases |m|
  {
    var j := Pick(m);
    if j != k {
      SumTake(m - {j}, w, k);
      SumTake(m - {k}, w, j);
      assert (m - {j}) - {k} == (m - {k}) - {j};
    }
  }

  lemma PutMinus<K, V>(m: map<K, V>, k: K, v: V)
    ensures m[k := v] - {k} == m - {k}
    ensures k !in m ==> m - {k} == m
  {}

  lemma SumPut<K(!new), V(!new)>(m: map<K, V>, w: (K, V) -> int, k: K, v: V)
    ensures Sum(m[k := v], w) == Sum(m, w) - (if k in m then w(k, m[k]) else 0) + w(k, v)
  {
    SumTake(m[k := v], w, k);
    PutMinus(m, k, v);
    if k in m { SumTake(m, w, k); }
  }

  lemma {:induction false} SumBounds<K(!new), V(!new)>(m: map<K, V>, w: (K, V) -> int)
    requires forall k :: k in m ==> w(k, m[k]) >= 0
    ensures Sum(m, w) >= 0
    ensures forall k :: k in m ==> w(k, m[k]) <= Sum(m, w)
    decreases |m|
  {
    if |m| > 0 {
      var j := Pick(m);
      SumBounds(m - {j}, w);
      forall k | k in m ensures w(k, m[k]) <= Sum(m, w) {
        if k != j { assert k in m - {j}; }
      }
    }
  }

  lemma {:induction false} SumLeq<K(!new), V(!new)>(m: map<K, V>, w: (K, V) -> int, w': (K, V) -> int)
    requires forall k :: k in m ==> w(k, m[k]) <= w'(k, m[k])
    ensures Sum(m, w) <= Sum(m, w')
    decreases |m|
  {
    if |m| > 0 {
      var j :| j in m;
      SumTake(m, w, j);
      SumTake(m, w', j);
      SumLeq(m - {j}, w, w');
    }
  }
}
