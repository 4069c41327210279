/** Sums over finite maps and sequences, and what one update does to them. */
module Sums {

  ghost function SumOver<K, V>(m: map<K, V>, weight: V -> nat): nat
    decreases |m|
  {
    if m == map[] then 0
    else
      var k :| k in m;
      weight(m[k]) + SumOver(m - {k}, weight)
  }

  lemma {:induction false} SumWithout<K, V>(m: map<K, V>, weight: V -> nat, k: K)
    requires k in m
    ensures SumOver(m, weight) == weight(m[k]) + SumOver(m - {k}, weight)
    decreases |m|
  {
    var j :| j in m && SumOver(m, weight) == weight(m[j]) + SumOver(m - {j}, weight);
    if j != k {
      SumWithout(m - {j}, weight, k);
      SumWithout(m - {k}, weight, j);
      assert m - {j} - {k} == m - {k} - {j};
    }
  }

  lemma SumUpdate<K, V>(m: map<K, V>, weight: V -> nat, k: K, v: V)
    ensures SumOver(m[k := v], weight) ==
            SumOver(m, weight) + weight(v) - (if k in m then weight(m[k]) else 0)
  {
    SumWithout(m[k := v], weight, k);
    if k in m {
      SumWithout(m, weight, k);
      assert m[k := v] - {k} == m - {k};
    } else {
      assert m[k := v] - {k} == m;
    }
  }

  lemma {:induction false} SumSubmap<K, V>(small: map<K, V>, big: map<K, V>, weight: V -> nat)
    requires forall k | k in small :: k in big && big[k] == small[k]
    ensures SumOver(small, weight) <= SumOver(big, weight)
    decreases |small|
  {
    if small != map[] {
      var k :| k in small;
      SumWithout(small, weight, k);
      SumWithout(big, weight, k);
      SumSubmap(small - {k}, big - {k}, weight);
    }
  }
}
