/** Order-independent sums over the entries of a map, for the memory estimate. */
module Sums {

  /** The sum of `f` over every entry of `m`, in whatever order the entries are visited. */
  ghost function SumMap<K, V>(m: map<K, V>, f: (K, V) -> nat): nat
    decreases |m|
  {
    if m == map[] then 0
    else
      var k :| k in m;
      f(k, m[k]) + SumMap(m - {k}, f)
  }

  /** Any entry can be taken out first: the sum does not depend on the visiting order. */
  lemma {:induction false} SumMapRemove<K, V>(m: map<K, V>, k: K, f: (K, V) -> nat)
    requires k in m
    ensures SumMap(m, f) == f(k, m[k]) + SumMap(m - {k}, f)
    decreases |m|
  {
    var j :| j in m && SumMap(m, f) == f(j, m[j]) + SumMap(m - {j}, f);
    if j != k {
      var mj, mk := m - {j}, m - {k};
      assert |mj| < |m| && |mk| < |m|;
      SumMapRemove(mj, k, f);
      SumMapRemove(mk, j, f);
      assert mj - {k} == mk - {j};
      assert mj[k] == m[k] && mk[j] == m[j];
    }
  }

  /**
   * Dropping entries and making the remaining terms no larger never increases the sum:
   * if every entry of `small` is an entry of `big` whose term dominates, the sum is smaller.
   */
  lemma {:induction false} SumMapMono<K, V>(small: map<K, V>, f: (K, V) -> nat, big: map<K, V>, g: (K, V) -> nat)
    requires small.Keys <= big.Keys
    requires forall k :: k in small ==> f(k, small[k]) <= g(k, big[k])
    ensures SumMap(small, f) <= SumMap(big, g)
    decreases |big|
  {
    if big != map[] {
      var k :| k in big;
      SumMapRemove(big, k, g);
      if k in small {
        SumMapRemove(small, k, f);
        SumMapMono(small - {k}, f, big - {k}, g);
      } else {
        assert small.Keys <= (big - {k}).Keys;
        SumMapMono(small, f, big - {k}, g);
      }
    }
  }
}
