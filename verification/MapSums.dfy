/** Sums over the values of a finite map. */
module MapSums {
  /** The sum of the values. */
  ghost function MapSum<K>(m: map<K, int>): (t: int) {
    if m.Keys == {} then 0
    else
      var k :| k in m;
      m[k] + MapSum(m - {k})
  }

  /** The sum may be taken apart at any key. */
  lemma {:induction false} MapSumAt<K>(m: map<K, int>, k: K)
    requires k in m
    ensures MapSum(m) == m[k] + MapSum(m - {k})
    decreases |m|
  {
    var j :| j in m && MapSum(m) == m[j] + MapSum(m - {j});
    if j != k {
      MapSumAt(m - {j}, k);
      MapSumAt(m - {k}, j);
      assert m - {j} - {k} == m - {k} - {j};
    }
  }

  lemma MapSumSet<K>(m: map<K, int>, k: K, v: int)
    ensures MapSum(m[k := v]) == MapSum(m) - (if k in m then m[k] else 0) + v
  {
    MapSumAt(m[k := v], k);
    if k in m {
      MapSumAt(m, k);
      assert m[k := v] - {k} == m - {k};
    } else {
      assert m[k := v] - {k} == m;
    }
  }

  lemma MapSumNone<K>(m: map<K, int>)
    requires m.Keys == {}
    ensures MapSum(m) == 0
  {
  }

  lemma {:induction false} MapSumNonneg<K>(m: map<K, int>)
    requires forall k :: k in m ==> m[k] >= 0
    ensures MapSum(m) >= 0
    ensures forall k :: k in m ==> m[k] <= MapSum(m)
    decreases |m|
  {
    hide MapSum;
    if m.Keys == {} {
      MapSumNone(m);
    } else {
      forall k | k in m ensures MapSum(m) >= m[k] >= 0 {
        MapSumAt(m, k);
        MapSumNonneg(m - {k});
      }
      var k :| k in m;
      assert MapSum(m) >= m[k];
    }
  }
}
