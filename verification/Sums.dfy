/** Sums over finite maps, independent of the order the keys are taken in. */
module Sums {
  ghost function SumMap<K>(m: map<K, int>): int {
    if m == map[] then 0
    else
      var k :| k in m;
      m[k] + SumMap(m - {k})
  }

  lemma {:induction false} SumRemove<K>(m: map<K, int>, k: K)
    requires k in m
    ensures SumMap(m) == m[k] + SumMap(m - {k})
    decreases |m|
  {
    var c :| c in m && SumMap(m) == m[c] + SumMap(m - {c});
    if c != k {
      SumRemove(m - {c}, k);
      SumRemove(m - {k}, c);
      assert m - {c} - {k} == m - {k} - {c};
    }
  }

  lemma SumUpdate<K>(m: map<K, int>, k: K, v: int)
    ensures SumMap(m[k := v]) == SumMap(m) + v - if k in m then m[k] else 0
  {
    SumRemove(m[k := v], k);
    if k in m {
      SumRemove(m, k);
      assert m[k := v] - {k} == m - {k};
    } else {
      assert m[k := v] - {k} == m;
    }
  }

  /** Part of a map of amounts adds up to no more than all of it. */
  lemma {:induction false} SumPart<K>(part: map<K, int>, m: map<K, int>)
    requires forall k :: k in part ==> k in m && m[k] == part[k]
    requires forall k :: k in m ==> m[k] >= 0
    ensures SumMap(part) <= SumMap(m)
    decreases |m|
  {
    if m == map[] {
      assert part == map[];
    } else {
      var k :| k in m;
      SumRemove(m, k);
      if k in part {
        SumRemove(part, k);
      } else {
        assert part - {k} == part;
      }
      SumPart(part - {k}, m - {k});
    }
  }
}
