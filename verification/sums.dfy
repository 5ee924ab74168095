/** The sum of the values of a finite map, with the facts needed to track it across updates. */
module Sums {

  ghost function Pick<K>(m: map<K, nat>): (k: K)
    requires m != map[]
    ensures k in m
  {
    var k :| k in m; k
  }

  lemma RemoveShrinks<K>(m: map<K, nat>, k: K)
    requires k in m
    ensures |m - {k}| == |m| - 1
  {
    assert (m - {k}).Keys == m.Keys - {k};
  }

  ghost function Sum<K>(m: map<K, nat>): nat
    decreases |m|
  {
    if m == map[] then 0
    else
      var k := Pick(m);
      RemoveShrinks(m, k);
      m[k] + Sum(m - {k})
  }

  /** Any key, not just the one the definition happens to pick, can be split off the sum. */
  lemma {:induction false} SumRemove<K>(m: map<K, nat>, k: K)
    requires k in m
    ensures Sum(m) == m[k] + Sum(m - {k})
    decreases |m|
  {
    var p := Pick(m);
    if p != k {
      RemoveShrinks(m, p);
      RemoveShrinks(m, k);
      SumRemove(m - {p}, k);
      SumRemove(m - {k}, p);
      assert (m - {p}) - {k} == (m - {k}) - {p};
    }
  }

  lemma SumWithout<K>(m: map<K, nat>, k: K)
    ensures Sum(m - {k}) + (if k in m then m[k] else 0) == Sum(m)
  {
    if k in m {
      SumRemove(m, k);
    } else {
      assert m - {k} == m;
    }
  }

  lemma SumUpdate<K>(m: map<K, nat>, k: K, v: nat)
    ensures Sum(m[k := v]) + (if k in m then m[k] else 0) == Sum(m) + v
  {
    SumRemove(m[k := v], k);
    assert m[k := v] - {k} == m - {k};
    SumWithout(m, k);
  }

  lemma ValueBelowSum<K>(m: map<K, nat>, k: K)
    requires k in m
    ensures m[k] <= Sum(m)
  {
    SumRemove(m, k);
  }
}
