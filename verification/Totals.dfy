/** Sums over finite maps. */
module Totals {

  ghost function Total<K>(m: map<K, nat>): nat
    decreases |m|
  {
    if m == map[] then 0
    else
      var k :| k in m;
      assert |m - {k}| < |m| by { assert (m - {k}).Keys == m.Keys - {k}; }
      m[k] + Total(m - {k})
  }

  lemma {:induction false} TotalRemove<K>(m: map<K, nat>, k: K)
    requires k in m
    ensures Total(m) == m[k] + Total(m - {k})
    decreases |m|
  {
    var c :| c in m && Total(m) == m[c] + Total(m - {c});
    if c != k {
      assert (m - {c}).Keys == m.Keys - {c};
      TotalRemove(m - {c}, k);
      assert (m - {k}).Keys == m.Keys - {k};
      TotalRemove(m - {k}, c);
      assert m - {c} - {k} == m - {k} - {c};
    }
  }

  lemma TotalUpdate<K>(m: map<K, nat>, k: K, v: nat)
    ensures Total(m[k := v]) + (if k in m then m[k] else 0) == Total(m) + v
  {
    TotalRemove(m[k := v], k);
    if k in m {
      TotalRemove(m, k);
      assert m[k := v] - {k} == m - {k};
    } else {
      assert m[k := v] - {k} == m;
    }
  }

  lemma MemberAtMostTotal<K>(m: map<K, nat>, k: K)
    requires k in m
    ensures m[k] <= Total(m)
  {
  }
}
