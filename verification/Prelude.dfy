/** What several parts share: optional values, sizes of finite sets, and finite sums
    over a map of weights. The forwarders use them as the amount of
    work their goroutines still have to do once a mapping has been stopped. */
module Prelude {

  datatype Option<T> = None | Some(value: T)

  ghost function Total<K>(m: map<K, nat>): nat
    decreases |m|
  {
    if m == map[] then 0 else
      var k :| k in m;
      m[k] + Total(m - {k})
  }

  /** Any key may be taken out first. */
  lemma {:induction false} Extract<K>(m: map<K, nat>, k: K)
    requires k in m
    ensures Total(m) == m[k] + Total(m - {k})
    decreases |m|
  {
    var p :| p in m && Total(m) == m[p] + Total(m - {p});
    if p != k {
      Extract(m - {p}, k);
      Extract(m - {k}, p);
      assert m - {p} - {k} == m - {k} - {p};
    }
  }

  lemma Replace<K>(m: map<K, nat>, k: K, v: nat)
    requires k in m
    ensures Total(m[k := v]) == Total(m) - m[k] + v
  {
    Extract(m, k);
    Extract(m[k := v], k);
    assert m[k := v] - {k} == m - {k};
  }

  lemma {:induction false} SubsetSize<T>(a: set<T>, b: set<T>)
    requires a <= b
    ensures |a| <= |b|
  {
    assert b == a + (b - a);
  }
}
