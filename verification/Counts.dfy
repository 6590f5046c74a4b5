/** Counter dictionaries: a missing key stands for zero. */
module Counts {

  function At<K>(m: map<K, int>, k: K): int {
    if k in m then m[k] else 0
  }

  function Add<K>(m: map<K, int>, k: K, n: int): map<K, int> {
    m[k := At(m, k) + n]
  }

  /** `for k, n in b.items(): a[k] += n` */
  function Merge<K>(a: map<K, int>, b: map<K, int>): map<K, int> {
    map k | k in a.Keys + b.Keys :: At(a, k) + At(b, k)
  }

  lemma MergeAddRight<K>(a: map<K, int>, b: map<K, int>, k: K, n: int)
    ensures Merge(a, Add(b, k, n)) == Add(Merge(a, b), k, n)
  {
  }

  lemma MergeAddLeft<K>(a: map<K, int>, b: map<K, int>, k: K, n: int)
    ensures Merge(Add(a, k, n), b) == Add(Merge(a, b), k, n)
  {
  }

  /** Sum of all counters. */
  ghost function Total<K>(m: map<K, int>): int
    decreases |m|
  {
    if m == map[] then 0 else
      var k :| k in m;
      assert (m - {k}).Keys == m.Keys - {k};
      m[k] + Total(m - {k})
  }

  /** The sum does not depend on the order in which counters are visited. */
  lemma {:induction false} TotalRemove<K>(m: map<K, int>, k: K)
    requires k in m
    ensures Total(m) == m[k] + Total(m - {k})
    decreases |m|
  {
    var j :| j in m && Total(m) == m[j] + Total(m - {j});
    assert (m - {j}).Keys == m.Keys - {j};
    assert (m - {k}).Keys == m.Keys - {k};
    if j != k {
      TotalRemove(m - {j}, k);
      TotalRemove(m - {k}, j);
      assert m - {j} - {k} == m - {k} - {j};
    }
  }

  lemma TotalAdd<K>(m: map<K, int>, k: K, n: int)
    ensures Total(Add(m, k, n)) == Total(m) + n
  {
    var m' := Add(m, k, n);
    TotalRemove(m', k);
    if k in m {
      TotalRemove(m, k);
      assert m' - {k} == m - {k};
    } else {
      assert m' - {k} == m;
    }
  }
}
