/**
 * Frequency tables: Python dicts from a key to a count, incremented one
 * key at a time with the "set to 0 when absent, then add 1" idiom.
 */
module Counts {

  /** The count of `k`, 0 when the table has no entry for it. */
  function Get<K>(m: map<K, int>, k: K): int
  {
    if k in m then m[k] else 0
  }

  /**
   * `if k not in m: m[k] = 0` followed by `m[k] = m[k] + 1`: the entry for
   * `k` grows by one and every other entry is left as it was.
   */
  function Bump<K>(m: map<K, int>, k: K): (r: map<K, int>)
    ensures r.Keys == m.Keys + {k}
    ensures r[k] == Get(m, k) + 1
    ensures forall j :: j in m && j != k ==> r[j] == m[j]
  {
    m[k := Get(m, k) + 1]
  }

  /** The two statements the source writes for one increment, on a table held by value. */
  method Increment<K>(m: map<K, int>, k: K) returns (r: map<K, int>)
    ensures r == Bump(m, k)
  {
    r := m;
    if k !in r {
      r := r[k := 0];
    }
    r := r[k := r[k] + 1];
  }

  /** The sum of all counts in a table. */
  ghost function Total<K>(m: map<K, int>): int
    decreases m.Keys
  {
    if m == map[] then 0
    else
      var k :| k in m;
      m[k] + Total(m - {k})
  }

  /** Any entry can be taken out of the sum first. */
  lemma {:induction false} TotalRemove<K>(m: map<K, int>, k: K)
    requires k in m
    ensures Total(m) == m[k] + Total(m - {k})
    decreases m.Keys
  {
    var j :| j in m && Total(m) == m[j] + Total(m - {j});
    if j != k {
      TotalRemove(m - {j}, k);
      TotalRemove(m - {k}, j);
      assert m - {j} - {k} == m - {k} - {j};
    }
  }

  /** One increment adds exactly one to the sum of the table. */
  lemma TotalBump<K>(m: map<K, int>, k: K)
    ensures Total(Bump(m, k)) == Total(m) + 1
  {
    var r := Bump(m, k);
    TotalRemove(r, k);
    if k in m {
      TotalRemove(m, k);
      assert r - {k} == m - {k};
    } else {
      assert r - {k} == m;
    }
  }
}
