/**
 * Sums over the values of a finite map, the way SQL aggregates (SUM, AVG,
 * COUNT) and Python's `sum(...)` over a query set fold a table whose rows
 * come back in no particular order.
 */
module Aggregates {

  /** The sum of all values of `m`, folding the keys in some fixed order. */
  ghost function SumValues<K>(m: map<K, int>): int
    decreases |m|
  {
    if m == map[] then 0
    else
      var k :| k in m;
      assert |m - {k}| < |m| by { CardRemove(m, k); }
      m[k] + SumValues(m - {k})
  }

  /** Removing a present key shrinks a map by exactly one entry. */
  lemma CardRemove<K, V>(m: map<K, V>, k: K)
    requires k in m
    ensures |m - {k}| == |m| - 1
  {
    assert (m - {k}).Keys == m.Keys - {k};
  }

  /**
   * The sum does not depend on the order in which the keys are folded:
   * any present key can be taken out first.
   */
  lemma {:induction false} SumValuesRemove<K>(m: map<K, int>, k: K)
    requires k in m
    ensures SumValues(m) == m[k] + SumValues(m - {k})
    decreases |m|
  {
    var j :| j in m && SumValues(m) == m[j] + SumValues(m - {j});
    if j != k {
      CardRemove(m, j);
      CardRemove(m, k);
      SumValuesRemove(m - {j}, k);
      SumValuesRemove(m - {k}, j);
      assert m - {j} - {k} == m - {k} - {j};
    }
  }

  /** Adding a fresh key adds its value to the sum. */
  lemma SumValuesAdd<K>(m: map<K, int>, k: K, v: int)
    requires k !in m
    ensures SumValues(m[k := v]) == SumValues(m) + v
  {
    SumValuesRemove(m[k := v], k);
    assert m[k := v] - {k} == m;
  }

  /** Replacing the value of a present key changes the sum by the difference. */
  lemma SumValuesUpdate<K>(m: map<K, int>, k: K, v: int)
    requires k in m
    ensures SumValues(m[k := v]) == SumValues(m) - m[k] + v
  {
    SumValuesRemove(m, k);
    SumValuesRemove(m[k := v], k);
    assert m[k := v] - {k} == m - {k};
  }

  /** A sum of `|m|` values that each lie in `[lo, hi]` lies in `[lo * |m|, hi * |m|]`. */
  lemma {:induction false} SumValuesBounds<K>(m: map<K, int>, lo: int, hi: int)
    requires forall k :: k in m ==> lo <= m[k] <= hi
    ensures lo * |m| <= SumValues(m) <= hi * |m|
    decreases |m|
  {
    if m != map[] {
      var k :| k in m;
      SumValuesRemove(m, k);
      CardRemove(m, k);
      SumValuesBounds(m - {k}, lo, hi);
      MulSucc(lo, |m - {k}|);
      MulSucc(hi, |m - {k}|);
    }
  }

  /** The sum of the values of `m`, taking the keys one at a time in whatever order they come. */
  method Sum<K>(m: map<K, int>) returns (total: int)
    ensures total == SumValues(m)
  {
    var rest := m;
    total := 0;
    while rest != map[]
      invariant total + SumValues(rest) == SumValues(m)
      decreases |rest|
    {
      var k :| k in rest;
      SumValuesRemove(rest, k);
      CardRemove(rest, k);
      total := total + rest[k];
      rest := rest - {k};
    }
  }

  lemma MulSucc(a: int, n: nat)
    ensures a * (n + 1) == a * n + a
  {
  }
}
