/** The mean of the values of a string-keyed mapping of reals, as computed by
    `sum(d.values()) / len(d)` in src/models/company_info.py and
    src/utils/metrics.py. A map has no order in Dafny, so the sum is defined by
    picking keys one at a time; `SumRemove` shows the choice does not matter. */
module Averages {

  ghost function Sum(m: map<string, real>): real
    decreases |m|
  {
    if m == map[] then 0.0
    else
      var k :| k in m;
      m[k] + Sum(m - {k})
  }

  /** Any key can be taken out first. */
  lemma {:induction false} SumRemove(m: map<string, real>, k: string)
    requires k in m
    ensures Sum(m) == m[k] + Sum(m - {k})
    decreases |m|
  {
    var j :| j in m && Sum(m) == m[j] + Sum(m - {j});
    if j != k {
      assert k in m - {j};
      SumRemove(m - {j}, k);
      assert j in m - {k};
      SumRemove(m - {k}, j);
      assert m - {j} - {k} == m - {k} - {j};
    }
  }

  /** Adding a new key adds its value. */
  lemma SumInsert(m: map<string, real>, k: string, v: real)
    requires k !in m
    ensures Sum(m[k := v]) == Sum(m) + v
  {
    SumRemove(m[k := v], k);
    assert m[k := v] - {k} == m;
  }

  /** Values in [0, 1] sum to at least 0 and at most their count. */
  lemma {:induction false} SumUnit(m: map<string, real>)
    requires forall k :: k in m ==> 0.0 <= m[k] <= 1.0
    ensures 0.0 <= Sum(m) <= |m| as real
    decreases |m|
  {
    if m != map[] {
      var k :| k in m;
      SumRemove(m, k);
      SumUnit(m - {k});
      assert |m - {k}| == |m| - 1;
    }
  }

  /** The mean of the values, 0.0 for the empty mapping. */
  ghost function Average(m: map<string, real>): (r: real)
    ensures m == map[] ==> r == 0.0
    ensures m != map[] ==> r * (|m| as real) == Sum(m)
  {
    if m == map[] then 0.0 else Sum(m) / (|m| as real)
  }

  /** The mean of values in [0, 1] is in [0, 1]. */
  lemma AverageUnit(m: map<string, real>)
    requires forall k :: k in m ==> 0.0 <= m[k] <= 1.0
    ensures 0.0 <= Average(m) <= 1.0
  {
    if m != map[] {
      SumUnit(m);
      var n := |m| as real;
      assert n >= 1.0;
      DivideUnit(Sum(m), n);
    }
  }

  lemma DivideUnit(x: real, n: real)
    requires n > 0.0 && 0.0 <= x <= n
    ensures 0.0 <= x / n <= 1.0
  {
  }

  /** Three scores 0.8, 0.6 and 0.9 average to 23/30 (about 0.7667). */
  lemma AverageOfThree()
    ensures Average(map["company_name" := 0.8, "company_location" := 0.6, "products_or_services" := 0.9]) == 23.0 / 30.0
  {
    var m1 := map["company_name" := 0.8];
    var m2 := m1["company_location" := 0.6];
    var m3 := m2["products_or_services" := 0.9];
    assert map[] ["company_name" := 0.8] == m1;
    SumInsert(map[], "company_name", 0.8);
    SumInsert(m1, "company_location", 0.6);
    SumInsert(m2, "products_or_services", 0.9);
    assert m3 == map["company_name" := 0.8, "company_location" := 0.6, "products_or_services" := 0.9];
    assert |m3| == 3;
  }
}
