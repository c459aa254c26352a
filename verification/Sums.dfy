/** Totals over finite maps. */
module Sums {

  function Same(n: nat): nat {
    n
  }

  ghost function Sum<K(!new), V(!new)>(m: map<K, V>, f: V -> nat): nat {
    if m == map[] then 0
    else
      var k :| k in m;
      f(m[k]) + Sum(m - {k}, f)
  }

  lemma {:induction false} SumRemove<K(!new), V(!new)>(m: map<K, V>, f: V -> nat, k: K)
    requires k in m
    ensures Sum(m, f) == f(m[k]) + Sum(m - {k}, f)
    decreases |m|
  {
    var p :| p in m && Sum(m, f) == f(m[p]) + Sum(m - {p}, f);
    if p != k {
      SumRemove(m - {p}, f, k);
      SumRemove(m - {k}, f, p);
      assert m - {p} - {k} == m - {k} - {p};
    }
  }

  lemma SumInsert<K(!new), V(!new)>(m: map<K, V>, f: V -> nat, k: K, v: V)
    requires k !in m
    ensures Sum(m[k := v], f) == Sum(m, f) + f(v)
  {
    SumRemove(m[k := v], f, k);
    assert m[k := v] - {k} == m;
  }

  lemma SumReplace<K(!new), V(!new)>(m: map<K, V>, f: V -> nat, k: K, v: V)
    requires k in m
    ensures Sum(m[k := v], f) == Sum(m, f) - f(m[k]) + f(v)
  {
    SumRemove(m, f, k);
    SumRemove(m[k := v], f, k);
    assert m[k := v] - {k} == m - {k};
  }

  lemma SumBounds<K(!new), V(!new)>(m: map<K, V>, f: V -> nat, k: K)
    requires k in m
    ensures f(m[k]) <= Sum(m, f)
  {
    SumRemove(m, f, k);
  }
}
