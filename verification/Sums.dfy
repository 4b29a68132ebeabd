/** Finite sums over maps and sequences, used to state conservation. */
module Sums {
  /** The sum of the weights of the values of a map. */
  ghost function SumBy<K, V>(m: map<K, V>, weight: V -> nat): nat
    decreases |m|
  {
    if m == map[] then 0
    else
      var k :| k in m;
      weight(m[k]) + SumBy(m - {k}, weight)
  }

  lemma SumByEmpty<K, V>(weight: V -> nat)
    ensures SumBy<K, V>(map[], weight) == 0
  {
  }

  /** Any key can be split off. */
  lemma {:induction false} SumByRemove<K, V>(m: map<K, V>, weight: V -> nat, k: K)
    requires k in m
    ensures SumBy(m, weight) == weight(m[k]) + SumBy(m - {k}, weight)
    decreases |m|
  {
    var j :| j in m && SumBy(m, weight) == weight(m[j]) + SumBy(m - {j}, weight);
    if j != k {
      SumByRemove(m - {j}, weight, k);
      SumByRemove(m - {k}, weight, j);
      assert m - {j} - {k} == m - {k} - {j};
    }
  }

  lemma SumByInsert<K, V>(m: map<K, V>, weight: V -> nat, k: K, v: V)
    requires k !in m
    ensures SumBy(m[k := v], weight) == SumBy(m, weight) + weight(v)
  {
    SumByRemove(m[k := v], weight, k);
    assert m[k := v] - {k} == m;
  }

  lemma SumByUpdate<K, V>(m: map<K, V>, weight: V -> nat, k: K, v: V)
    requires k in m
    ensures SumBy(m[k := v], weight) + weight(m[k]) == SumBy(m, weight) + weight(v)
  {
    SumByRemove(m, weight, k);
    SumByRemove(m[k := v], weight, k);
    assert m[k := v] - {k} == m - {k};
  }

  lemma SumByBound<K, V>(m: map<K, V>, weight: V -> nat, k: K)
    requires k in m
    ensures weight(m[k]) <= SumBy(m, weight)
  {
    SumByRemove(m, weight, k);
  }

  lemma RemovePart<K, V>(m: map<K, V>, part: map<K, V>, k: K)
    requires k in part
    ensures m - {k} - (part - {k}).Keys == m - part.Keys
  {
    assert (part - {k}).Keys == part.Keys - {k};
  }

  /** One map inside another: the rest makes up the difference. */
  lemma {:induction false} SumBySplit<K, V>(m: map<K, V>, part: map<K, V>, weight: V -> nat)
    requires forall k :: k in part ==> k in m && m[k] == part[k]
    ensures SumBy(m, weight) == SumBy(part, weight) + SumBy(m - part.Keys, weight)
    decreases |part|
  {
    if part == map[] {
      assert m - part.Keys == m;
    } else {
      var k :| k in part;
      SumByRemove(m, weight, k);
      SumByRemove(part, weight, k);
      SumBySplit(m - {k}, part - {k}, weight);
      RemovePart(m, part, k);
    }
  }

  lemma {:induction false} SumBySame<K, V, W>(m: map<K, V>, n: map<K, W>, f: V -> nat, g: W -> nat)
    requires m.Keys == n.Keys && forall k :: k in m ==> f(m[k]) == g(n[k])
    ensures SumBy(m, f) == SumBy(n, g)
    decreases |m|
  {
    if m == map[] {
      assert n == map[];
    } else {
      var k :| k in m;
      SumByRemove(m, f, k);
      SumByRemove(n, g, k);
      SumBySame(m - {k}, n - {k}, f, g);
    }
  }

  /** The weight of a number is the number. */
  ghost function Same(): nat -> nat { n => n }

  predicate Distinct<T(==)>(xs: seq<T>) {
    forall i, j :: 0 <= i < j < |xs| ==> xs[i] != xs[j]
  }
}
