/** Sums of weights over finite sets and maps. */
module Sums {

  ghost function Sum<T>(s: set<T>, weight: T -> nat): (n: nat)
    decreases |s|
  {
    if s == {} then 0
    else
      var x :| x in s;
      weight(x) + Sum(s - {x}, weight)
  }

  /** The order of summation does not matter. */
  lemma {:induction false} SumRemove<T>(s: set<T>, x: T, weight: T -> nat)
    requires x in s
    ensures Sum(s, weight) == weight(x) + Sum(s - {x}, weight)
    decreases |s|
  {
    var y :| y in s && Sum(s, weight) == weight(y) + Sum(s - {y}, weight);
    if y != x {
      SumRemove(s - {y}, x, weight);
      assert (s - {y}) - {x} == (s - {x}) - {y};
      SumRemove(s - {x}, y, weight);
    }
  }

  lemma {:induction false} SumAdd<T>(s: set<T>, x: T, weight: T -> nat)
    requires x !in s
    ensures Sum(s + {x}, weight) == weight(x) + Sum(s, weight)
  {
    SumRemove(s + {x}, x, weight);
    assert (s + {x}) - {x} == s;
  }

  /** A positive sum has a positive member. */
  lemma {:induction false} SumPositive<T>(s: set<T>, weight: T -> nat)
    requires Sum(s, weight) > 0
    ensures exists x <- s :: weight(x) > 0
    decreases |s|
  {
    var y :| y in s && Sum(s, weight) == weight(y) + Sum(s - {y}, weight);
    if weight(y) == 0 {
      SumPositive(s - {y}, weight);
      var x :| x in s - {y} && weight(x) > 0;
      assert x in s;
    }
  }

  /** The sum of a weight over the values of a map. */
  ghost function Total<K, V>(m: map<K, V>, weight: V -> nat): (n: nat)
    decreases |m|
  {
    if m == map[] then 0
    else
      var k :| k in m;
      weight(m[k]) + Total(m - {k}, weight)
  }

  lemma {:induction false} TotalRemove<K, V>(m: map<K, V>, k: K, weight: V -> nat)
    requires k in m
    ensures Total(m, weight) == weight(m[k]) + Total(m - {k}, weight)
    decreases |m|
  {
    var j :| j in m && Total(m, weight) == weight(m[j]) + Total(m - {j}, weight);
    if j != k {
      TotalRemove(m - {j}, k, weight);
      assert (m - {j}) - {k} == (m - {k}) - {j};
      TotalRemove(m - {k}, j, weight);
    }
  }

  /** Setting a key exchanges its old weight, if any, for the new one. */
  lemma {:induction false} TotalSet<K, V>(m: map<K, V>, k: K, v: V, weight: V -> nat)
    ensures Total(m[k := v], weight) == weight(v) + Total(m - {k}, weight)
  {
    TotalRemove(m[k := v], k, weight);
    assert m[k := v] - {k} == m - {k};
  }

  /** Taking a key out and putting it back with another value. */
  lemma {:induction false} TotalReplace<K, V>(m: map<K, V>, k: K, v: V, weight: V -> nat)
    requires k in m
    ensures (m - {k})[k := v] == m[k := v] && |m[k := v]| == |m| && |m - {k}| == |m| - 1
    ensures Total(m[k := v], weight) + weight(m[k]) == Total(m, weight) + weight(v)
    ensures Total(m - {k}, weight) + weight(m[k]) == Total(m, weight)
  {
    TotalSet(m, k, v, weight);
    TotalRemove(m, k, weight);
    assert (m - {k}).Keys == m.Keys - {k};
    assert m[k := v].Keys == m.Keys;
  }

  lemma {:induction false} TotalInsert<K, V>(m: map<K, V>, k: K, v: V, weight: V -> nat)
    requires k !in m
    ensures |m[k := v]| == |m| + 1 && Total(m[k := v], weight) == Total(m, weight) + weight(v)
  {
    TotalSet(m, k, v, weight);
    assert m - {k} == m;
    assert m[k := v].Keys == m.Keys + {k};
  }

  /** Repeated addition. */
  function Times(each: nat, n: nat): nat {
    if n == 0 then 0 else each + Times(each, n - 1)
  }

  lemma TimesNext(each: nat, n: nat)
    ensures Times(each, n + 1) == each + Times(each, n)
  {}

  lemma {:induction false} TimesIsProduct(each: nat, n: nat)
    ensures Times(each, n) == each * n
    decreases n
  {
    if n > 0 {
      TimesIsProduct(each, n - 1);
      assert each * n == each * (n - 1) + each;
    }
  }
}
