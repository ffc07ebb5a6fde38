// Sums over the values of a finite map.

module Sums {
  ghost function Total<K>(m: map<K, nat>): nat {
    if m == map[] then 0
    else
      var k :| k in m;
      m[k] + Total(m - {k})
  }

  lemma {:induction false} TotalSplit<K>(m: map<K, nat>, k: K)
    requires k in m
    ensures Total(m) == m[k] + Total(m - {k})
    decreases |m|
  {
    var pick :| pick in m && Total(m) == m[pick] + Total(m - {pick});
    if pick != k {
      TotalSplit(m - {pick}, k);
      TotalSplit(m - {k}, pick);
      assert m - {pick} - {k} == m - {k} - {pick};
    }
  }

  lemma TotalInsert<K>(m: map<K, nat>, k: K, n: nat)
    requires k !in m
    ensures Total(m[k := n]) == Total(m) + n
  {
    TotalSplit(m[k := n], k);
    assert m[k := n] - {k} == m;
  }

  lemma TotalDrop<K>(m: map<K, nat>, k: K)
    ensures Total(m - {k}) == Total(m) - if k in m then m[k] else 0
  {
    if k in m { TotalSplit(m, k); } else { assert m - {k} == m; }
  }

  /** Keeping only some of the keys never sums to more. */
  lemma {:induction false} TotalShrinks<K>(m: map<K, nat>, smaller: map<K, nat>)
    requires forall k :: k in smaller ==> k in m && smaller[k] == m[k]
    ensures Total(smaller) <= Total(m)
    decreases |m|
  {
    if smaller != map[] {
      var k :| k in smaller;
      TotalSplit(smaller, k);
      TotalSplit(m, k);
      TotalShrinks(m - {k}, smaller - {k});
    }
  }

  method AddUp<K>(m: map<K, nat>) returns (sum: nat)
    ensures sum == Total(m)
  {
    sum := 0;
    var rest := m;
    while rest != map[]
      invariant sum + Total(rest) == Total(m)
      decreases |rest|
    {
      var k :| k in rest;
      TotalSplit(rest, k);
      sum, rest := sum + rest[k], rest - {k};
    }
  }
}
