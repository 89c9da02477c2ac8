/** Sizes of sets and sums of counts. */
module Counting {
  import opened Redis

  /** The numbers below n. */
  function Below(n: nat): (s: set<nat>)
    ensures |s| == n && forall k: nat :: k in s <==> k < n
  {
    if n == 0 then {} else
      var m: nat := n - 1;
      Below(m) + {m}
  }

  lemma SubsetSize<T>(a: set<T>, b: set<T>)
    requires a <= b
    ensures |a| <= |b|
  {
    assert b == a + (b - a);
  }

  lemma AnyOf<T>(s: set<T>) returns (x: T)
    requires s != {}
    ensures x in s
  {
    x :| x in s;
  }

  /** All counts together. */
  ghost function SumOf<K>(m: map<K, int>): int {
    if m == map[] then 0 else
      var k :| k in m;
      m[k] + SumOf(m - {k})
  }

  lemma {:induction false} SumOfPick<K>(m: map<K, int>, k: K)
    requires k in m
    ensures SumOf(m) == m[k] + SumOf(m - {k})
    decreases |m|
  {
    var c :| c in m && SumOf(m) == m[c] + SumOf(m - {c});
    if c != k {
      SumOfPick(m - {c}, k);
      SumOfPick(m - {k}, c);
      assert m - {c} - {k} == m - {k} - {c};
    }
  }

  lemma SumOfBump<K>(m: map<K, int>, k: K, delta: int)
    ensures SumOf(Bump(m, k, delta)) == SumOf(m) + delta
  {
    var bumped := Bump(m, k, delta);
    SumOfPick(bumped, k);
    if k in m {
      SumOfPick(m, k);
      assert bumped - {k} == m - {k};
    } else {
      assert bumped - {k} == m;
    }
  }
}
