/** Sums over sequences and over table columns, and how they change with one element. */
module Sums {

  function SumBy<T>(xs: seq<T>, f: T -> int): int {
    if xs == [] then 0 else SumBy(xs[..|xs| - 1], f) + f(xs[|xs| - 1])
  }

  lemma SumByTakeNext<T>(xs: seq<T>, i: nat, f: T -> int)
    requires i < |xs|
    ensures SumBy(xs[..i + 1], f) == SumBy(xs[..i], f) + f(xs[i])
  {
    assert xs[..i + 1][..i] == xs[..i];
  }

  lemma {:induction false} SumByConcat<T>(xs: seq<T>, ys: seq<T>, f: T -> int)
    ensures SumBy(xs + ys, f) == SumBy(xs, f) + SumBy(ys, f)
  {
    if ys == [] {
      assert xs + ys == xs;
    } else {
      assert (xs + ys)[..|xs + ys| - 1] == xs + ys[..|ys| - 1];
      SumByConcat(xs, ys[..|ys| - 1], f);
    }
  }

  /** The sum does not depend on the order of the elements. */
  lemma {:induction false} SumByPermutation<T>(xs: seq<T>, ys: seq<T>, f: T -> int)
    requires multiset(xs) == multiset(ys)
    ensures SumBy(xs, f) == SumBy(ys, f)
    decreases |xs|
  {
    if xs == [] {
      assert |multiset(ys)| == 0;
    } else {
      var last := xs[|xs| - 1];
      assert last in multiset(ys);
      var i :| 0 <= i < |ys| && ys[i] == last;
      var front, rest := xs[..|xs| - 1], ys[..i] + ys[i + 1..];
      assert xs == front + [last];
      assert ys == ys[..i] + [last] + ys[i + 1..];
      assert multiset(front) == multiset(xs) - multiset{last};
      assert multiset(rest) == multiset(ys) - multiset{last};
      SumByPermutation(front, rest, f);
      SumByConcat(ys[..i], ys[i + 1..], f);
      SumByConcat(ys[..i], [last], f);
      SumByConcat(ys[..i] + [last], ys[i + 1..], f);
    }
  }

  lemma {:induction false} SumByMonotone<T>(xs: seq<T>, f: T -> int, g: T -> int)
    requires forall i :: 0 <= i < |xs| ==> f(xs[i]) <= g(xs[i])
    ensures SumBy(xs, f) <= SumBy(xs, g)
  {
    if xs != [] {
      SumByMonotone(xs[..|xs| - 1], f, g);
    }
  }

  lemma {:induction false} SumBySame<T>(xs: seq<T>, f: T -> int, g: T -> int)
    requires forall i :: 0 <= i < |xs| ==> f(xs[i]) == g(xs[i])
    ensures SumBy(xs, f) == SumBy(xs, g)
  {
    if xs != [] {
      SumBySame(xs[..|xs| - 1], f, g);
    }
  }

  lemma {:induction false} SumByNonNegative<T>(xs: seq<T>, f: T -> int)
    requires forall i :: 0 <= i < |xs| ==> f(xs[i]) >= 0
    ensures SumBy(xs, f) >= 0
    ensures forall i :: 0 <= i < |xs| ==> f(xs[i]) <= SumBy(xs, f)
  {
    if xs != [] {
      SumByNonNegative(xs[..|xs| - 1], f);
      forall i | 0 <= i < |xs| ensures f(xs[i]) <= SumBy(xs, f) {
        if i < |xs| - 1 {
          assert xs[..|xs| - 1][i] == xs[i];
        }
      }
    }
  }

  /** The sum of a table column, rows keyed by K. */
  ghost function SumMap<K>(m: map<K, int>): int {
    if m == map[] then 0
    else
      var k :| k in m;
      m[k] + SumMap(m - {k})
  }

  /** Any row may be taken out first. */
  lemma {:induction false} SumMapRemove<K>(m: map<K, int>, k: K)
    requires k in m
    ensures SumMap(m) == m[k] + SumMap(m - {k})
    decreases |m|
  {
    var p :| p in m && SumMap(m) == m[p] + SumMap(m - {p});
    if p != k {
      SumMapRemove(m - {p}, k);
      assert m - {p} - {k} == m - {k} - {p};
      SumMapRemove(m - {k}, p);
    }
  }

  /** Writing one row adds the new value and takes the old one away. */
  lemma SumMapUpdate<K>(m: map<K, int>, k: K, v: int)
    ensures SumMap(m[k := v]) == SumMap(m) + v - (if k in m then m[k] else 0)
  {
    SumMapRemove(m[k := v], k);
    assert m[k := v] - {k} == m - {k};
    if k in m {
      SumMapRemove(m, k);
    } else {
      assert m - {k} == m;
    }
  }

  lemma {:induction false} SumMapNonNegative<K>(m: map<K, int>)
    requires forall k :: k in m ==> m[k] >= 0
    ensures SumMap(m) >= 0
    decreases |m|
  {
    if m != map[] {
      var k :| k in m && SumMap(m) == m[k] + SumMap(m - {k});
      SumMapNonNegative(m - {k});
    }
  }
}
