/** The sum of a finite family of multisets. */
module Bags {
  ghost function Total<T>(m: map<nat, multiset<T>>): multiset<T> {
    if m == map[] then multiset{} else
      var k :| k in m;
      m[k] + Total(m - {k})
  }

  lemma {:induction false} TotalSplit<T>(m: map<nat, multiset<T>>, k: nat)
    requires k in m
    ensures Total(m) == m[k] + Total(m - {k})
    decreases |m|
  {
    var j :| j in m && Total(m) == m[j] + Total(m - {j});
    if j != k {
      TotalSplit(m - {j}, k);
      TotalSplit(m - {k}, j);
      assert m - {j} - {k} == m - {k} - {j};
    }
  }

  /** Replacing, or adding, one member changes the sum by the difference. */
  lemma TotalUpdate<T>(m: map<nat, multiset<T>>, k: nat, v: multiset<T>)
    ensures Total(m[k := v]) + (if k in m then m[k] else multiset{}) == Total(m) + v
  {
    TotalSplit(m[k := v], k);
    if k in m {
      TotalSplit(m, k);
      assert m[k := v] - {k} == m - {k};
    } else {
      assert m[k := v] - {k} == m;
    }
  }

  /** A member is part of the sum. */
  lemma TotalCovers<T>(m: map<nat, multiset<T>>, k: nat)
    requires k in m
    ensures m[k] <= Total(m)
  {
    TotalSplit(m, k);
  }

  /** The sum of `f` over a list. */
  ghost function Gather<T, U>(xs: seq<T>, f: T -> multiset<U>): multiset<U> {
    if xs == [] then multiset{} else f(xs[0]) + Gather(xs[1..], f)
  }

  lemma {:induction false} GatherAppend<T, U>(xs: seq<T>, x: T, f: T -> multiset<U>)
    ensures Gather(xs + [x], f) == Gather(xs, f) + f(x)
  {
    if xs == [] {
      assert ([x])[1..] == [];
    } else {
      GatherAppend(xs[1..], x, f);
      assert (xs + [x])[1..] == xs[1..] + [x];
    }
  }

  lemma {:induction false} GatherCovers<T, U>(xs: seq<T>, i: nat, f: T -> multiset<U>)
    requires i < |xs|
    ensures f(xs[i]) <= Gather(xs, f)
  {
    if i > 0 {
      GatherCovers(xs[1..], i - 1, f);
    }
  }

  lemma GatherHead<T, U>(xs: seq<T>, f: T -> multiset<U>)
    requires xs != []
    ensures Gather(xs, f) == f(xs[0]) + Gather(xs[1..], f)
  {
  }
}
