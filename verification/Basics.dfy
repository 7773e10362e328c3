/** Small shared vocabulary: optional values, prefixes of a table, sums and counts. */
module Basics {

  datatype Option<+T> = None | Some(value: T)

  /** The first `limit` elements, or all of them when there are fewer (SQL's LIMIT). */
  function Limit<T>(xs: seq<T>, limit: nat): (r: seq<T>)
    ensures r <= xs
    ensures |r| == if |xs| <= limit then |xs| else limit
  {
    if |xs| <= limit then xs else xs[..limit]
  }

  /** The positions below `n` that satisfy `p`, in increasing order (SQL's WHERE on a table). */
  function Where(n: nat, p: nat -> bool): (r: seq<nat>)
    ensures forall i: nat :: i in r <==> i < n && p(i)
    ensures forall a, b :: 0 <= a < b < |r| ==> r[a] < r[b]
  {
    if n == 0 then [] else
      var rest := Where(n - 1, p);
      assert forall a :: 0 <= a < |rest| ==> rest[a] in rest;
      if p(n - 1) then rest + [n - 1] else rest
  }

  /** The first `n` parts, one after the other. */
  function Concat<T>(n: nat, part: nat -> seq<T>): seq<T> {
    if n == 0 then [] else Concat(n - 1, part) + part(n - 1)
  }

  lemma {:induction false} ConcatHas<T>(n: nat, part: nat -> seq<T>, x: T)
    ensures x in Concat(n, part) <==> exists f: nat :: f < n && x in part(f)
  {
    if n > 0 {
      ConcatHas(n - 1, part, x);
      assert x in Concat(n, part) <==> x in Concat(n - 1, part) || x in part(n - 1);
    }
  }

  /** Cutting every part to `limit` before cutting the whole changes nothing. */
  lemma {:induction false} CutPartsCutWhole<T>(n: nat, part: nat -> seq<T>, cut: nat -> seq<T>, limit: nat)
    requires forall f: nat :: f < n ==> cut(f) == Limit(part(f), limit)
    ensures Limit(Concat(n, cut), limit) == Limit(Concat(n, part), limit)
  {
    if n > 0 {
      CutPartsCutWhole(n - 1, part, cut, limit);
      CutNext(Concat(n - 1, cut), Concat(n - 1, part), part(n - 1), limit);
    }
  }

  lemma CutNext<T>(a: seq<T>, b: seq<T>, next: seq<T>, limit: nat)
    requires Limit(a, limit) == Limit(b, limit)
    ensures Limit(a + Limit(next, limit), limit) == Limit(b + next, limit)
  {
    if |b| >= limit {
      assert Limit(a + Limit(next, limit), limit) == Limit(a, limit);
      assert Limit(b + next, limit) == Limit(b, limit);
    }
  }

  ghost predicate Distinct<T>(xs: seq<T>) {
    forall a, b :: 0 <= a < b < |xs| ==> xs[a] != xs[b]
  }

  function Elements<T>(xs: seq<T>): set<T> {
    set x | x in xs
  }

  /** A duplicate-free sequence has as many entries as elements. */
  lemma {:induction false} DistinctSize<T>(xs: seq<T>)
    requires Distinct(xs)
    ensures |Elements(xs)| == |xs|
  {
    if xs != [] {
      var n := |xs| - 1;
      DistinctSize(xs[..n]);
      assert Elements(xs) == Elements(xs[..n]) + {xs[n]};
      assert xs[n] !in xs[..n];
    }
  }

  /** Two duplicate-free sequences with the same elements are equally long. */
  lemma SameElementsSameSize<T>(xs: seq<T>, ys: seq<T>)
    requires Distinct(xs) && Distinct(ys)
    requires forall x :: x in xs <==> x in ys
    ensures |xs| == |ys|
  {
    DistinctSize(xs);
    DistinctSize(ys);
    assert Elements(xs) == Elements(ys);
  }
}
