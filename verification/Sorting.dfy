/** A stable sort by an arbitrary total preorder: the `ORDER BY` of the stores and
    the `list.sort` / `sorted` of the algorithms. */
module Sorting {
  import opened Basics

  ghost predicate Preorder<T(!new)>(le: (T, T) -> bool) {
    && (forall a, b :: le(a, b) || le(b, a))
    && (forall a, b, c :: le(a, b) && le(b, c) ==> le(a, c))
  }

  ghost predicate Ordered<T>(xs: seq<T>, le: (T, T) -> bool) {
    forall i, j :: 0 <= i < j < |xs| ==> le(xs[i], xs[j])
  }

  function Insert<T>(x: T, ys: seq<T>, le: (T, T) -> bool): seq<T> {
    if ys == [] || le(x, ys[0]) then [x] + ys else [ys[0]] + Insert(x, ys[1..], le)
  }

  function Sort<T>(xs: seq<T>, le: (T, T) -> bool): seq<T> {
    if xs == [] then [] else Insert(xs[0], Sort(xs[1..], le), le)
  }

  lemma {:induction false} InsertPermutes<T>(x: T, ys: seq<T>, le: (T, T) -> bool)
    ensures multiset(Insert(x, ys, le)) == multiset(ys) + multiset{x}
  {
    if ys == [] || le(x, ys[0]) {
    } else {
      InsertPermutes(x, ys[1..], le);
      assert ys == [ys[0]] + ys[1..];
    }
  }

  lemma {:induction false} InsertOrders<T(!new)>(x: T, ys: seq<T>, le: (T, T) -> bool)
    requires Preorder(le) && Ordered(ys, le)
    ensures Ordered(Insert(x, ys, le), le)
  {
    if ys == [] || le(x, ys[0]) {
      assert forall j :: 0 < j < |ys| ==> le(ys[0], ys[j]);
    } else {
      InsertOrders(x, ys[1..], le);
      InsertPermutes(x, ys[1..], le);
      var r := Insert(x, ys[1..], le);
      forall j | 0 <= j < |r| ensures le(ys[0], r[j]) {
        assert r[j] in multiset(r);
        if r[j] != x {
          assert r[j] in ys[1..];
        }
      }
    }
  }

  /** The result is an ordered rearrangement of the input. */
  lemma {:induction false} SortSorts<T(!new)>(xs: seq<T>, le: (T, T) -> bool)
    requires Preorder(le)
    ensures Ordered(Sort(xs, le), le)
    ensures multiset(Sort(xs, le)) == multiset(xs)
    ensures |Sort(xs, le)| == |xs|
  {
    SortPermutes(xs, le);
    if xs != [] {
      SortSorts(xs[1..], le);
      InsertOrders(xs[0], Sort(xs[1..], le), le);
    }
  }

  lemma {:induction false} SortPermutes<T>(xs: seq<T>, le: (T, T) -> bool)
    ensures multiset(Sort(xs, le)) == multiset(xs)
    ensures |Sort(xs, le)| == |xs|
  {
    if xs != [] {
      SortPermutes(xs[1..], le);
      InsertPermutes(xs[0], Sort(xs[1..], le), le);
      assert xs == [xs[0]] + xs[1..];
    }
    assert |multiset(Sort(xs, le))| == |Sort(xs, le)|;
  }

  /** Same elements, and no duplicates where the input has none. */
  lemma SortKeepsElements<T>(xs: seq<T>, le: (T, T) -> bool)
    ensures forall x :: x in Sort(xs, le) <==> x in xs
    ensures (forall a, b :: 0 <= a < b < |xs| ==> xs[a] != xs[b])
            ==> forall a, b :: 0 <= a < b < |Sort(xs, le)| ==> Sort(xs, le)[a] != Sort(xs, le)[b]
    ensures |Sort(xs, le)| == |xs|
  {
    SortPermutes(xs, le);
    var r := Sort(xs, le);
    forall x ensures x in r <==> x in xs {
      assert x in r <==> x in multiset(r);
      assert x in xs <==> x in multiset(xs);
    }
    if forall a, b :: 0 <= a < b < |xs| ==> xs[a] != xs[b] {
      forall a, b | 0 <= a < b < |r| ensures r[a] != r[b] {
        if r[a] == r[b] {
          TwiceInMultiset(r, a, b);
          OnceInMultiset(xs, r[a]);
        }
      }
    }
  }

  /** Of a list in order, none that a limit leaves out ranks before one that it takes. */
  lemma LimitTakesFirst<T>(xs: seq<T>, le: (T, T) -> bool, limit: nat, x: T)
    requires Ordered(xs, le) && x in xs && x !in Limit(xs, limit)
    ensures |Limit(xs, limit)| == limit
    ensures forall k :: 0 <= k < limit ==> le(Limit(xs, limit)[k], x)
  {
    var batch := Limit(xs, limit);
    assert forall k :: 0 <= k < |batch| ==> batch[k] == xs[k];
    var j :| 0 <= j < |xs| && xs[j] == x;
    assert j >= |batch|;
  }

  /** A sorted query with a limit returns the first rows of the order: none that was left
      out ranks before one that was taken. */
  lemma FirstInOrder<T(!new)>(xs: seq<T>, le: (T, T) -> bool, limit: nat)
    requires Preorder(le)
    ensures var batch := Limit(Sort(xs, le), limit);
            && |batch| == (if |xs| <= limit then |xs| else limit)
            && Ordered(batch, le) && (Distinct(xs) ==> Distinct(batch))
            && (forall x :: x in batch ==> x in xs)
            && (forall x :: x in xs && x !in batch ==>
                  |batch| == limit && forall k :: 0 <= k < |batch| ==> le(batch[k], x))
  {
    var sorted := Sort(xs, le);
    var batch := Limit(sorted, limit);
    SortSorts(xs, le);
    SortKeepsElements(xs, le);
    assert forall k :: 0 <= k < |batch| ==> batch[k] == sorted[k];
    forall x | x in batch ensures x in xs {
      assert x in sorted;
    }
    forall x | x in xs && x !in batch
      ensures |batch| == limit && forall k :: 0 <= k < |batch| ==> le(batch[k], x)
    {
      assert x in sorted;
      LimitTakesFirst(sorted, le, limit, x);
    }
  }

  /** Lists in order make a list in order, if what is in an earlier one ranks before what is in a
      later one. */
  lemma {:induction false} ConcatOrders<T(!new)>(n: nat, part: nat -> seq<T>, le: (T, T) -> bool)
    requires forall f: nat :: f < n ==> Ordered(part(f), le)
    requires forall f: nat, g: nat, x, y :: f < g < n && x in part(f) && y in part(g) ==> le(x, y)
    ensures Ordered(Concat(n, part), le)
  {
    if n > 0 {
      ConcatOrders(n - 1, part, le);
      var all, last := Concat(n - 1, part), part(n - 1);
      forall i, j | 0 <= i < |all| && 0 <= j < |last| ensures le(all[i], last[j]) {
        ConcatHas(n - 1, part, all[i]);
      }
    }
  }

  /** Ranks before, or ranks equal and comes first in the table. */
  predicate Ahead(a: nat, b: nat, le: (nat, nat) -> bool) {
    le(a, b) && (le(b, a) ==> a < b)
  }

  ghost predicate TiesBroken(xs: seq<nat>, le: (nat, nat) -> bool) {
    forall i, j :: 0 <= i < j < |xs| ==> Ahead(xs[i], xs[j], le)
  }

  /** Sorting the rows of a table breaks ties by row id. */
  lemma {:induction false} SortBreaksTies(xs: seq<nat>, le: (nat, nat) -> bool)
    requires Preorder(le) && forall i, j :: 0 <= i < j < |xs| ==> xs[i] < xs[j]
    ensures TiesBroken(Sort(xs, le), le)
  {
    if xs != [] {
      SortBreaksTies(xs[1..], le);
      SortKeepsElements(xs[1..], le);
      forall y | y in Sort(xs[1..], le) ensures xs[0] < y {
        assert y in xs[1..];
        var k :| 0 <= k < |xs[1..]| && xs[1..][k] == y;
        assert xs[0] < xs[k + 1];
      }
      InsertBreaksTies(xs[0], Sort(xs[1..], le), le);
      assert Sort(xs, le) == Insert(xs[0], Sort(xs[1..], le), le);
    }
  }

  lemma {:induction false} InsertBreaksTies(x: nat, ys: seq<nat>, le: (nat, nat) -> bool)
    requires Preorder(le) && TiesBroken(ys, le)
    requires forall y :: y in ys ==> x < y
    ensures TiesBroken(Insert(x, ys, le), le)
  {
    if ys == [] || le(x, ys[0]) {
      forall j | 0 <= j < |ys| ensures Ahead(x, ys[j], le) {
        assert ys[j] in ys;
        assert j > 0 ==> Ahead(ys[0], ys[j], le);
      }
    } else {
      assert forall y :: y in ys[1..] ==> y in ys;
      InsertBreaksTies(x, ys[1..], le);
      InsertPermutes(x, ys[1..], le);
      var r := Insert(x, ys[1..], le);
      forall j | 0 <= j < |r| ensures Ahead(ys[0], r[j], le) {
        assert r[j] in multiset(r);
        if r[j] != x {
          assert r[j] in ys[1..];
        }
      }
    }
  }

  lemma TwiceInMultiset<T>(xs: seq<T>, a: nat, b: nat)
    requires a < b < |xs| && xs[a] == xs[b]
    ensures multiset(xs)[xs[a]] >= 2
  {
    assert xs == xs[..a] + [xs[a]] + xs[a + 1..b] + [xs[b]] + xs[b + 1..];
  }

  lemma {:induction false} OnceInMultiset<T>(xs: seq<T>, x: T)
    requires forall a, b :: 0 <= a < b < |xs| ==> xs[a] != xs[b]
    ensures multiset(xs)[x] <= 1
  {
    if xs != [] {
      OnceInMultiset(xs[1..], x);
      assert xs == [xs[0]] + xs[1..];
      if x == xs[0] {
        assert x !in xs[1..];
      }
    }
  }

  /** The elements of `xs` that rank equal to `a`. */
  function Peers<T>(xs: seq<T>, a: T, le: (T, T) -> bool): seq<T> {
    if xs == [] then []
    else (if le(a, xs[0]) && le(xs[0], a) then [xs[0]] else []) + Peers(xs[1..], a, le)
  }

  /** Stability: elements that rank equal keep their input order. */
  lemma {:induction false} SortIsStable<T(!new)>(xs: seq<T>, a: T, le: (T, T) -> bool)
    requires Preorder(le)
    ensures Peers(Sort(xs, le), a, le) == Peers(xs, a, le)
  {
    if xs != [] {
      SortIsStable(xs[1..], a, le);
      InsertIsStable(xs[0], Sort(xs[1..], le), a, le);
    }
  }

  lemma {:induction false} InsertIsStable<T(!new)>(x: T, ys: seq<T>, a: T, le: (T, T) -> bool)
    requires Preorder(le)
    ensures Peers(Insert(x, ys, le), a, le) == Peers([x], a, le) + Peers(ys, a, le)
  {
    if ys == [] || le(x, ys[0]) {
      assert ([x] + ys)[1..] == ys;
    } else {
      InsertIsStable(x, ys[1..], a, le);
      var rest := Insert(x, ys[1..], le);
      assert ([ys[0]] + rest)[1..] == rest;
    }
  }
}
