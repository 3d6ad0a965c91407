/** Ordering report rows: a stable sort by an integer key (what `Array.prototype.sort` with a
    subtracting comparator, or a database `orderBy`, produces) and taking the first n rows. */
module Sorting {
  import opened Rows

  predicate SortedBy<T>(xs: seq<T>, key: T -> int) {
    forall i, j :: 0 <= i < j < |xs| ==> key(xs[i]) <= key(xs[j])
  }

  /** Puts `x` in front of the first row whose key is not smaller, so rows with equal keys
      keep their relative order. */
  function Insert<T>(x: T, ys: seq<T>, key: T -> int): (r: seq<T>)
    ensures |r| == |ys| + 1 && multiset(r) == multiset(ys) + multiset{x}
  {
    if ys == [] || key(x) <= key(ys[0]) then [x] + ys
    else
      assert ys == [ys[0]] + ys[1..];
      [ys[0]] + Insert(x, ys[1..], key)
  }

  /** A row in front of sorted rows with no smaller key keeps them sorted. */
  lemma ConsSorted<T>(h: T, rest: seq<T>, key: T -> int)
    requires SortedBy(rest, key) && forall e :: e in rest ==> key(h) <= key(e)
    ensures SortedBy([h] + rest, key)
  {
    var r := [h] + rest;
    forall i, j | 0 <= i < j < |r|
      ensures key(r[i]) <= key(r[j])
    {
      if i == 0 {
        assert r[j] == rest[j - 1] && r[j] in rest;
      } else {
        assert r[i] == rest[i - 1] && r[j] == rest[j - 1];
      }
    }
  }

  lemma {:induction false} InsertSorted<T>(x: T, ys: seq<T>, key: T -> int)
    requires SortedBy(ys, key)
    ensures SortedBy(Insert(x, ys, key), key)
  {
    if ys != [] && key(x) > key(ys[0]) {
      var rest := Insert(x, ys[1..], key);
      assert SortedBy(ys[1..], key);
      InsertSorted(x, ys[1..], key);
      forall e | e in rest
        ensures key(ys[0]) <= key(e)
      {
        assert e in multiset(rest);
        if e != x {
          assert e in multiset(ys[1..]);
          var i :| 0 <= i < |ys[1..]| && ys[1..][i] == e;
          assert ys[i + 1] == e;
        }
      }
      ConsSorted(ys[0], rest, key);
    } else {
      forall e | e in ys
        ensures key(x) <= key(e)
      {
        var i :| 0 <= i < |ys| && ys[i] == e;
        assert key(ys[0]) <= key(ys[i]);
      }
      ConsSorted(x, ys, key);
    }
  }

  /** A stable sort of `xs` by ascending key. */
  function SortBy<T>(xs: seq<T>, key: T -> int): (r: seq<T>)
    ensures |r| == |xs| && multiset(r) == multiset(xs)
  {
    if xs == [] then []
    else
      assert xs == [xs[0]] + xs[1..];
      Insert(xs[0], SortBy(xs[1..], key), key)
  }

  /** The sort is ordered by key and rearranges the rows without adding or losing any. */
  lemma {:induction false} SortBySorted<T>(xs: seq<T>, key: T -> int)
    ensures SortedBy(SortBy(xs, key), key)
  {
    if xs != [] {
      SortBySorted(xs[1..], key);
      InsertSorted(xs[0], SortBy(xs[1..], key), key);
    }
  }

  /** Inserting a row adds it to any sum over the rows. */
  lemma {:induction false} SumOfInsert<T>(x: T, ys: seq<T>, key: T -> int, f: T -> int)
    ensures SumOf(Insert(x, ys, key), f) == f(x) + SumOf(ys, f)
  {
    if ys == [] || key(x) <= key(ys[0]) {
      SumOfCons(x, ys, f);
    } else {
      SumOfInsert(x, ys[1..], key, f);
      SumOfCons(ys[0], Insert(x, ys[1..], key), f);
      SumOfCons(ys[0], ys[1..], f);
      assert ys == [ys[0]] + ys[1..];
    }
  }

  /** Sorting leaves any sum over the rows unchanged. */
  lemma {:induction false} SumOfSortBy<T>(xs: seq<T>, key: T -> int, f: T -> int)
    ensures SumOf(SortBy(xs, key), f) == SumOf(xs, f)
  {
    if xs != [] {
      var rest := SortBy(xs[1..], key);
      assert SortBy(xs, key) == Insert(xs[0], rest, key);
      assert SumOf(rest, f) == SumOf(xs[1..], f) by {
        SumOfSortBy(xs[1..], key, f);
      }
      SumOfInsert(xs[0], rest, key, f);
      assert SumOf(xs, f) == f(xs[0]) + SumOf(xs[1..], f) by {
        SumOfCons(xs[0], xs[1..], f);
        assert xs == [xs[0]] + xs[1..];
      }
    }
  }

  /** The sort holds exactly the rows of its input. */
  lemma SortByMembers<T>(xs: seq<T>, key: T -> int)
    ensures forall x :: x in SortBy(xs, key) <==> x in xs
  {
    forall x
      ensures x in SortBy(xs, key) <==> x in xs
    {
      assert x in SortBy(xs, key) <==> x in multiset(SortBy(xs, key));
      assert x in xs <==> x in multiset(xs);
    }
  }

  /** No two rows share an identity. */
  predicate DistinctBy<T, K(==)>(xs: seq<T>, id: T -> K) {
    forall i, j :: 0 <= i < j < |xs| ==> id(xs[i]) != id(xs[j])
  }

  /** A row in front of rows with other identities keeps them distinct. */
  lemma ConsDistinct<T, K>(h: T, rest: seq<T>, id: T -> K)
    requires DistinctBy(rest, id) && forall e :: e in rest ==> id(e) != id(h)
    ensures DistinctBy([h] + rest, id)
  {
    var r := [h] + rest;
    forall i, j | 0 <= i < j < |r|
      ensures id(r[i]) != id(r[j])
    {
      if i == 0 {
        assert r[j] == rest[j - 1] && r[j] in rest;
      } else {
        assert r[i] == rest[i - 1] && r[j] == rest[j - 1];
      }
    }
  }

  lemma {:induction false} InsertDistinct<T, K>(x: T, ys: seq<T>, key: T -> int, id: T -> K)
    requires DistinctBy(ys, id) && forall e :: e in ys ==> id(e) != id(x)
    ensures DistinctBy(Insert(x, ys, key), id)
  {
    if ys != [] && key(x) > key(ys[0]) {
      var rest := Insert(x, ys[1..], key);
      assert DistinctBy(ys[1..], id);
      InsertDistinct(x, ys[1..], key, id);
      forall e | e in rest
        ensures id(e) != id(ys[0])
      {
        assert e in multiset(rest);
        if e != x {
          assert e in multiset(ys[1..]);
          var i :| 0 <= i < |ys[1..]| && ys[1..][i] == e;
          assert ys[i + 1] == e;
        }
      }
      ConsDistinct(ys[0], rest, id);
    } else {
      ConsDistinct(x, ys, id);
    }
  }

  /** Sorting keeps rows with distinct identities distinct. */
  lemma {:induction false} SortByDistinct<T, K>(xs: seq<T>, key: T -> int, id: T -> K)
    requires DistinctBy(xs, id)
    ensures DistinctBy(SortBy(xs, key), id)
  {
    if xs != [] {
      var tail := xs[1..];
      assert DistinctBy(tail, id) by {
        forall i, j | 0 <= i < j < |tail| ensures id(tail[i]) != id(tail[j]) {
          assert tail[i] == xs[i + 1] && tail[j] == xs[j + 1];
        }
      }
      SortByDistinct(tail, key, id);
      forall e | e in SortBy(tail, key)
        ensures id(e) != id(xs[0])
      {
        assert e in multiset(SortBy(tail, key));
        assert e in multiset(tail);
        var i :| 0 <= i < |tail| && tail[i] == e;
        assert e == xs[i + 1];
      }
      InsertDistinct(xs[0], SortBy(tail, key), key, id);
    }
  }

  /** The first n rows of the sort are ordered, and none of them has a larger key than any
      row left out; together the kept and the left-out rows are exactly the input. */
  lemma TopN<T>(xs: seq<T>, key: T -> int, n: nat)
    ensures var sorted := SortBy(xs, key);
      var top := Take(sorted, n);
      var rest := sorted[|top|..];
      && |top| <= n && SortedBy(top, key)
      && (forall i, j :: 0 <= i < |top| && 0 <= j < |rest| ==> key(top[i]) <= key(rest[j]))
      && multiset(top) + multiset(rest) == multiset(xs)
  {
    var sorted := SortBy(xs, key);
    SortBySorted(xs, key);
    var top := Take(sorted, n);
    var rest := sorted[|top|..];
    assert sorted == top + rest;
    forall i, j | 0 <= i < |top| && 0 <= j < |rest|
      ensures key(top[i]) <= key(rest[j])
    {
      assert top[i] == sorted[i] && rest[j] == sorted[|top| + j];
    }
  }

  /** What taking the first n rows of the sort keeps and drops: the kept rows come from the
      input, a dropped row has no smaller key than any kept one, and nothing is dropped when
      there are at most n rows. */
  lemma TopNMembers<T>(xs: seq<T>, key: T -> int, n: nat)
    ensures var top := Take(SortBy(xs, key), n);
      && (forall b :: b in top ==> b in xs)
      && (forall e :: e in xs && e !in top ==> forall b :: b in top ==> key(b) <= key(e))
      && (|xs| <= n ==> forall e :: e in xs ==> e in top)
  {
    var sorted := SortBy(xs, key);
    var top := Take(sorted, n);
    SortByMembers(xs, key);
    forall b | b in top ensures b in xs {
      assert b in sorted;
    }
    forall e | e in xs && e !in top
      ensures forall b :: b in top ==> key(b) <= key(e)
    {
      TopNDropped(xs, key, n, e);
    }
  }

  lemma TopNDropped<T>(xs: seq<T>, key: T -> int, n: nat, e: T)
    requires e in SortBy(xs, key) && e !in Take(SortBy(xs, key), n)
    ensures forall b :: b in Take(SortBy(xs, key), n) ==> key(b) <= key(e)
  {
    var sorted := SortBy(xs, key);
    var top := Take(sorted, n);
    var rest := sorted[|top|..];
    TopN(xs, key, n);
    assert sorted == top + rest;
    var j :| 0 <= j < |rest| && rest[j] == e;
    forall b | b in top ensures key(b) <= key(e) {
      var i :| 0 <= i < |top| && top[i] == b;
    }
  }
}
