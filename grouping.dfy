/** Grouping a list into keyed running totals, the way the reports fill a JavaScript object:
    the first element with a new key creates its entry (entries keep insertion order) and
    every element adds to the count and the sum of its key's entry. */
module Grouping {
  import opened Schema
  import opened Rows

  datatype Bucket<K> = Bucket(key: K, count: int, sum: int)

  /** The entry for key `k`, if there is one (the object property lookup). */
  function IndexOf<K(==)>(buckets: seq<Bucket<K>>, k: K): (r: Option<nat>)
    ensures r.Some? ==> r.value < |buckets| && buckets[r.value].key == k
    ensures r.None? <==> forall j :: 0 <= j < |buckets| ==> buckets[j].key != k
  {
    if buckets == [] then None
    else if buckets[0].key == k then Some(0)
    else match IndexOf(buckets[1..], k)
      case None => None
      case Some(j) => Some(j + 1)
  }

  predicate KeysDistinct<K(==)>(buckets: seq<Bucket<K>>) {
    forall i, j :: 0 <= i < j < |buckets| ==> buckets[i].key != buckets[j].key
  }

  /** One element counted into the running totals. */
  function Add<T, K(==)>(buckets: seq<Bucket<K>>, x: T, key: T -> K, count: T -> int, sum: T -> int): seq<Bucket<K>> {
    match IndexOf(buckets, key(x))
    case None => buckets + [Bucket(key(x), count(x), sum(x))]
    case Some(j) => buckets[j := Bucket(key(x), buckets[j].count + count(x), buckets[j].sum + sum(x))]
  }

  /** The entries after counting every element of `xs`, in order. */
  function Group<T, K(==)>(xs: seq<T>, key: T -> K, count: T -> int, sum: T -> int): seq<Bucket<K>> {
    if xs == [] then [] else Add(Group(xs[..|xs| - 1], key, count, sum), xs[|xs| - 1], key, count, sum)
  }

  /** Σ f(x) over the elements of `xs` with key `k`. */
  function SumWhere<T, K(==)>(xs: seq<T>, key: T -> K, k: K, f: T -> int): int {
    if xs == [] then 0
    else SumWhere(xs[..|xs| - 1], key, k, f) + (if key(xs[|xs| - 1]) == k then f(xs[|xs| - 1]) else 0)
  }

  function EntryCount<K>(b: Bucket<K>): int { b.count }
  function EntrySum<K>(b: Bucket<K>): int { b.sum }

  /** Σ count over the entries. */
  function CountTotal<K>(buckets: seq<Bucket<K>>): int {
    SumOf(buckets, EntryCount)
  }

  /** Σ sum over the entries. */
  function SumTotal<K>(buckets: seq<Bucket<K>>): int {
    SumOf(buckets, EntrySum)
  }

  /** The (count, sum) recorded for key `k`; (0, 0) when it has no entry. */
  function TotalsFor<K(==)>(buckets: seq<Bucket<K>>, k: K): (int, int) {
    match IndexOf(buckets, k)
    case None => (0, 0)
    case Some(j) => (buckets[j].count, buckets[j].sum)
  }

  /** Adding one element keeps keys distinct, makes its key present, and leaves other keys alone. */
  lemma AddShape<T, K>(buckets: seq<Bucket<K>>, x: T, key: T -> K, count: T -> int, sum: T -> int)
    requires KeysDistinct(buckets)
    ensures var after := Add(buckets, x, key, count, sum);
      && KeysDistinct(after)
      && IndexOf(after, key(x)).Some?
      && TotalsFor(after, key(x)) == (TotalsFor(buckets, key(x)).0 + count(x), TotalsFor(buckets, key(x)).1 + sum(x))
      && forall k :: k != key(x) ==> TotalsFor(after, k) == TotalsFor(buckets, k) && (IndexOf(after, k).Some? <==> IndexOf(buckets, k).Some?)
  {
    var after := Add(buckets, x, key, count, sum);
    match IndexOf(buckets, key(x))
    case None =>
      assert after == buckets + [Bucket(key(x), count(x), sum(x))];
      forall k | k != key(x)
        ensures TotalsFor(after, k) == TotalsFor(buckets, k) && (IndexOf(after, k).Some? <==> IndexOf(buckets, k).Some?)
      {
        IndexOfAppend(buckets, Bucket(key(x), count(x), sum(x)), k);
      }
      IndexOfAppend(buckets, Bucket(key(x), count(x), sum(x)), key(x));
    case Some(j) =>
      forall k | k != key(x)
        ensures TotalsFor(after, k) == TotalsFor(buckets, k) && (IndexOf(after, k).Some? <==> IndexOf(buckets, k).Some?)
      {
        IndexOfUpdate(buckets, j, Bucket(key(x), buckets[j].count + count(x), buckets[j].sum + sum(x)), k);
      }
      IndexOfUpdate(buckets, j, Bucket(key(x), buckets[j].count + count(x), buckets[j].sum + sum(x)), key(x));
  }

  lemma {:induction false} IndexOfAppend<K>(buckets: seq<Bucket<K>>, b: Bucket<K>, k: K)
    requires IndexOf(buckets, b.key).None?
    ensures IndexOf(buckets + [b], k) == if k == b.key then Some(|buckets|) else IndexOf(buckets, k)
  {
    if buckets != [] {
      assert (buckets + [b])[1..] == buckets[1..] + [b];
      IndexOfAppend(buckets[1..], b, k);
    }
  }

  lemma {:induction false} IndexOfUpdate<K>(buckets: seq<Bucket<K>>, j: nat, b: Bucket<K>, k: K)
    requires KeysDistinct(buckets) && j < |buckets| && buckets[j].key == b.key
    ensures IndexOf(buckets[j := b], k) == IndexOf(buckets, k)
    ensures KeysDistinct(buckets[j := b])
  {
    if j > 0 {
      assert buckets[j := b][1..] == buckets[1..][j - 1 := b];
      IndexOfUpdate(buckets[1..], j - 1, b, k);
    }
  }

  /** The totals recorded for every key are the sums over the elements with that key, keys
      are distinct, and a key has an entry exactly when some element carries it. */
  lemma {:induction false} GroupTotals<T, K>(xs: seq<T>, key: T -> K, count: T -> int, sum: T -> int)
    ensures var g := Group(xs, key, count, sum);
      && KeysDistinct(g)
      && (forall k :: TotalsFor(g, k) == (SumWhere(xs, key, k, count), SumWhere(xs, key, k, sum)))
      && (forall k :: IndexOf(g, k).Some? <==> exists i :: 0 <= i < |xs| && key(xs[i]) == k)
  {
    if xs != [] {
      var init := xs[..|xs| - 1];
      var x := xs[|xs| - 1];
      GroupTotals(init, key, count, sum);
      AddShape(Group(init, key, count, sum), x, key, count, sum);
      forall k
        ensures IndexOf(Group(xs, key, count, sum), k).Some? <==> exists i :: 0 <= i < |xs| && key(xs[i]) == k
      {
        if k != key(x) && exists i :: 0 <= i < |xs| && key(xs[i]) == k {
          var i :| 0 <= i < |xs| && key(xs[i]) == k;
          assert i < |init| && key(init[i]) == k;
        }
        if exists i :: 0 <= i < |init| && key(init[i]) == k {
          var i :| 0 <= i < |init| && key(init[i]) == k;
          assert key(xs[i]) == k;
        }
      }
    }
  }

  /** Counting an element adds its count and its sum to the grand totals. */
  lemma AddConserves<T, K>(buckets: seq<Bucket<K>>, x: T, key: T -> K, count: T -> int, sum: T -> int)
    ensures CountTotal(Add(buckets, x, key, count, sum)) == CountTotal(buckets) + count(x)
    ensures SumTotal(Add(buckets, x, key, count, sum)) == SumTotal(buckets) + sum(x)
  {
    match IndexOf(buckets, key(x))
    case None =>
      var b := Bucket(key(x), count(x), sum(x));
      assert (buckets + [b])[..|buckets|] == buckets;
    case Some(j) =>
      TotalsUpdate(buckets, j, Bucket(key(x), buckets[j].count + count(x), buckets[j].sum + sum(x)));
  }

  lemma {:induction false} TotalsUpdate<K>(buckets: seq<Bucket<K>>, j: nat, b: Bucket<K>)
    requires j < |buckets|
    ensures CountTotal(buckets[j := b]) == CountTotal(buckets) - buckets[j].count + b.count
    ensures SumTotal(buckets[j := b]) == SumTotal(buckets) - buckets[j].sum + b.sum
  {
    var n := |buckets|;
    if j < n - 1 {
      assert buckets[j := b][..n - 1] == buckets[..n - 1][j := b];
      TotalsUpdate(buckets[..n - 1], j, b);
    } else {
      assert buckets[j := b][..n - 1] == buckets[..n - 1];
    }
  }

  /** The entries' counts add up to the elements' counts, and likewise the sums. */
  lemma {:induction false} GroupConserves<T, K>(xs: seq<T>, key: T -> K, count: T -> int, sum: T -> int)
    ensures CountTotal(Group(xs, key, count, sum)) == SumOf(xs, count)
    ensures SumTotal(Group(xs, key, count, sum)) == SumOf(xs, sum)
  {
    if xs != [] {
      GroupConserves(xs[..|xs| - 1], key, count, sum);
      AddConserves(Group(xs[..|xs| - 1], key, count, sum), xs[|xs| - 1], key, count, sum);
    }
  }

  /** Grouping a longer list is grouping its prefix and then counting the next element. */
  lemma GroupSnoc<T, K>(xs: seq<T>, x: T, key: T -> K, count: T -> int, sum: T -> int)
    ensures Group(xs + [x], key, count, sum) == Add(Group(xs, key, count, sum), x, key, count, sum)
  {
    assert (xs + [x])[..|xs|] == xs;
  }

  function EntryKey<K>(b: Bucket<K>): K { b.key }

  /** The sort key of an ordering by descending sum. */
  function SumDescending<K>(b: Bucket<K>): int { -b.sum }

  /** `b` is the entry that grouping `xs` gives its key: some element has that key, and the
      count and the sum are the totals over the elements with it. */
  predicate IsEntryOf<T, K(==)>(b: Bucket<K>, xs: seq<T>, key: T -> K, count: T -> int, sum: T -> int) {
    && b.count == SumWhere(xs, key, b.key, count)
    && b.sum == SumWhere(xs, key, b.key, sum)
    && exists i :: 0 <= i < |xs| && key(xs[i]) == b.key
  }

  /** Every entry of the grouping is the entry of its key, and every element's key has one. */
  lemma GroupEntries<T, K>(xs: seq<T>, key: T -> K, count: T -> int, sum: T -> int)
    ensures var g := Group(xs, key, count, sum);
      && KeysDistinct(g)
      && (forall b :: b in g ==> IsEntryOf(b, xs, key, count, sum))
      && (forall i :: 0 <= i < |xs| ==> exists j :: 0 <= j < |g| && g[j].key == key(xs[i]))
  {
    var g := Group(xs, key, count, sum);
    GroupTotals(xs, key, count, sum);
    forall b | b in g
      ensures IsEntryOf(b, xs, key, count, sum)
    {
      var j :| 0 <= j < |g| && g[j] == b;
      assert IndexOf(g, b.key).Some?;
      assert TotalsFor(g, b.key) == (b.count, b.sum);
    }
    forall i | 0 <= i < |xs|
      ensures exists j :: 0 <= j < |g| && g[j].key == key(xs[i])
    {
      assert IndexOf(g, key(xs[i])).Some?;
    }
  }

  /** The grouping loop of the reports, continuing from the entries of the elements seen
      so far: for each element, create its key's entry at zero if it has none, then add the
      element's count and sum to it. */
  method TallyInto<T, K(==)>(buckets: seq<Bucket<K>>, ghost seen: seq<T>, xs: seq<T>,
                             key: T -> K, count: T -> int, sum: T -> int)
    returns (after: seq<Bucket<K>>)
    requires buckets == Group(seen, key, count, sum)
    ensures after == Group(seen + xs, key, count, sum)
  {
    after := buckets;
    var i := 0;
    assert seen + xs[..0] == seen;
    while i < |xs|
      invariant 0 <= i <= |xs|
      invariant after == Group(seen + xs[..i], key, count, sum)
    {
      after := Count(after, xs[i], key, count, sum);
      GroupSnoc(seen + xs[..i], xs[i], key, count, sum);
      assert seen + xs[..i + 1] == (seen + xs[..i]) + [xs[i]];
      i := i + 1;
    }
    assert xs[..i] == xs;
  }

  /** The grouping loop from no entries. */
  method Tally<T, K(==)>(xs: seq<T>, key: T -> K, count: T -> int, sum: T -> int) returns (buckets: seq<Bucket<K>>)
    ensures buckets == Group(xs, key, count, sum)
  {
    buckets := TallyInto([], [], xs, key, count, sum);
    assert [] + xs == xs;
  }

  /** The body of the grouping loops: look the key up, create its entry with zero totals when
      it is missing, then add to the entry in place. */
  method Count<T, K(==)>(buckets: seq<Bucket<K>>, x: T, key: T -> K, count: T -> int, sum: T -> int)
    returns (after: seq<Bucket<K>>)
    ensures after == Add(buckets, x, key, count, sum)
  {
    after := buckets;
    var k := key(x);
    var j := IndexOf(after, k);
    if j.None? {
      after := after + [Bucket(k, 0, 0)];
      j := Some(|after| - 1);
    }
    var entry := after[j.value];
    after := after[j.value := Bucket(k, entry.count + count(x), entry.sum + sum(x))];
  }
}
