/** The `orderBy` of a Prisma query: rows come back sorted by one key. The database leaves the
    order of rows with equal keys open; the model fixes one (insertion order is kept), and every
    property below holds for any order with the two promised properties: sorted and a permutation. */
module Ordering {

  /** Non-decreasing by `key`. A descending `orderBy` is an ascending one by the negated key. */
  predicate SortedBy<T>(xs: seq<T>, key: T -> int) {
    forall i, j | 0 <= i < j < |xs| :: key(xs[i]) <= key(xs[j])
  }

  /** Places `x` before the first element with a larger key. */
  function InsertBy<T>(x: T, xs: seq<T>, key: T -> int): (r: seq<T>)
    requires SortedBy(xs, key)
    ensures multiset(r) == multiset(xs) + multiset{x}
    ensures |r| == |xs| + 1
    ensures SortedBy(r, key)
    decreases |xs|, 1
  {
    if |xs| == 0 then [x]
    else if key(x) <= key(xs[0]) then [x] + xs
    else
      var tail := InsertBy(x, xs[1..], key);
      assert xs == [xs[0]] + xs[1..];
      InsertByBelow(x, xs, key);
      [xs[0]] + tail
  }

  /** Inserting behind the head keeps every key at least the head's. */
  lemma InsertByBelow<T>(x: T, xs: seq<T>, key: T -> int)
    requires SortedBy(xs, key) && |xs| > 0 && key(xs[0]) < key(x)
    ensures forall k | 0 <= k < |xs| :: key(xs[0]) <= key(InsertBy(x, xs[1..], key)[k])
    decreases |xs|, 0
  {
    var tail := InsertBy(x, xs[1..], key);
    forall k | 0 <= k < |tail| ensures key(xs[0]) <= key(tail[k]) {
      assert tail[k] in multiset(xs[1..]) + multiset{x};
    }
  }

  /** The rows in `xs`, sorted by `key`. */
  function SortBy<T>(xs: seq<T>, key: T -> int): (r: seq<T>)
    ensures multiset(r) == multiset(xs)
    ensures |r| == |xs|
    ensures SortedBy(r, key)
    decreases |xs|
  {
    if |xs| == 0 then []
    else
      assert xs == [xs[0]] + xs[1..];
      InsertBy(xs[0], SortBy(xs[1..], key), key)
  }

  /** Sorting keeps exactly the rows it was given. */
  lemma SortedElements<T>(xs: seq<T>, key: T -> int, y: T)
    ensures y in SortBy(xs, key) <==> y in xs
  {
    assert y in SortBy(xs, key) <==> y in multiset(SortBy(xs, key));
    assert y in xs <==> y in multiset(xs);
  }
}
