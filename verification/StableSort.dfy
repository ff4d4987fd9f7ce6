/** Python's `sorted(xs, key=...)`: ascending, and stable on equal keys. */
module StableSort {

  function Insert<T>(sorted: seq<T>, x: T, key: T -> real): seq<T> {
    if sorted == [] || key(sorted[|sorted| - 1]) <= key(x) then sorted + [x]
    else Insert(sorted[..|sorted| - 1], x, key) + [sorted[|sorted| - 1]]
  }

  function SortBy<T>(xs: seq<T>, key: T -> real): seq<T> {
    if xs == [] then [] else Insert(SortBy(xs[..|xs| - 1], key), xs[|xs| - 1], key)
  }

  predicate Ascending<T>(xs: seq<T>, key: T -> real) {
    forall i, j :: 0 <= i < j < |xs| ==> key(xs[i]) <= key(xs[j])
  }

  // The elements with one key, in order.
  function WithKey<T>(xs: seq<T>, key: T -> real, k: real): seq<T> {
    if xs == [] then []
    else WithKey(xs[..|xs| - 1], key, k) + if key(xs[|xs| - 1]) == k then [xs[|xs| - 1]] else []
  }

  lemma {:induction false} InsertIsPermutation<T>(sorted: seq<T>, x: T, key: T -> real)
    ensures multiset(Insert(sorted, x, key)) == multiset(sorted) + multiset{x}
  {
    if sorted != [] && key(sorted[|sorted| - 1]) > key(x) {
      InsertIsPermutation(sorted[..|sorted| - 1], x, key);
      assert sorted == sorted[..|sorted| - 1] + [sorted[|sorted| - 1]];
    }
  }

  lemma {:induction false} InsertIsSorted<T>(sorted: seq<T>, x: T, key: T -> real)
    requires Ascending(sorted, key)
    ensures Ascending(Insert(sorted, x, key), key)
  {
    if sorted != [] && key(sorted[|sorted| - 1]) > key(x) {
      var (rest, last) := (sorted[..|sorted| - 1], sorted[|sorted| - 1]);
      InsertIsSorted(rest, x, key);
      var inner := Insert(rest, x, key);
      forall i | 0 <= i < |inner| ensures key(inner[i]) <= key(last) {
        InsertIsPermutation(rest, x, key);
        assert inner[i] in multiset(rest) + multiset{x};
      }
    }
  }

  lemma WithKeyAppend<T>(xs: seq<T>, x: T, key: T -> real, k: real)
    ensures WithKey(xs + [x], key, k) == WithKey(xs, key, k) + if key(x) == k then [x] else []
  {
    assert (xs + [x])[..|xs|] == xs;
  }

  lemma {:induction false} InsertIsStable<T>(sorted: seq<T>, x: T, key: T -> real, k: real)
    ensures WithKey(Insert(sorted, x, key), key, k) == WithKey(sorted, key, k) + if key(x) == k then [x] else []
  {
    if sorted == [] || key(sorted[|sorted| - 1]) <= key(x) {
      WithKeyAppend(sorted, x, key, k);
    } else {
      var (rest, last) := (sorted[..|sorted| - 1], sorted[|sorted| - 1]);
      InsertIsStable(rest, x, key, k);
      WithKeyAppend(Insert(rest, x, key), last, key, k);
    }
  }

  // Sorted, a permutation, and stable.
  lemma {:induction false} SortByIsSort<T>(xs: seq<T>, key: T -> real, k: real)
    ensures Ascending(SortBy(xs, key), key)
    ensures multiset(SortBy(xs, key)) == multiset(xs)
    ensures WithKey(SortBy(xs, key), key, k) == WithKey(xs, key, k)
  {
    if xs != [] {
      hide Insert, Ascending, WithKey;
      var (rest, last) := (xs[..|xs| - 1], xs[|xs| - 1]);
      SortByIsSort(rest, key, k);
      InsertIsSorted(SortBy(rest, key), last, key);
      InsertIsPermutation(SortBy(rest, key), last, key);
      InsertIsStable(SortBy(rest, key), last, key, k);
      WithKeyAppend(rest, last, key, k);
      assert xs == rest + [last];
    }
  }

  // A sequence already in order is left alone.
  lemma {:induction false} SortByOfAscending<T>(xs: seq<T>, key: T -> real)
    requires Ascending(xs, key)
    ensures SortBy(xs, key) == xs
  {
    if xs != [] {
      SortByOfAscending(xs[..|xs| - 1], key);
    }
  }
}
