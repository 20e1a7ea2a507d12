/** Python's stable sort by a real key. */
module Sorting {

  predicate SortedBy<T>(xs: seq<T>, key: T -> real) {
    forall i, j :: 0 <= i < j < |xs| ==> key(xs[i]) <= key(xs[j])
  }

  /** Inserts after the elements that are not larger, which keeps ties in order. */
  function Insert<T>(xs: seq<T>, x: T, key: T -> real): seq<T> {
    if xs == [] || key(xs[|xs|-1]) <= key(x) then xs + [x]
    else Insert(xs[..|xs|-1], x, key) + [xs[|xs|-1]]
  }

  function SortBy<T>(xs: seq<T>, key: T -> real): seq<T> {
    if xs == [] then [] else Insert(SortBy(xs[..|xs|-1], key), xs[|xs|-1], key)
  }

  lemma {:induction false} InsertKeeps<T>(xs: seq<T>, x: T, key: T -> real)
    ensures multiset(Insert(xs, x, key)) == multiset(xs) + multiset{x}
    ensures |Insert(xs, x, key)| == |xs| + 1
  {
    if xs != [] && key(xs[|xs|-1]) > key(x) {
      InsertKeeps(xs[..|xs|-1], x, key);
      assert xs == xs[..|xs|-1] + [xs[|xs|-1]];
    }
  }

  lemma {:induction false} InsertSorts<T>(xs: seq<T>, x: T, key: T -> real)
    requires SortedBy(xs, key)
    ensures SortedBy(Insert(xs, x, key), key)
  {
    if xs != [] && key(xs[|xs|-1]) > key(x) {
      var rest, last := xs[..|xs|-1], xs[|xs|-1];
      InsertSorts(rest, x, key);
      InsertKeeps(rest, x, key);
      var inserted := Insert(rest, x, key);
      forall i | 0 <= i < |inserted| ensures key(inserted[i]) <= key(last) {
        assert inserted[i] in multiset(inserted);
      }
    }
  }

  lemma {:induction false} SortSorts<T>(xs: seq<T>, key: T -> real)
    ensures SortedBy(SortBy(xs, key), key)
    ensures multiset(SortBy(xs, key)) == multiset(xs)
    ensures |SortBy(xs, key)| == |xs|
  {
    if xs != [] {
      var rest, last := xs[..|xs|-1], xs[|xs|-1];
      SortSorts(rest, key);
      InsertSorts(SortBy(rest, key), last, key);
      InsertKeeps(SortBy(rest, key), last, key);
      assert xs == rest + [last];
    }
  }

  /** The elements with a key, in order. */
  function WithKey<T>(xs: seq<T>, key: T -> real, k: real): seq<T> {
    if xs == [] then []
    else WithKey(xs[..|xs|-1], key, k) + if key(xs[|xs|-1]) == k then [xs[|xs|-1]] else []
  }

  lemma WithKeyAppend<T>(xs: seq<T>, x: T, key: T -> real, k: real)
    ensures WithKey(xs + [x], key, k) == WithKey(xs, key, k) + if key(x) == k then [x] else []
  {
    assert (xs + [x])[..|xs|] == xs;
  }

  lemma {:induction false} InsertKeepsTies<T>(xs: seq<T>, x: T, key: T -> real, k: real)
    requires SortedBy(xs, key)
    ensures WithKey(Insert(xs, x, key), key, k) == WithKey(xs, key, k) + if key(x) == k then [x] else []
  {
    if xs == [] || key(xs[|xs|-1]) <= key(x) {
      WithKeyAppend(xs, x, key, k);
    } else {
      var (rest, last) := (xs[..|xs|-1], xs[|xs|-1]);
      InsertKeepsTies(rest, x, key, k);
      WithKeyAppend(Insert(rest, x, key), last, key, k);
      assert key(x) == k ==> key(last) != k;
    }
  }

  /** The sort is stable: elements with equal keys stay in order. */
  lemma {:induction false} SortKeepsTies<T>(xs: seq<T>, key: T -> real, k: real)
    ensures WithKey(SortBy(xs, key), key, k) == WithKey(xs, key, k)
  {
    if xs != [] {
      SortKeepsTies(xs[..|xs|-1], key, k);
      SortSorts(xs[..|xs|-1], key);
      InsertKeepsTies(SortBy(xs[..|xs|-1], key), xs[|xs|-1], key, k);
    }
  }

  /** A sorted list is left as it is. */
  lemma {:induction false} SortOfSorted<T>(xs: seq<T>, key: T -> real)
    requires SortedBy(xs, key)
    ensures SortBy(xs, key) == xs
  {
    if xs != [] {
      var rest := xs[..|xs|-1];
      SortOfSorted(rest, key);
      assert xs == rest + [xs[|xs|-1]];
    }
  }
}
