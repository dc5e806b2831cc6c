/**
 * A stable sort by a real-valued key, ascending. Python's `sorted(xs, key=k,
 * reverse=True)` is this sort with the key negated (reversal keeps ties in
 * their original order), and `list.sort(key=k)` is the in-place version.
 */
module Sorting {

  predicate Ascending<T>(s: seq<T>, key: T -> real) {
    forall i, j | 0 <= i < j < |s| :: key(s[i]) <= key(s[j])
  }

  /** The elements of `s` whose key is `v`, in their order in `s`. */
  function WithKey<T>(s: seq<T>, key: T -> real, v: real): seq<T> {
    if s == [] then []
    else WithKey(s[..|s| - 1], key, v) + (if key(s[|s| - 1]) == v then [s[|s| - 1]] else [])
  }

  /** Places `x` after every element whose key is at most `key(x)`, scanning from the right. */
  function Insert<T>(s: seq<T>, x: T, key: T -> real): seq<T> {
    if s == [] then [x]
    else if key(s[|s| - 1]) > key(x) then Insert(s[..|s| - 1], x, key) + [s[|s| - 1]]
    else s + [x]
  }

  lemma {:induction false} InsertMultiset<T>(s: seq<T>, x: T, key: T -> real)
    ensures multiset(Insert(s, x, key)) == multiset(s) + multiset{x}
  {
    if s != [] && key(s[|s| - 1]) > key(x) {
      InsertMultiset(s[..|s| - 1], x, key);
      assert s == s[..|s| - 1] + [s[|s| - 1]];
    }
  }

  lemma {:induction false} InsertAscending<T>(s: seq<T>, x: T, key: T -> real)
    requires Ascending(s, key)
    ensures Ascending(Insert(s, x, key), key)
  {
    if s != [] && key(s[|s| - 1]) > key(x) {
      var init, last := s[..|s| - 1], s[|s| - 1];
      InsertAscending(init, x, key);
      InsertMultiset(init, x, key);
      var ins := Insert(init, x, key);
      forall k | 0 <= k < |ins|
        ensures key(ins[k]) <= key(last)
      {
        assert ins[k] in multiset(ins);
        assert ins[k] in multiset(init) || ins[k] == x;
      }
    }
  }

  /** Inserting `x` appends it to the run of elements with its key, and leaves every other run alone. */
  lemma {:induction false} InsertWithKey<T>(s: seq<T>, x: T, key: T -> real, v: real)
    ensures WithKey(Insert(s, x, key), key, v)
         == WithKey(s, key, v) + (if key(x) == v then [x] else [])
  {
    if s == [] {
      assert WithKey([x], key, v) == WithKey([], key, v) + (if key(x) == v then [x] else []);
    } else if key(s[|s| - 1]) > key(x) {
      var init, last := s[..|s| - 1], s[|s| - 1];
      InsertWithKey(init, x, key, v);
      var ins := Insert(init, x, key);
      assert (ins + [last])[..|ins|] == ins;
    } else {
      assert (s + [x])[..|s|] == s;
    }
  }

  /** Insertion sort, taking the elements in their original order. */
  function SortBy<T>(s: seq<T>, key: T -> real): seq<T> {
    if s == [] then []
    else Insert(SortBy(s[..|s| - 1], key), s[|s| - 1], key)
  }

  /** The sort keeps every element. */
  lemma {:induction false} SortByPermutation<T>(s: seq<T>, key: T -> real)
    ensures multiset(SortBy(s, key)) == multiset(s)
  {
    if s != [] {
      var init, last := s[..|s| - 1], s[|s| - 1];
      SortByPermutation(init, key);
      InsertMultiset(SortBy(init, key), last, key);
      assert s == init + [last];
    }
  }

  /** The sort orders by key. */
  lemma {:induction false} SortByAscending<T>(s: seq<T>, key: T -> real)
    ensures Ascending(SortBy(s, key), key)
  {
    if s != [] {
      var init := s[..|s| - 1];
      SortByAscending(init, key);
      InsertAscending(SortBy(init, key), s[|s| - 1], key);
    }
  }

  /** The sort keeps elements with equal keys in their original order. */
  lemma {:induction false} SortByStable<T>(s: seq<T>, key: T -> real, v: real)
    ensures WithKey(SortBy(s, key), key, v) == WithKey(s, key, v)
  {
    if s != [] {
      var init := s[..|s| - 1];
      SortByStable(init, key, v);
      InsertWithKey(SortBy(init, key), s[|s| - 1], key, v);
    }
  }

  lemma SortedLength<T>(s: seq<T>, key: T -> real)
    ensures |SortBy(s, key)| == |s|
  {
    SortByPermutation(s, key);
    assert |multiset(SortBy(s, key))| == |multiset(s)|;
  }

  /** One more element taken by the insertion sort. */
  lemma SortBySnoc<T>(s: seq<T>, i: nat, key: T -> real)
    requires i < |s|
    ensures SortBy(s[..i + 1], key) == Insert(SortBy(s[..i], key), s[i], key)
  {
    assert s[..i + 1][..i] == s[..i];
  }

  /** Where `Insert` puts `x`: after the last element whose key is at most `key(x)`. */
  lemma {:induction false} InsertAt<T>(s: seq<T>, x: T, key: T -> real, j: nat)
    requires j <= |s|
    requires forall k | j <= k < |s| :: key(s[k]) > key(x)
    requires j == 0 || key(s[j - 1]) <= key(x)
    ensures Insert(s, x, key) == s[..j] + [x] + s[j..]
    decreases |s|
  {
    if j < |s| {
      var init, last := s[..|s| - 1], s[|s| - 1];
      InsertAt(init, x, key, j);
      assert init[..j] == s[..j];
      assert init[j..] + [last] == s[j..];
    }
  }

  /** One pass of the in-place sort: moves `a[i]` left into the sorted prefix `a[..i]`. */
  method InsertInPlace<T>(a: array<T>, i: nat, key: T -> real)
    requires i < a.Length
    modifies a
    ensures a[..i + 1] == Insert(old(a[..i]), old(a[i]), key)
    ensures forall k | i < k < a.Length :: a[k] == old(a[k])
  {
    ghost var sorted := a[..i];
    var x := a[i];
    var j := i;
    while j > 0 && key(a[j - 1]) > key(x)
      invariant 0 <= j <= i
      invariant forall k | 0 <= k < j :: a[k] == sorted[k]
      invariant forall k | j < k <= i :: a[k] == sorted[k - 1]
      invariant forall k | j <= k < i :: key(sorted[k]) > key(x)
      invariant forall k | i < k < a.Length :: a[k] == old(a[k])
    {
      a[j] := a[j - 1];
      j := j - 1;
    }
    a[j] := x;
    InsertAt(sorted, x, key, j);
    ghost var ins := Insert(sorted, x, key);
    assert forall k | 0 <= k <= i :: a[k] == ins[k];
  }

  /** `list.sort(key=key)` on an array: insertion sort shifting larger elements right. */
  method SortInPlace<T>(a: array<T>, key: T -> real)
    modifies a
    ensures a[..] == SortBy(old(a[..]), key)
  {
    ghost var input := a[..];
    var i := 0;
    while i < a.Length
      invariant 0 <= i <= a.Length
      invariant a[..i] == SortBy(input[..i], key)
      invariant forall k | i <= k < a.Length :: a[k] == input[k]
    {
      InsertInPlace(a, i, key);
      SortBySnoc(input, i, key);
      i := i + 1;
    }
    assert input[..a.Length] == input;
  }
}
