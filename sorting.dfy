/**
 * A stable sort by a numeric key, as Python's `list.sort(key=...)` and an
 * SQL `ORDER BY` on one column give it: ascending keys, and elements with
 * equal keys in their original order.
 */
module Sorting {

  /** Keys never decrease along `s`. */
  predicate SortedBy<T>(s: seq<T>, key: T -> real) {
    forall i, j :: 0 <= i < j < |s| ==> key(s[i]) <= key(s[j])
  }

  /** `x` placed after every element whose key is at most its own. */
  function InsertBy<T>(s: seq<T>, x: T, key: T -> real): (r: seq<T>)
    ensures |r| == |s| + 1
    ensures multiset(r) == multiset(s) + multiset{x}
  {
    if |s| == 0 then [x]
    else if key(x) < key(s[|s| - 1]) then
      assert s == s[..|s| - 1] + [s[|s| - 1]];
      InsertBy(s[..|s| - 1], x, key) + [s[|s| - 1]]
    else s + [x]
  }

  /** Insertion sort from the front of the input. */
  function SortBy<T>(xs: seq<T>, key: T -> real): (r: seq<T>)
    ensures |r| == |xs|
    ensures multiset(r) == multiset(xs)
  {
    if |xs| == 0 then []
    else
      assert xs == xs[..|xs| - 1] + [xs[|xs| - 1]];
      InsertBy(SortBy(xs[..|xs| - 1], key), xs[|xs| - 1], key)
  }

  /** The elements whose key is `k`, in order. */
  function WithKey<T>(s: seq<T>, key: T -> real, k: real): (r: seq<T>)
    ensures |r| <= |s|
  {
    if |s| == 0 then [] else WithKey(s[..|s| - 1], key, k) + (if key(s[|s| - 1]) == k then [s[|s| - 1]] else [])
  }

  lemma {:induction false} WithKeyAppend<T>(a: seq<T>, b: seq<T>, key: T -> real, k: real)
    ensures WithKey(a + b, key, k) == WithKey(a, key, k) + WithKey(b, key, k)
    decreases |b|
  {
    if |b| == 0 {
      assert a + b == a;
    } else {
      var n := |b| - 1;
      assert (a + b)[..|a + b| - 1] == a + b[..n];
      WithKeyAppend(a, b[..n], key, k);
    }
  }

  /** Every element of an insertion is `x` or an element of `s`. */
  lemma InsertFrom<T>(s: seq<T>, x: T, key: T -> real, i: int)
    requires 0 <= i < |s| + 1
    ensures InsertBy(s, x, key)[i] == x || exists j :: 0 <= j < |s| && s[j] == InsertBy(s, x, key)[i]
  {
    var r := InsertBy(s, x, key);
    assert r[i] in multiset(r);
    if r[i] != x {
      assert r[i] in multiset(s);
    }
  }

  /** Inserting into a sorted sequence keeps it sorted. */
  lemma {:induction false} InsertSorted<T>(s: seq<T>, x: T, key: T -> real)
    requires SortedBy(s, key)
    ensures SortedBy(InsertBy(s, x, key), key)
  {
    if |s| > 0 && key(x) < key(s[|s| - 1]) {
      var init := s[..|s| - 1];
      var last := s[|s| - 1];
      InsertSorted(init, x, key);
      var r0 := InsertBy(init, x, key);
      forall i | 0 <= i < |r0|
        ensures key(r0[i]) <= key(last)
      {
        InsertFrom(init, x, key, i);
      }
      assert InsertBy(s, x, key) == r0 + [last];
    }
  }

  /** The elements of a one-element sequence with key `k`. */
  lemma WithKeySingle<T>(y: T, key: T -> real, k: real)
    ensures WithKey([y], key, k) == if key(y) == k then [y] else []
  {
    assert [y][..0] == [];
  }

  /**
   * The recursive step of `InsertStable`: `x` goes in front of the last
   * element, whose key is larger, so the two never share the key `k`.
   */
  lemma InsertStableStep<T>(s: seq<T>, x: T, key: T -> real, k: real)
    requires |s| > 0 && key(x) < key(s[|s| - 1])
    requires WithKey(InsertBy(s[..|s| - 1], x, key), key, k)
      == WithKey(s[..|s| - 1], key, k) + (if key(x) == k then [x] else [])
    ensures WithKey(InsertBy(s, x, key), key, k) == WithKey(s, key, k) + (if key(x) == k then [x] else [])
  {
    var init := s[..|s| - 1];
    var last := s[|s| - 1];
    var r0 := InsertBy(init, x, key);
    var xPart := if key(x) == k then [x] else [];
    var lastPart := if key(last) == k then [last] else [];
    calc {
      WithKey(InsertBy(s, x, key), key, k);
      { assert InsertBy(s, x, key) == r0 + [last]; }
      WithKey(r0 + [last], key, k);
      { WithKeyAppend(r0, [last], key, k); WithKeySingle(last, key, k); }
      WithKey(r0, key, k) + lastPart;
      WithKey(init, key, k) + xPart + lastPart;
      { assert xPart == [] || lastPart == []; }
      WithKey(init, key, k) + lastPart + xPart;
      WithKey(s, key, k) + xPart;
    }
  }

  /** Inserting puts `x` behind the elements with its key. */
  lemma {:induction false} InsertStable<T>(s: seq<T>, x: T, key: T -> real, k: real)
    ensures WithKey(InsertBy(s, x, key), key, k) == WithKey(s, key, k) + (if key(x) == k then [x] else [])
  {
    if |s| > 0 && key(x) < key(s[|s| - 1]) {
      InsertStable(s[..|s| - 1], x, key, k);
      InsertStableStep(s, x, key, k);
    } else {
      assert InsertBy(s, x, key) == s + [x];
      WithKeyAppend(s, [x], key, k);
      WithKeySingle(x, key, k);
    }
  }

  /** The result is sorted. */
  lemma {:induction false} SortBySorted<T>(xs: seq<T>, key: T -> real)
    ensures SortedBy(SortBy(xs, key), key)
  {
    if |xs| > 0 {
      SortBySorted(xs[..|xs| - 1], key);
      InsertSorted(SortBy(xs[..|xs| - 1], key), xs[|xs| - 1], key);
    }
  }

  /** The sort is stable: the elements of any one key keep their order. */
  lemma {:induction false} SortByStable<T>(xs: seq<T>, key: T -> real, k: real)
    ensures WithKey(SortBy(xs, key), key, k) == WithKey(xs, key, k)
  {
    if |xs| > 0 {
      var init := xs[..|xs| - 1];
      SortByStable(init, key, k);
      InsertStable(SortBy(init, key), xs[|xs| - 1], key, k);
    }
  }

  /** A sorted sequence is its own sort. */
  lemma {:induction false} SortBySortedInput<T>(xs: seq<T>, key: T -> real)
    requires SortedBy(xs, key)
    ensures SortBy(xs, key) == xs
  {
    if |xs| > 0 {
      var init := xs[..|xs| - 1];
      assert SortedBy(init, key);
      SortBySortedInput(init, key);
      assert SortBy(xs, key) == InsertBy(init, xs[|xs| - 1], key);
      if |init| > 0 {
        assert key(init[|init| - 1]) <= key(xs[|xs| - 1]);
      }
    }
  }
}
