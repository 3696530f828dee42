/** Sequence helpers shared by the scrapers and the batch writer. */
module Seqs {
  import opened Basics

  /** The present results of `f` on `xs`, in order: a loop that appends only when `f` yields something. */
  function FilterMap<A, B>(xs: seq<A>, f: A -> Option<B>): (r: seq<B>)
    ensures |r| <= |xs|
  {
    if |xs| == 0 then []
    else (match f(xs[0]) case Some(y) => [y] case None => []) + FilterMap(xs[1..], f)
  }

  /** `FilterMap` distributes over concatenation, so the relative order of results is that of the inputs. */
  lemma {:induction false} FilterMapAppend<A, B>(a: seq<A>, b: seq<A>, f: A -> Option<B>)
    ensures FilterMap(a + b, f) == FilterMap(a, f) + FilterMap(b, f)
    decreases |a|
  {
    if |a| == 0 {
      assert a + b == b;
    } else {
      var head := match f(a[0]) case Some(y) => [y] case None => [];
      FilterMapAppend(a[1..], b, f);
      assert (a + b)[1..] == a[1..] + b;
      assert (a + b)[0] == a[0];
      assert FilterMap(a + b, f) == head + FilterMap(a[1..] + b, f);
      assert FilterMap(a, f) == head + FilterMap(a[1..], f);
    }
  }

  /** One more input adds its result, if any, at the end. */
  lemma FilterMapSnoc<A, B>(xs: seq<A>, x: A, f: A -> Option<B>)
    ensures FilterMap(xs + [x], f) == FilterMap(xs, f) + (if f(x).Some? then [f(x).value] else [])
  {
    FilterMapAppend(xs, [x], f);
    assert [x][1..] == [];
  }

  /**
   * The loop that walks `xs` in order and appends `f`'s result for every
   * element that has one, skipping the others.
   */
  method CollectPresent<A, B>(xs: seq<A>, f: A -> Option<B>) returns (r: seq<B>)
    ensures r == FilterMap(xs, f)
  {
    r := [];
    var i := 0;
    while i < |xs|
      invariant 0 <= i <= |xs|
      invariant r == FilterMap(xs[..i], f)
    {
      var y := f(xs[i]);
      FilterMapSnoc(xs[..i], xs[i], f);
      assert xs[..i + 1] == xs[..i] + [xs[i]];
      if y.Some? {
        r := r + [y.value];
      }
      i := i + 1;
    }
    assert xs[..|xs|] == xs;
  }

  /** Every result comes from some input. */
  lemma {:induction false} FilterMapFrom<A, B>(xs: seq<A>, f: A -> Option<B>, k: nat)
    requires k < |FilterMap(xs, f)|
    ensures exists i :: 0 <= i < |xs| && f(xs[i]) == Some(FilterMap(xs, f)[k])
    decreases |xs|
  {
    if f(xs[0]).Some? {
      if k > 0 {
        FilterMapFrom(xs[1..], f, k - 1);
        var i :| 0 <= i < |xs[1..]| && f(xs[1..][i]) == Some(FilterMap(xs[1..], f)[k - 1]);
        assert xs[i + 1] == xs[1..][i];
      }
    } else {
      FilterMapFrom(xs[1..], f, k);
      var i :| 0 <= i < |xs[1..]| && f(xs[1..][i]) == Some(FilterMap(xs[1..], f)[k]);
      assert xs[i + 1] == xs[1..][i];
    }
  }

  /** Every input that yields something contributes its result. */
  lemma {:induction false} FilterMapKeeps<A, B>(xs: seq<A>, f: A -> Option<B>, i: nat)
    requires i < |xs| && f(xs[i]).Some?
    ensures f(xs[i]).value in FilterMap(xs, f)
    decreases |xs|
  {
    if i > 0 {
      FilterMapKeeps(xs[1..], f, i - 1);
      assert xs[1..][i - 1] == xs[i];
    }
  }

  /** The concatenation of a sequence of sequences. */
  function Flatten<T>(xss: seq<seq<T>>): seq<T> {
    if |xss| == 0 then [] else xss[0] + Flatten(xss[1..])
  }

  lemma {:induction false} FlattenAppend<T>(a: seq<seq<T>>, b: seq<seq<T>>)
    ensures Flatten(a + b) == Flatten(a) + Flatten(b)
    decreases |a|
  {
    if |a| == 0 {
      assert a + b == b;
    } else {
      FlattenAppend(a[1..], b);
      assert (a + b)[1..] == a[1..] + b;
    }
  }

  /** The results of `f` on each element, concatenated in order. */
  function ConcatMap<A, B>(xs: seq<A>, f: A -> seq<B>): seq<B>
    decreases |xs|
  {
    if |xs| == 0 then [] else ConcatMap(xs[..|xs| - 1], f) + f(xs[|xs| - 1])
  }

  /** The loop that appends `f`'s results for each element of `xs`, in order, to `acc`. */
  method AppendEach<A, B>(acc: seq<B>, xs: seq<A>, f: A -> seq<B>) returns (r: seq<B>)
    ensures r == acc + ConcatMap(xs, f)
  {
    r := acc;
    var i := 0;
    while i < |xs|
      invariant 0 <= i <= |xs|
      invariant r == acc + ConcatMap(xs[..i], f)
    {
      assert xs[..i + 1][..i] == xs[..i];
      r := r + f(xs[i]);
      i := i + 1;
    }
    assert xs[..|xs|] == xs;
  }

  /** `ConcatMap` distributes over concatenation: each element's results stay in place. */
  lemma {:induction false} ConcatMapAppend<A, B>(a: seq<A>, b: seq<A>, f: A -> seq<B>)
    ensures ConcatMap(a + b, f) == ConcatMap(a, f) + ConcatMap(b, f)
    decreases |b|
  {
    if |b| == 0 {
      assert a + b == a;
    } else {
      var n := |b| - 1;
      ConcatMapAppend(a, b[..n], f);
      assert (a + b)[..|a + b| - 1] == a + b[..n];
      assert (a + b)[|a + b| - 1] == b[n];
    }
  }

  /** Every result comes from the results of some element. */
  lemma {:induction false} ConcatMapFrom<A, B>(xs: seq<A>, f: A -> seq<B>, k: nat)
    requires k < |ConcatMap(xs, f)|
    ensures exists i, j :: 0 <= i < |xs| && 0 <= j < |f(xs[i])| && f(xs[i])[j] == ConcatMap(xs, f)[k]
    decreases |xs|
  {
    var n := |xs| - 1;
    var front := ConcatMap(xs[..n], f);
    if k < |front| {
      ConcatMapFrom(xs[..n], f, k);
      var i, j :| 0 <= i < |xs[..n]| && 0 <= j < |f(xs[..n][i])| && f(xs[..n][i])[j] == front[k];
      assert xs[..n][i] == xs[i];
    } else {
      assert f(xs[n])[k - |front|] == ConcatMap(xs, f)[k];
    }
  }

  /** Elements whose results are empty contribute nothing. */
  lemma {:induction false} ConcatMapEmpty<A, B>(xs: seq<A>, f: A -> seq<B>)
    requires forall i :: 0 <= i < |xs| ==> f(xs[i]) == []
    ensures ConcatMap(xs, f) == []
    decreases |xs|
  {
    if |xs| > 0 {
      ConcatMapEmpty(xs[..|xs| - 1], f);
    }
  }

  /**
   * `deque(maxlen=n).append(x)`: the element joins at the newest end and,
   * when the deque is over its bound, the oldest elements leave.
   */
  function Push<T>(xs: seq<T>, x: T, bound: nat): (r: seq<T>)
    ensures |r| <= bound
    ensures |xs| + 1 <= bound ==> r == xs + [x]
    ensures bound > 0 ==> |r| > 0 && r[|r| - 1] == x
    ensures r == (xs + [x])[|xs| + 1 - |r|..]
  {
    var ys := xs + [x];
    if |ys| > bound then ys[|ys| - bound..] else ys
  }

  /** The first `limit` elements, or all of them; none for a limit of zero or less. */
  function Take<T>(xs: seq<T>, limit: int): (r: seq<T>)
    ensures limit <= 0 ==> r == []
    ensures limit > 0 ==> |r| == if |xs| <= limit then |xs| else limit
    ensures r == xs[..|r|]
  {
    if limit <= 0 then [] else if |xs| <= limit then xs else xs[..limit]
  }

  /** Taking from a longer sequence: the new element comes in only while there is room. */
  lemma TakeSnoc<T>(xs: seq<T>, x: T, limit: int)
    ensures Take(xs + [x], limit) == if |Take(xs, limit)| < limit then Take(xs, limit) + [x] else Take(xs, limit)
  {
    if limit > 0 && |xs| < limit {
      assert Take(xs + [x], limit) == xs + [x];
    } else if limit > 0 {
      assert (xs + [x])[..limit] == xs[..limit];
    }
  }
}
