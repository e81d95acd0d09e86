/** The few operations of Swift's `Sequence` that the app relies on:
    `first(where:)`, `contains(where:)`, `filter` and `compactMap`
    (the optional-dropping `flatMap`). Each is stated by what it
    computes, so that the screens built on them can be reasoned about. */
module Sequences {
  import opened Wrappers

  /** `xs.first(where: p)`: the earliest element satisfying `p`. */
  function FirstWhere<T>(xs: seq<T>, p: T -> bool): (r: Option<T>)
    ensures r.None? <==> forall i :: 0 <= i < |xs| ==> !p(xs[i])
    ensures r.Some? ==> p(r.value)
    ensures r.Some? ==>
      exists k :: 0 <= k < |xs| && xs[k] == r.value && forall j :: 0 <= j < k ==> !p(xs[j])
  {
    if |xs| == 0 then None
    else if p(xs[0]) then Some(xs[0])
    else
      var r := FirstWhere(xs[1..], p);
      assert r.Some? ==> exists k :: 1 <= k < |xs| && xs[k] == r.value && forall j :: 1 <= j < k ==> !p(xs[j]) by {
        if r.Some? {
          var k :| 0 <= k < |xs[1..]| && xs[1..][k] == r.value && forall j :: 0 <= j < k ==> !p(xs[1..][j]);
          assert forall j :: 1 <= j < k + 1 ==> !p(xs[j]) by {
            forall j | 1 <= j < k + 1 ensures !p(xs[j]) { assert xs[j] == xs[1..][j - 1]; }
          }
        }
      }
      r
  }

  /** `xs.contains(where: p)`: some element satisfies `p`. */
  function ContainsWhere<T>(xs: seq<T>, p: T -> bool): (b: bool)
    ensures b <==> exists i :: 0 <= i < |xs| && p(xs[i])
  {
    if |xs| == 0 then false
    else p(xs[0]) || (assert forall i :: 1 <= i < |xs| ==> xs[i] == xs[1..][i - 1]; ContainsWhere(xs[1..], p))
  }

  /** `xs.filter(p)`: the elements satisfying `p`, in their original order. */
  function Filter<T(!new)>(xs: seq<T>, p: T -> bool): (r: seq<T>)
    ensures |r| <= |xs|
    ensures forall x :: x in r <==> x in xs && p(x)
    ensures multiset(r) <= multiset(xs)
  {
    if |xs| == 0 then []
    else
      assert xs == [xs[0]] + xs[1..];
      if p(xs[0]) then [xs[0]] + Filter(xs[1..], p) else Filter(xs[1..], p)
  }

  /** Filtering distributes over concatenation, so the order of `xs` is kept. */
  lemma {:induction false} FilterAppend<T(!new)>(xs: seq<T>, ys: seq<T>, p: T -> bool)
    ensures Filter(xs + ys, p) == Filter(xs, p) + Filter(ys, p)
  {
    if |xs| == 0 {
      assert xs + ys == ys;
    } else {
      assert (xs + ys)[1..] == xs[1..] + ys;
      FilterAppend(xs[1..], ys, p);
    }
  }

  /** `xs.compactMap(f)` (written `flatMap` in Swift 4): the present results
      of `f`, in the order of `xs`. */
  function CompactMap<T(!new), U(!new)>(xs: seq<T>, f: T -> Option<U>): (r: seq<U>)
    ensures |r| <= |xs|
    ensures forall y :: y in r ==> exists x :: x in xs && f(x) == Some(y)
    ensures forall x :: x in xs && f(x).Some? ==> f(x).value in r
  {
    if |xs| == 0 then []
    else
      var rest := CompactMap(xs[1..], f);
      assert forall x :: x in xs[1..] ==> x in xs;
      assert forall x :: x in xs ==> x == xs[0] || x in xs[1..];
      match f(xs[0])
      case Some(y) => [y] + rest
      case None => rest
  }

  /** `compactMap` distributes over concatenation: it keeps document order. */
  lemma {:induction false} CompactMapAppend<T(!new), U(!new)>(xs: seq<T>, ys: seq<T>, f: T -> Option<U>)
    ensures CompactMap(xs + ys, f) == CompactMap(xs, f) + CompactMap(ys, f)
  {
    if |xs| == 0 {
      assert xs + ys == ys;
    } else {
      assert (xs + ys)[1..] == xs[1..] + ys;
      CompactMapAppend(xs[1..], ys, f);
    }
  }

  /** When every element converts, nothing is dropped and the i-th result is
      the conversion of the i-th element. */
  lemma {:induction false} CompactMapTotal<T(!new), U(!new)>(xs: seq<T>, f: T -> Option<U>)
    requires forall i :: 0 <= i < |xs| ==> f(xs[i]).Some?
    ensures |CompactMap(xs, f)| == |xs|
    ensures forall i :: 0 <= i < |xs| ==> CompactMap(xs, f)[i] == f(xs[i]).value
  {
    if |xs| > 0 {
      CompactMapTotal(xs[1..], f);
    }
  }
}
