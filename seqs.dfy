/**
 * The two array idioms the pages use: `xs.filter(p)` and
 * `Array.from(new Set(xs))` (distinct elements in order of first appearance).
 */
module Seqs {

  ghost predicate NoDup<T>(xs: seq<T>)
  {
    forall i, j :: 0 <= i < j < |xs| ==> xs[i] != xs[j]
  }

  /** `a` is `b` with some elements dropped and the rest kept in order. */
  ghost predicate Subsequence<T>(a: seq<T>, b: seq<T>)
    decreases |b|
  {
    if a == [] then true
    else if b == [] then false
    else (a[0] == b[0] && Subsequence(a[1..], b[1..])) || Subsequence(a, b[1..])
  }

  /** `xs.filter(p)`. */
  function Filter<T>(xs: seq<T>, p: T -> bool): (r: seq<T>)
    ensures |r| <= |xs|
    ensures forall i :: 0 <= i < |r| ==> r[i] in xs && p(r[i])
    ensures forall i :: 0 <= i < |xs| && p(xs[i]) ==> xs[i] in r
    ensures r == [] <==> forall i :: 0 <= i < |xs| ==> !p(xs[i])
  {
    if xs == [] then []
    else if p(xs[0]) then [xs[0]] + Filter(xs[1..], p)
    else Filter(xs[1..], p)
  }

  /** Filtering keeps the surviving elements in their original order. */
  lemma {:induction false} FilterIsSubsequence<T>(xs: seq<T>, p: T -> bool)
    ensures Subsequence(Filter(xs, p), xs)
  {
    if xs != [] {
      FilterIsSubsequence(xs[1..], p);
    }
  }

  /** Filtering keeps every occurrence of a surviving element and none of the others. */
  lemma {:induction false} FilterCounts<T>(xs: seq<T>, p: T -> bool, x: T)
    ensures multiset(Filter(xs, p))[x] == if p(x) then multiset(xs)[x] else 0
  {
    if xs != [] {
      FilterCounts(xs[1..], p, x);
      assert xs == [xs[0]] + xs[1..];
    }
  }

  /** Index of the first occurrence of `x` in `xs`, or `|xs|` when there is none
      (`indexOf`, with the length standing for -1). */
  function FirstIndex<T(==)>(xs: seq<T>, x: T): (i: nat)
    ensures i <= |xs|
    ensures i < |xs| <==> x in xs
    ensures i < |xs| ==> xs[i] == x
    ensures forall j :: 0 <= j < i ==> xs[j] != x
  {
    if xs == [] then 0
    else if xs[0] == x then 0
    else 1 + FirstIndex(xs[1..], x)
  }

  lemma {:induction false} FirstIndexInPrefix<T>(xs: seq<T>, ys: seq<T>, x: T)
    requires x in xs
    ensures x in xs + ys && FirstIndex(xs + ys, x) == FirstIndex(xs, x)
  {
    if xs[0] != x {
      FirstIndexInPrefix(xs[1..], ys, x);
      assert (xs + ys)[1..] == xs[1..] + ys;
    }
  }

  /** `Array.from(new Set(xs))`: each element once, where it first appears. */
  function Unique<T(==)>(xs: seq<T>): (r: seq<T>)
    ensures NoDup(r)
    ensures forall i :: 0 <= i < |r| ==> r[i] in xs
    ensures forall i :: 0 <= i < |xs| ==> xs[i] in r
    ensures |r| <= |xs|
  {
    if xs == [] then []
    else
      var n := |xs| - 1;
      assert xs == xs[..n] + [xs[n]];
      var prev := Unique(xs[..n]);
      if xs[n] in prev then prev else prev + [xs[n]]
  }

  /** The distinct elements come in the order of their first appearance in `xs`. */
  lemma {:induction false} UniqueFirstAppearanceOrder<T>(xs: seq<T>, i: nat, j: nat)
    requires i < j < |Unique(xs)|
    ensures FirstIndex(xs, Unique(xs)[i]) < FirstIndex(xs, Unique(xs)[j]) < |xs|
  {
    var n := |xs| - 1;
    var init := xs[..n];
    assert xs == init + [xs[n]];
    var prev := Unique(init);
    var r := Unique(xs);
    if xs[n] in prev {
      UniqueFirstAppearanceOrder(init, i, j);
      FirstIndexInPrefix(init, [xs[n]], r[i]);
      FirstIndexInPrefix(init, [xs[n]], r[j]);
    } else {
      FirstIndexInPrefix(init, [xs[n]], r[i]);
      if j < |prev| {
        UniqueFirstAppearanceOrder(init, i, j);
        FirstIndexInPrefix(init, [xs[n]], r[j]);
      } else {
        assert r[j] == xs[n] && xs[n] !in init;
        assert FirstIndex(xs, r[j]) == n;
      }
    }
  }

  /** `UniqueFirstAppearanceOrder` for two elements named by the caller. */
  lemma OrderOfDistinct<T>(xs: seq<T>, i: nat, j: nat, a: T, b: T)
    requires i < j < |Unique(xs)| && a == Unique(xs)[i] && b == Unique(xs)[j]
    ensures FirstIndex(xs, a) < FirstIndex(xs, b) < |xs|
  {
    UniqueFirstAppearanceOrder(xs, i, j);
  }
}
