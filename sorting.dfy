/** Order statistics of the feature extractor rest on a bubble sort run on
    a copy of the samples (analysis.go, calculateMedian and
    calculatePercentile). This module gives the reference meaning of
    "the sorted copy" (an insertion sort written as a function), proves
    that a sorted permutation is unique, and proves the in-place bubble
    sort against it. */
module Sorting {

  predicate Sorted(s: seq<real>)
  {
    forall i, j :: 0 <= i < j < |s| ==> s[i] <= s[j]
  }

  /** Inserts `x` into a sorted sequence. */
  function Insert(x: real, s: seq<real>): (r: seq<real>)
    requires Sorted(s)
    ensures Sorted(r)
    ensures multiset(r) == multiset(s) + multiset{x}
    ensures |r| == |s| + 1
  {
    if s == [] then [x]
    else if x <= s[0] then
      ConsSorted(x, s);
      [x] + s
    else
      var rest := Insert(x, s[1..]);
      assert s == [s[0]] + s[1..];
      LowerBound(s[0], x, s[1..], rest);
      ConsSorted(s[0], rest);
      [s[0]] + rest
  }

  /** A bound below the head of a sorted sequence, or below all of it,
      extends it sorted. */
  lemma ConsSorted(h: real, t: seq<real>)
    requires Sorted(t)
    requires (forall k :: 0 <= k < |t| ==> h <= t[k]) || (|t| > 0 && h <= t[0])
    ensures Sorted([h] + t)
    ensures multiset([h] + t) == multiset{h} + multiset(t)
  {
  }

  /** A bound below `x` and every element of `t` is below every element of
      a sequence holding the same elements as `t` and `x`. */
  lemma LowerBound(h: real, x: real, t: seq<real>, rest: seq<real>)
    requires h <= x && forall k :: 0 <= k < |t| ==> h <= t[k]
    requires multiset(rest) == multiset(t) + multiset{x}
    ensures forall k :: 0 <= k < |rest| ==> h <= rest[k]
  {
    forall k | 0 <= k < |rest|
      ensures h <= rest[k]
    {
      assert rest[k] in multiset(rest);
      if rest[k] != x {
        assert rest[k] in multiset(t);
      }
    }
  }

  /** The reference sorted copy of `s`. */
  function SortedOf(s: seq<real>): (r: seq<real>)
    ensures Sorted(r)
    ensures multiset(r) == multiset(s)
    ensures |r| == |s|
  {
    if s == [] then []
    else
      assert s == [s[0]] + s[1..];
      Insert(s[0], SortedOf(s[1..]))
  }

  /** Two sorted sequences with the same elements are equal: the sorted
      copy does not depend on how it was sorted. */
  lemma {:induction false} SortedUnique(a: seq<real>, b: seq<real>)
    requires Sorted(a) && Sorted(b)
    requires multiset(a) == multiset(b)
    ensures a == b
    decreases |a|
  {
    assert |a| == |multiset(a)| == |multiset(b)| == |b|;
    if |a| > 0 {
      assert a == [a[0]] + a[1..];
      assert b == [b[0]] + b[1..];
      assert a[0] in multiset(b);
      var j :| 0 <= j < |b| && b[j] == a[0];
      assert b[0] <= a[0];
      assert b[0] in multiset(a);
      var k :| 0 <= k < |a| && a[k] == b[0];
      assert a[0] <= b[0];
      assert multiset(a[1..]) == multiset(a) - multiset{a[0]};
      assert multiset(b[1..]) == multiset(b) - multiset{b[0]};
      SortedUnique(a[1..], b[1..]);
    }
  }

  /** Elements of the sorted copy are elements of the data. */
  lemma SortedOfElement(s: seq<real>, k: nat)
    requires k < |s|
    ensures SortedOf(s)[k] in s
  {
    var r := SortedOf(s);
    assert r[k] in multiset(r);
  }

  /** Exchanges `a[j]` and `a[j + 1]`. */
  method Swap(a: array<real>, j: nat)
    requires j + 1 < a.Length
    modifies a
    ensures a[j] == old(a[j + 1]) && a[j + 1] == old(a[j])
    ensures forall k :: 0 <= k < a.Length && k != j && k != j + 1 ==> a[k] == old(a[k])
    ensures multiset(a[..]) == multiset(old(a[..]))
  {
    a[j], a[j + 1] := a[j + 1], a[j];
  }

  /** One inner pass of the bubble sort over `a[..m + 1]`: adjacent
      out-of-order pairs are swapped, which carries the largest element of
      the prefix to position `m` and leaves the rest of the array alone. */
  method BubblePass(a: array<real>, m: nat)
    requires m < a.Length
    requires forall k, l :: 0 <= k <= m < l < a.Length ==> a[k] <= a[l]
    modifies a
    ensures multiset(a[..]) == multiset(old(a[..]))
    ensures forall k :: 0 <= k <= m ==> a[k] <= a[m]
    ensures forall k :: m < k < a.Length ==> a[k] == old(a[k])
    ensures forall k, l :: 0 <= k <= m < l < a.Length ==> a[k] <= a[l]
  {
    var j := 0;
    while j < m
      invariant 0 <= j <= m
      invariant multiset(a[..]) == multiset(old(a[..]))
      invariant forall k :: 0 <= k <= j ==> a[k] <= a[j]
      invariant forall k :: m < k < a.Length ==> a[k] == old(a[k])
      invariant forall k, l :: 0 <= k <= m < l < a.Length ==> a[k] <= a[l]
    {
      if a[j] > a[j + 1] {
        Swap(a, j);
      }
      j := j + 1;
    }
  }

  /** The bubble sort of calculateMedian / calculatePercentile, in place:
      it leaves the reference sorted copy of what the array held. */
  method BubbleSort(a: array<real>)
    modifies a
    ensures a[..] == SortedOf(old(a[..]))
  {
    var n := a.Length;
    var i := 0;
    while i < n
      invariant 0 <= i <= n
      invariant multiset(a[..]) == multiset(old(a[..]))
      invariant forall k, l :: n - i <= k < l < n ==> a[k] <= a[l]
      invariant forall k, l :: 0 <= k < n - i <= l < n ==> a[k] <= a[l]
    {
      BubblePass(a, n - 1 - i);
      i := i + 1;
    }
    assert Sorted(a[..]);
    SortedUnique(a[..], SortedOf(old(a[..])));
  }
}
