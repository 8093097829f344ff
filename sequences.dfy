/** Order-preserving filtering of sequences (Swift's `Array.filter`) and the facts about it
    that the rest of the model relies on. */
module Sequences {

  /** The elements of `xs` that satisfy `p`, in their original order. */
  function Filter<T(!new)>(p: T -> bool, xs: seq<T>): (r: seq<T>)
    ensures |r| <= |xs|
    ensures forall i :: 0 <= i < |r| ==> p(r[i])
    ensures forall x :: x in r <==> x in xs && p(x)
    ensures multiset(r) <= multiset(xs)
  {
    if xs == [] then []
    else
      assert xs == [xs[0]] + xs[1..];
      if p(xs[0]) then [xs[0]] + Filter(p, xs[1..]) else Filter(p, xs[1..])
  }

  /** The elements of `xs` at the positions where `mask` is true, in order. */
  function Select<T>(mask: seq<bool>, xs: seq<T>): seq<T>
    requires |mask| == |xs|
  {
    if xs == [] then []
    else if mask[0] then [xs[0]] + Select(mask[1..], xs[1..])
    else Select(mask[1..], xs[1..])
  }

  /** `a` is obtained from `b` by deleting elements, without reordering what is left. */
  ghost predicate IsSubsequence<T(!new)>(a: seq<T>, b: seq<T>) {
    exists mask: seq<bool> :: |mask| == |b| && Select(mask, b) == a
  }

  lemma {:induction false} FilterIsSelect<T(!new)>(p: T -> bool, xs: seq<T>)
    ensures Select(seq(|xs|, i requires 0 <= i < |xs| => p(xs[i])), xs) == Filter(p, xs)
  {
    if xs != [] {
      var mask := seq(|xs|, i requires 0 <= i < |xs| => p(xs[i]));
      FilterIsSelect(p, xs[1..]);
      assert mask[1..] == seq(|xs[1..]|, i requires 0 <= i < |xs[1..]| => p(xs[1..][i]));
    }
  }

  /** Filtering never reorders: the result is a subsequence of the input. */
  lemma FilterIsSubsequence<T(!new)>(p: T -> bool, xs: seq<T>)
    ensures IsSubsequence(Filter(p, xs), xs)
  {
    var mask := seq(|xs|, i requires 0 <= i < |xs| => p(xs[i]));
    FilterIsSelect(p, xs);
    assert |mask| == |xs| && Select(mask, xs) == Filter(p, xs);
  }

  lemma {:induction false} SelectNothing<T>(xs: seq<T>)
    ensures Select(seq(|xs|, i => false), xs) == []
  {
    if xs != [] {
      SelectNothing(xs[1..]);
      assert seq(|xs|, i => false)[1..] == seq(|xs[1..]|, i => false);
    }
  }

  lemma EmptyIsSubsequence<T(!new)>(xs: seq<T>)
    ensures IsSubsequence([], xs)
  {
    SelectNothing(xs);
    assert |seq(|xs|, i => false)| == |xs|;
  }

  lemma {:induction false} FilterAppend<T(!new)>(p: T -> bool, a: seq<T>, b: seq<T>)
    ensures Filter(p, a + b) == Filter(p, a) + Filter(p, b)
  {
    if a == [] {
      assert a + b == b;
    } else {
      assert (a + b)[0] == a[0];
      assert (a + b)[1..] == a[1..] + b;
      FilterAppend(p, a[1..], b);
    }
  }

  /** Filtering a prefix one element longer adds that element when it qualifies. */
  lemma FilterSnoc<T(!new)>(p: T -> bool, xs: seq<T>, i: nat)
    requires i < |xs|
    ensures Filter(p, xs[..i + 1]) == Filter(p, xs[..i]) + (if p(xs[i]) then [xs[i]] else [])
  {
    assert xs[..i + 1] == xs[..i] + [xs[i]];
    FilterAppend(p, xs[..i], [xs[i]]);
    assert [xs[i]][1..] == [];
  }

  /** A filter that keeps everything is the identity. */
  lemma {:induction false} FilterKeepsAll<T(!new)>(p: T -> bool, xs: seq<T>)
    requires forall i :: 0 <= i < |xs| ==> p(xs[i])
    ensures Filter(p, xs) == xs
  {
    if xs != [] {
      FilterKeepsAll(p, xs[1..]);
    }
  }

  /** Filtering by `q` after filtering by a weaker `p` is filtering by `q` alone. */
  lemma {:induction false} FilterStronger<T(!new)>(p: T -> bool, q: T -> bool, xs: seq<T>)
    requires forall x :: q(x) ==> p(x)
    ensures Filter(q, Filter(p, xs)) == Filter(q, xs)
  {
    if xs != [] {
      FilterStronger(p, q, xs[1..]);
      if p(xs[0]) {
        var rest := Filter(p, xs[1..]);
        assert ([xs[0]] + rest)[0] == xs[0];
        assert ([xs[0]] + rest)[1..] == rest;
      }
    }
  }

  /** The conjunction of two tests. */
  function Both<T>(p: T -> bool, q: T -> bool): T -> bool {
    x => p(x) && q(x)
  }

  /** Filtering twice is filtering once by the conjunction. */
  lemma {:induction false} FilterFilter<T(!new)>(p: T -> bool, q: T -> bool, xs: seq<T>)
    ensures Filter(q, Filter(p, xs)) == Filter(Both(p, q), xs)
  {
    if xs != [] {
      FilterFilter(p, q, xs[1..]);
      if p(xs[0]) {
        var rest := Filter(p, xs[1..]);
        assert ([xs[0]] + rest)[0] == xs[0];
        assert ([xs[0]] + rest)[1..] == rest;
      }
    }
  }

  /** Every occurrence of a qualifying element is kept, and none of any other. */
  lemma {:induction false} FilterMultiplicity<T(!new)>(p: T -> bool, xs: seq<T>, x: T)
    ensures multiset(Filter(p, xs))[x] == if p(x) then multiset(xs)[x] else 0
  {
    if xs != [] {
      assert xs == [xs[0]] + xs[1..];
      FilterMultiplicity(p, xs[1..], x);
    }
  }

  /** Two tests that agree on every element filter alike. */
  lemma {:induction false} FilterCongruent<T(!new)>(p: T -> bool, q: T -> bool, xs: seq<T>)
    requires forall x :: x in xs ==> p(x) == q(x)
    ensures Filter(p, xs) == Filter(q, xs)
  {
    if xs != [] {
      assert forall x :: x in xs[1..] ==> x in xs;
      FilterCongruent(p, q, xs[1..]);
    }
  }
}
