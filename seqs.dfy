/**
 * Sequence helpers shared by the list comprehensions and filtering loops of the
 * source: an order-preserving filter, what it means for one list to be an
 * order-preserving subsequence of another, and turning a set into a list.
 */
module Seqs {

  /** `[x for x in xs if p(x)]`. */
  function Filter<T>(xs: seq<T>, p: T -> bool): (r: seq<T>)
    ensures |r| <= |xs|
    ensures forall k :: 0 <= k < |r| ==> p(r[k])
  {
    if xs == [] then []
    else Filter(xs[..|xs| - 1], p) + (if p(xs[|xs| - 1]) then [xs[|xs| - 1]] else [])
  }

  /** `idx` lists, in increasing order, the positions of `xs` that `r` was taken from. */
  ghost predicate PicksAt<T>(r: seq<T>, xs: seq<T>, idx: seq<int>)
  {
    && |idx| == |r|
    && (forall k :: 0 <= k < |idx| ==> 0 <= idx[k] < |xs| && r[k] == xs[idx[k]])
    && (forall k, l :: 0 <= k < l < |idx| ==> idx[k] < idx[l])
  }

  /** `r` is `xs` with some elements left out and the others kept in their order. */
  ghost predicate IsSubsequence<T>(r: seq<T>, xs: seq<T>)
  {
    exists idx :: PicksAt(r, xs, idx)
  }

  /** Filtering one more element at the end extends the filtered prefix. */
  lemma FilterSnoc<T>(xs: seq<T>, x: T, p: T -> bool)
    ensures Filter(xs + [x], p) == Filter(xs, p) + (if p(x) then [x] else [])
  {
    assert (xs + [x])[..|xs|] == xs;
  }

  /**
   * The filter keeps exactly the positions whose element satisfies `p`, in order:
   * position i of `xs` is among the picked positions iff `p(xs[i])`.
   */
  lemma {:induction false} FilterIndices<T>(xs: seq<T>, p: T -> bool) returns (idx: seq<int>)
    ensures PicksAt(Filter(xs, p), xs, idx)
    ensures forall i :: 0 <= i < |xs| ==> (p(xs[i]) <==> i in idx)
  {
    if xs == [] {
      idx := [];
    } else {
      var n := |xs| - 1;
      var front, x := xs[..n], xs[n];
      var idx0 := FilterIndices(front, p);
      idx := PicksSnoc(Filter(front, p), front, idx0, x, p(x));
      assert front + [x] == xs;
      forall i | 0 <= i < |xs|
        ensures p(xs[i]) <==> i in idx
      {
        if i < n {
          assert front[i] == xs[i];
        } else {
          assert n == |front|;
        }
      }
    }
  }

  /** The same, stated as the existence of the kept positions. */
  lemma FilterPicks<T>(xs: seq<T>, p: T -> bool)
    ensures exists idx :: PicksAt(Filter(xs, p), xs, idx) && forall i :: 0 <= i < |xs| ==> (p(xs[i]) <==> i in idx)
  {
    var idx := FilterIndices(xs, p);
  }

  /** Extending the source list by `x`, and the picked list by `x` too when `keep` holds. */
  lemma PicksSnoc<T>(r: seq<T>, xs: seq<T>, idx0: seq<int>, x: T, keep: bool) returns (idx: seq<int>)
    requires PicksAt(r, xs, idx0)
    ensures PicksAt(r + (if keep then [x] else []), xs + [x], idx)
    ensures forall i :: 0 <= i < |xs| ==> (i in idx <==> i in idx0)
    ensures |xs| in idx <==> keep
  {
    assert forall k :: 0 <= k < |idx0| ==> idx0[k] < |xs|;
    idx := if keep then idx0 + [|xs|] else idx0;
  }

  /** Hence a filter result is always an order-preserving subsequence of its input. */
  lemma FilterIsSubsequence<T>(xs: seq<T>, p: T -> bool)
    ensures IsSubsequence(Filter(xs, p), xs)
  {
    FilterPicks(xs, p);
  }

  /** An element survives the filter iff it was in the input and satisfies `p`. */
  lemma {:induction false} FilterMembers<T>(xs: seq<T>, p: T -> bool)
    ensures forall x :: x in Filter(xs, p) <==> x in xs && p(x)
  {
    if xs != [] {
      var n := |xs| - 1;
      FilterMembers(xs[..n], p);
      assert xs == xs[..n] + [xs[n]];
    }
  }

  /** A filter whose predicate holds everywhere returns its input unchanged. */
  lemma {:induction false} FilterKeepsAll<T>(xs: seq<T>, p: T -> bool)
    requires forall i :: 0 <= i < |xs| ==> p(xs[i])
    ensures Filter(xs, p) == xs
  {
    if xs != [] {
      var n := |xs| - 1;
      FilterKeepsAll(xs[..n], p);
      assert xs == xs[..n] + [xs[n]];
    }
  }

  /** A filter whose predicate holds nowhere returns the empty list. */
  lemma {:induction false} FilterDropsAll<T>(xs: seq<T>, p: T -> bool)
    requires forall i :: 0 <= i < |xs| ==> !p(xs[i])
    ensures Filter(xs, p) == []
  {
    if xs != [] {
      FilterDropsAll(xs[..|xs| - 1], p);
    }
  }

  /** Filtering twice by the same predicate is filtering once. */
  lemma {:induction false} FilterIdempotent<T>(xs: seq<T>, p: T -> bool)
    ensures Filter(Filter(xs, p), p) == Filter(xs, p)
  {
    if xs != [] {
      var n := |xs| - 1;
      var front, x := xs[..n], xs[n];
      FilterIdempotent(front, p);
      if p(x) {
        FilterSnoc(Filter(front, p), x, p);
      } else {
        assert Filter(xs, p) == Filter(front, p);
      }
    }
  }

  /** Two filters applied one after the other give the same list in either order. */
  lemma {:induction false} FilterCommutes<T>(xs: seq<T>, p: T -> bool, q: T -> bool)
    ensures Filter(Filter(xs, p), q) == Filter(Filter(xs, q), p)
  {
    if xs != [] {
      var n := |xs| - 1;
      var front, x := xs[..n], xs[n];
      FilterCommutes(front, p, q);
      var fp, fq := Filter(front, p), Filter(front, q);
      assert Filter(xs, p) == fp + (if p(x) then [x] else []);
      assert Filter(xs, q) == fq + (if q(x) then [x] else []);
      if p(x) {
        FilterSnoc(fp, x, q);
      } else {
        assert Filter(xs, p) == fp;
      }
      if q(x) {
        FilterSnoc(fq, x, p);
      } else {
        assert Filter(xs, q) == fq;
      }
    }
  }

  /** Two filters in a row keep exactly the elements satisfying both predicates. */
  lemma {:induction false} FilterFuse<T>(xs: seq<T>, p: T -> bool, q: T -> bool, pq: T -> bool)
    requires forall x :: pq(x) == (p(x) && q(x))
    ensures Filter(Filter(xs, p), q) == Filter(xs, pq)
  {
    if xs != [] {
      var n := |xs| - 1;
      var front, x := xs[..n], xs[n];
      FilterFuse(front, p, q, pq);
      var fp := Filter(front, p);
      if p(x) {
        FilterSnoc(fp, x, q);
      } else {
        assert Filter(xs, p) == fp;
      }
    }
  }

  /** Filters by predicates that agree on every element of the list give the same result. */
  lemma {:induction false} FilterAgrees<T>(xs: seq<T>, p: T -> bool, q: T -> bool)
    requires forall i :: 0 <= i < |xs| ==> p(xs[i]) == q(xs[i])
    ensures Filter(xs, p) == Filter(xs, q)
  {
    if xs != [] {
      FilterAgrees(xs[..|xs| - 1], p, q);
    }
  }

  /** No element occurs twice. */
  ghost predicate NoDuplicates<T>(xs: seq<T>)
  {
    forall i, j :: 0 <= i < j < |xs| ==> xs[i] != xs[j]
  }

  /** `list(s)` for a set `s`: every element once, in an order the model leaves open. */
  method SetToSeq<T>(s: set<T>) returns (xs: seq<T>)
    ensures forall x :: x in xs <==> x in s
    ensures NoDuplicates(xs)
    ensures |xs| == |s|
  {
    xs := [];
    var rest := s;
    while rest != {}
      invariant rest <= s
      invariant forall x :: x in xs <==> x in s && x !in rest
      invariant NoDuplicates(xs)
      invariant |xs| + |rest| == |s|
      decreases |rest|
    {
      var x :| x in rest;
      xs := xs + [x];
      rest := rest - {x};
    }
  }
}
