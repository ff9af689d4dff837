/**
 * The array operations the dashboard builds its lists with: `filter`, `slice`,
 * and de-duplication through a `Set`, modelled on sequences.
 */
module Seqs {

  /** `Array.prototype.filter`: the elements of `s` that satisfy `p`, in their original order. */
  function Filter<T(==,!new)>(s: seq<T>, p: T -> bool): (r: seq<T>)
    ensures |r| <= |s|
    ensures forall i :: 0 <= i < |r| ==> p(r[i])
    ensures forall x :: x in r <==> x in s && p(x)
    decreases |s|
  {
    if s == [] then []
    else if p(s[0]) then [s[0]] + Filter(s[1..], p)
    else Filter(s[1..], p)
  }

  /** `idx` lists, in increasing order, positions of `b` that spell out `a`. */
  ghost predicate IsEmbedding<T>(a: seq<T>, b: seq<T>, idx: seq<int>)
  {
    && |idx| == |a|
    && (forall k :: 0 <= k < |idx| ==> 0 <= idx[k] < |b| && a[k] == b[idx[k]])
    && (forall k, l :: 0 <= k < l < |idx| ==> idx[k] < idx[l])
  }

  /** `a` is obtained from `b` by deleting elements, keeping the order of the rest. */
  ghost predicate IsSubsequence<T>(a: seq<T>, b: seq<T>)
  {
    exists idx :: IsEmbedding(a, b, idx)
  }

  function Shift(idx: seq<int>): (r: seq<int>)
    ensures |r| == |idx|
    ensures forall k :: 0 <= k < |r| ==> r[k] == idx[k] + 1
  {
    seq(|idx|, k requires 0 <= k < |idx| => idx[k] + 1)
  }

  /** The positions of `s` whose element `Filter` keeps. */
  function KeptPositions<T>(s: seq<T>, p: T -> bool): seq<int>
    decreases |s|
  {
    if s == [] then []
    else if p(s[0]) then [0] + Shift(KeptPositions(s[1..], p))
    else Shift(KeptPositions(s[1..], p))
  }

  lemma {:induction false} FilterEmbedding<T(!new)>(s: seq<T>, p: T -> bool)
    ensures IsEmbedding(Filter(s, p), s, KeptPositions(s, p))
    decreases |s|
  {
    if s != [] {
      var tail := s[1..];
      FilterEmbedding(tail, p);
      var rest := KeptPositions(tail, p);
      var kept := Filter(tail, p);
      var shifted := Shift(rest);
      assert IsEmbedding(kept, s, shifted) by {
        forall k | 0 <= k < |shifted|
          ensures 0 <= shifted[k] < |s| && kept[k] == s[shifted[k]]
        {
          assert kept[k] == tail[rest[k]];
        }
      }
      if p(s[0]) {
        var idx := [0] + shifted;
        var r := [s[0]] + kept;
        forall k | 1 <= k < |idx|
          ensures idx[k] == shifted[k - 1] && r[k] == kept[k - 1]
        {
        }
        assert IsEmbedding(r, s, idx);
      }
    }
  }

  /** What `filter` keeps is an order-preserving subsequence of its input. */
  lemma FilterIsSubsequence<T(!new)>(s: seq<T>, p: T -> bool)
    ensures IsSubsequence(Filter(s, p), s)
  {
    FilterEmbedding(s, p);
  }

  /** Two filters in a row keep exactly what one filter by the conjunction `both` keeps. */
  lemma {:induction false} FilterFusion<T(!new)>(s: seq<T>, p: T -> bool, q: T -> bool, both: T -> bool)
    requires forall x :: both(x) == (p(x) && q(x))
    ensures Filter(Filter(s, p), q) == Filter(s, both)
    decreases |s|
  {
    if s != [] {
      FilterFusion(s[1..], p, q, both);
      if p(s[0]) {
        assert Filter(s, p) == [s[0]] + Filter(s[1..], p);
        assert Filter(s, p)[1..] == Filter(s[1..], p);
      }
    }
  }

  /** A filter whose predicate holds of every element keeps the whole list. */
  lemma {:induction false} FilterKeepsAll<T(!new)>(s: seq<T>, p: T -> bool)
    requires forall x :: x in s ==> p(x)
    ensures Filter(s, p) == s
    decreases |s|
  {
    if s != [] {
      FilterKeepsAll(s[1..], p);
    }
  }

  /** A predicate and its negation `other` split a list: their filters' lengths add up to its length. */
  lemma {:induction false} FilterPartition<T(!new)>(s: seq<T>, p: T -> bool, other: T -> bool)
    requires forall x :: other(x) == !p(x)
    ensures |Filter(s, p)| + |Filter(s, other)| == |s|
    decreases |s|
  {
    if s != [] {
      FilterPartition(s[1..], p, other);
    }
  }

  /** Filtering by a stronger predicate keeps a subsequence of what the weaker one keeps. */
  lemma FilterMonotone<T(!new)>(s: seq<T>, p: T -> bool, q: T -> bool)
    requires forall x :: q(x) ==> p(x)
    ensures IsSubsequence(Filter(s, q), Filter(s, p))
  {
    FilterFusion(s, p, q, q);
    FilterIsSubsequence(Filter(s, p), q);
  }

  predicate NoDuplicates<T(==)>(s: seq<T>)
  {
    forall i, j :: 0 <= i < j < |s| ==> s[i] != s[j]
  }

  /** The position of the first occurrence of `x` in `s`. */
  function FirstIndex<T(==)>(s: seq<T>, x: T): (i: nat)
    requires x in s
    ensures i < |s| && s[i] == x && x !in s[..i]
  {
    if s[0] == x then 0
    else
      var i := 1 + FirstIndex(s[1..], x);
      assert s[..i] == [s[0]] + s[1..][..i - 1];
      i
  }

  /**
   * `[...new Set(s)]`: the distinct values of `s`. A `Set` iterates in insertion
   * order, so each value sits where it first occurred.
   */
  function Distinct<T(==,!new)>(s: seq<T>): (r: seq<T>)
    ensures NoDuplicates(r)
    ensures forall x :: x in r <==> x in s
    decreases |s|
  {
    if s == [] then []
    else
      var r := Distinct(s[..|s| - 1]);
      assert forall x :: x in s <==> x in s[..|s| - 1] || x == s[|s| - 1] by {
        assert s == s[..|s| - 1] + [s[|s| - 1]];
      }
      if s[|s| - 1] in r then r else r + [s[|s| - 1]]
  }

  lemma FirstIndexInPrefix<T(!new)>(s: seq<T>, n: nat, x: T)
    requires n <= |s| && x in s[..n]
    ensures x in s && FirstIndex(s[..n], x) == FirstIndex(s, x)
  {
    var i := FirstIndex(s[..n], x);
    assert s[..n][..i] == s[..i];
  }

  /** `Distinct` lists its values in the order of their first occurrences. */
  lemma {:induction false} DistinctFirstOccurrenceOrder<T(!new)>(s: seq<T>)
    ensures forall i, j :: 0 <= i < j < |Distinct(s)| ==>
      FirstIndex(s, Distinct(s)[i]) < FirstIndex(s, Distinct(s)[j])
    decreases |s|
  {
    if s != [] {
      var pre := s[..|s| - 1];
      var last := s[|s| - 1];
      DistinctFirstOccurrenceOrder(pre);
      var r := Distinct(pre);
      assert pre == s[..|s| - 1];
      forall x | x in r
        ensures FirstIndex(s, x) == FirstIndex(pre, x) < |s| - 1
      {
        FirstIndexInPrefix(s, |s| - 1, x);
      }
      if last !in r {
        assert last !in pre;
        assert FirstIndex(s, last) == |s| - 1;
        var d := r + [last];
        assert d == Distinct(s);
        assert forall x :: x in d ==> x in s;
        forall i, j | 0 <= i < j < |d|
          ensures FirstIndex(s, d[i]) < FirstIndex(s, d[j])
        {
          assert d[i] in r;
          if j < |r| {
            assert d[i] == r[i] && d[j] == r[j];
          }
        }
      }
    }
  }

  /** How `Array.prototype.slice` resolves an integer bound against a length `n`. */
  function SliceBound(i: int, n: nat): (k: nat)
    ensures k <= n
  {
    if i < 0 then (if n + i < 0 then 0 else n + i)
    else if i > n then n
    else i
  }

  /** `s.slice(start, end)` for integer bounds. */
  function Slice<T>(s: seq<T>, start: int, end: int): (r: seq<T>)
    ensures |r| <= |s|
  {
    var lo := SliceBound(start, |s|);
    var hi := SliceBound(end, |s|);
    if lo < hi then s[lo..hi] else []
  }

  function Min(a: int, b: int): int
  {
    if a <= b then a else b
  }

  /** With non-negative bounds, `slice` takes the elements between the bounds cut down to the length. */
  lemma SliceNonNegative<T>(s: seq<T>, start: nat, end: nat)
    requires start <= end
    ensures Min(start, |s|) <= Min(end, |s|)
    ensures Slice(s, start, end) == s[Min(start, |s|)..Min(end, |s|)]
  {
  }
}
