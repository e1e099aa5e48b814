/** Sequence helpers with the meaning of `Array.prototype.filter` and
    `slice(0, n)`, and the notion of an order-preserving subsequence. */
module Seqs {

  /** `s.filter(p)`: the elements of s satisfying p, in their original order
      (each as often as in s: see FilterCounts). */
  function Filter<T>(s: seq<T>, p: T -> bool): (r: seq<T>)
    ensures |r| <= |s|
    ensures forall i :: 0 <= i < |r| ==> r[i] in s && p(r[i])
    ensures forall i :: 0 <= i < |s| && p(s[i]) ==> s[i] in r
  {
    if s == [] then []
    else if p(s[0]) then [s[0]] + Filter(s[1..], p)
    else Filter(s[1..], p)
  }

  /** Filtering keeps every copy of a kept element and no copy of the
      others: duplicates are neither merged nor dropped. */
  lemma {:induction false} FilterCounts<T>(s: seq<T>, p: T -> bool)
    ensures forall x :: multiset(Filter(s, p))[x] == if p(x) then multiset(s)[x] else 0
  {
    if s != [] {
      FilterCounts(s[1..], p);
      assert s == [s[0]] + s[1..];
    }
  }

  /** `s.slice(0, n)` for n >= 0 */
  function Take<T>(s: seq<T>, n: nat): (r: seq<T>)
    ensures |r| == if n < |s| then n else |s|
    ensures r == s[..|r|]
  {
    if n < |s| then s[..n] else s
  }

  /** A prefix of a subsequence is a subsequence. */
  lemma SubsequencePrefix<T>(a: seq<T>, b: seq<T>, c: seq<T>)
    requires |a| <= |b| && a == b[..|a|]
    requires IsSubsequence(b, c)
    ensures IsSubsequence(a, c)
  {
    var idx :| SubsequenceVia(b, c, idx);
    assert SubsequenceVia(a, c, idx[..|a|]);
  }

  /** idx picks, in strictly increasing positions of b, the elements of a. */
  ghost predicate SubsequenceVia<T>(a: seq<T>, b: seq<T>, idx: seq<nat>) {
    && |idx| == |a|
    && (forall k :: 0 <= k < |a| ==> idx[k] < |b| && a[k] == b[idx[k]])
    && (forall k, l :: 0 <= k < l < |a| ==> idx[k] < idx[l])
  }

  /** a is an order-preserving subsequence of b. */
  ghost predicate IsSubsequence<T>(a: seq<T>, b: seq<T>) {
    exists idx :: SubsequenceVia(a, b, idx)
  }

  function Shift(idx: seq<nat>): (r: seq<nat>)
    ensures |r| == |idx| && forall k :: 0 <= k < |idx| ==> r[k] == idx[k] + 1
  {
    seq(|idx|, k requires 0 <= k < |idx| => idx[k] + 1)
  }

  /** Filtering keeps the surviving elements in their original order: the
      result is a subsequence of the input (the witness is returned). */
  lemma {:induction false} FilterIndices<T>(s: seq<T>, p: T -> bool) returns (idx: seq<nat>)
    ensures SubsequenceVia(Filter(s, p), s, idx)
  {
    if s == [] {
      idx := [];
    } else {
      var rest := FilterIndices(s[1..], p);
      if p(s[0]) {
        idx := [0] + Shift(rest);
        SubsequenceKeepHead(Filter(s[1..], p), s, rest);
      } else {
        idx := Shift(rest);
        SubsequenceSkipHead(Filter(s[1..], p), s, rest);
      }
    }
  }

  lemma SubsequenceSkipHead<T>(a: seq<T>, b: seq<T>, idx: seq<nat>)
    requires b != [] && SubsequenceVia(a, b[1..], idx)
    ensures SubsequenceVia(a, b, Shift(idx))
  {
    forall k | 0 <= k < |a| ensures Shift(idx)[k] < |b| && a[k] == b[Shift(idx)[k]] {
      assert a[k] == b[1..][idx[k]];
    }
  }

  lemma SubsequenceKeepHead<T>(a: seq<T>, b: seq<T>, idx: seq<nat>)
    requires b != [] && SubsequenceVia(a, b[1..], idx)
    ensures SubsequenceVia([b[0]] + a, b, [0] + Shift(idx))
  {
    SubsequenceSkipHead(a, b, idx);
  }

  lemma FilterIsSubsequence<T>(s: seq<T>, p: T -> bool)
    ensures IsSubsequence(Filter(s, p), s)
  {
    var idx := FilterIndices(s, p);
  }

  /** A filter that every element passes returns its input unchanged. */
  lemma {:induction false} FilterAll<T>(s: seq<T>, p: T -> bool)
    requires forall i :: 0 <= i < |s| ==> p(s[i])
    ensures Filter(s, p) == s
  {
    if s != [] {
      FilterAll(s[1..], p);
    }
  }

  /** Filtering distributes over concatenation. */
  lemma {:induction false} FilterAppend<T>(a: seq<T>, b: seq<T>, p: T -> bool)
    ensures Filter(a + b, p) == Filter(a, p) + Filter(b, p)
  {
    if a == [] {
      assert a + b == b;
    } else {
      assert (a + b)[1..] == a[1..] + b;
      FilterAppend(a[1..], b, p);
    }
  }

  /** Filters with the same verdict on every element agree. */
  lemma {:induction false} FilterExt<T>(s: seq<T>, p: T -> bool, q: T -> bool)
    requires forall i :: 0 <= i < |s| ==> p(s[i]) == q(s[i])
    ensures Filter(s, p) == Filter(s, q)
  {
    if s != [] {
      FilterExt(s[1..], p, q);
    }
  }

  /** Elements satisfying two disjoint conditions are counted at most once. */
  lemma {:induction false} FilterDisjointCount<T>(s: seq<T>, p: T -> bool, q: T -> bool)
    requires forall i :: 0 <= i < |s| ==> !(p(s[i]) && q(s[i]))
    ensures |Filter(s, p)| + |Filter(s, q)| <= |s|
  {
    if s != [] {
      FilterDisjointCount(s[1..], p, q);
    }
  }
}
