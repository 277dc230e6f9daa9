/** Generic facts about sequences: prefixes, subsequences and filtering. */
module Seqs {

  /** `p` is a prefix of `s`, for sequences of any element type. */
  predicate IsPrefix<T(==)>(s: seq<T>, p: seq<T>)
  {
    |p| <= |s| && s[..|p|] == p
  }

  /** `xs` occurs in `ys` in order, possibly with gaps. */
  predicate IsSubsequence<T(==)>(xs: seq<T>, ys: seq<T>)
    decreases |ys|
  {
    if |xs| == 0 then true
    else if |ys| == 0 then false
    else if xs[0] == ys[0] then IsSubsequence(xs[1..], ys[1..])
    else IsSubsequence(xs, ys[1..])
  }

  /** Every sequence is a subsequence of itself. */
  lemma {:induction false} SubsequenceOfSelf<T>(xs: seq<T>)
    ensures IsSubsequence(xs, xs)
    decreases |xs|
  {
    if |xs| > 0 {
      SubsequenceOfSelf(xs[1..]);
    }
  }

  /** A subsequence of the tail is a subsequence of the whole. */
  lemma {:induction false} SkipHead<T>(xs: seq<T>, ys: seq<T>)
    requires |ys| > 0 && IsSubsequence(xs, ys[1..])
    ensures IsSubsequence(xs, ys)
    decreases |ys|, 0
  {
    if |xs| > 0 && xs[0] == ys[0] {
      DropFirst(xs, ys[1..]);
    }
  }

  /** Dropping the first element of a subsequence leaves a subsequence. */
  lemma {:induction false} DropFirst<T>(xs: seq<T>, zs: seq<T>)
    requires |xs| > 0 && IsSubsequence(xs, zs)
    ensures IsSubsequence(xs[1..], zs)
    decreases |zs|, 1
  {
    if xs[0] == zs[0] {
      SkipHead(xs[1..], zs);
    } else {
      DropFirst(xs, zs[1..]);
      SkipHead(xs[1..], zs);
    }
  }

  /** A prefix of a subsequence is again a subsequence. */
  lemma {:induction false} PrefixOfSubsequence<T>(xs: seq<T>, ys: seq<T>, p: seq<T>)
    requires IsSubsequence(xs, ys) && IsPrefix(xs, p)
    ensures IsSubsequence(p, ys)
    decreases |ys|
  {
    if |p| > 0 {
      if xs[0] == ys[0] {
        assert xs[1..][..|p| - 1] == p[1..];
        PrefixOfSubsequence(xs[1..], ys[1..], p[1..]);
      } else {
        PrefixOfSubsequence(xs, ys[1..], p);
      }
    }
  }

  /** The elements of `xs` that satisfy `keep`, in order. */
  function KeepIf<T(!new)>(xs: seq<T>, keep: T -> bool): (r: seq<T>)
    ensures |r| <= |xs|
    ensures forall x :: x in r <==> x in xs && keep(x)
  {
    if |xs| == 0 then []
    else
      var rest := KeepIf(xs[1..], keep);
      assert xs == [xs[0]] + xs[1..];
      if keep(xs[0]) then [xs[0]] + rest else rest
  }

  /** Filtering drops elements but never reorders them. */
  lemma {:induction false} KeepIfIsSubsequence<T(!new)>(xs: seq<T>, keep: T -> bool)
    ensures IsSubsequence(KeepIf(xs, keep), xs)
    decreases |xs|
  {
    if |xs| > 0 {
      KeepIfIsSubsequence(xs[1..], keep);
      var rest := KeepIf(xs[1..], keep);
      if keep(xs[0]) {
        assert ([xs[0]] + rest)[1..] == rest;
      } else {
        SkipHead(rest, xs);
      }
    }
  }

  /** Filtering keeps every occurrence of an element that satisfies `keep`
      and none of one that does not. */
  lemma {:induction false} KeepIfCounts<T(!new)>(xs: seq<T>, keep: T -> bool, x: T)
    ensures multiset(KeepIf(xs, keep))[x] == if keep(x) then multiset(xs)[x] else 0
    decreases |xs|
  {
    if |xs| > 0 {
      KeepIfCounts(xs[1..], keep, x);
      assert xs == [xs[0]] + xs[1..];
    }
  }
}
