/** Generic sequence helpers: filtering by a predicate, summing, and the
    facts about them that the pipeline relies on. */
module Seqs {

  /** The elements of `s` that satisfy `p(_, arg)`, in their original order
      (a boolean-mask selection on a DataFrame). */
  function Filter<T, A>(s: seq<T>, p: (T, A) -> bool, arg: A): (r: seq<T>)
    ensures |r| <= |s|
    ensures forall i :: 0 <= i < |r| ==> p(r[i], arg)
    decreases |s|
  {
    if s == [] then []
    else if p(s[0], arg) then [s[0]] + Filter(s[1..], p, arg)
    else Filter(s[1..], p, arg)
  }

  /** `idx` lists positions of a sequence of length `n`, strictly increasing. */
  ghost predicate IncreasingIndices(idx: seq<int>, n: int) {
    && (forall k :: 0 <= k < |idx| ==> 0 <= idx[k] < n)
    && (forall k, l :: 0 <= k < l < |idx| ==> idx[k] < idx[l])
  }

  /** `sub` is the subsequence of `s` picked out by the positions `idx`. */
  ghost predicate PicksOut<T>(sub: seq<T>, s: seq<T>, idx: seq<int>) {
    && IncreasingIndices(idx, |s|)
    && |idx| == |sub|
    && (forall k :: 0 <= k < |idx| ==> sub[k] == s[idx[k]])
  }

  /** Adds `d` to every index. */
  function Shift(idx: seq<int>, d: int): (r: seq<int>)
    ensures |r| == |idx|
    ensures forall k :: 0 <= k < |idx| ==> r[k] == idx[k] + d
  {
    seq(|idx|, k requires 0 <= k < |idx| => idx[k] + d)
  }

  /** Membership in a filtered sequence: exactly the elements of `s` that pass. */
  lemma {:induction false} FilterMembership<T, A>(s: seq<T>, p: (T, A) -> bool, arg: A, x: T)
    ensures x in Filter(s, p, arg) <==> x in s && p(x, arg)
    decreases |s|
  {
    if s != [] {
      FilterMembership(s[1..], p, arg, x);
      assert s == [s[0]] + s[1..];
    }
  }

  /** The positions of `s` whose element passes `p(_, arg)`, ascending. */
  ghost function PassingPositions<T, A>(s: seq<T>, p: (T, A) -> bool, arg: A): (idx: seq<int>)
    ensures |idx| == |Filter(s, p, arg)|
    decreases |s|
  {
    if s == [] then []
    else (if p(s[0], arg) then [0] else []) + Shift(PassingPositions(s[1..], p, arg), 1)
  }

  /** The filter result is the subsequence at `PassingPositions`. */
  lemma {:induction false} PassingPositionsPickOut<T, A>(s: seq<T>, p: (T, A) -> bool, arg: A)
    ensures PicksOut(Filter(s, p, arg), s, PassingPositions(s, p, arg))
    ensures forall k :: 0 <= k < |PassingPositions(s, p, arg)| ==> p(s[PassingPositions(s, p, arg)[k]], arg)
    decreases |s|
  {
    if s != [] {
      var rest := PassingPositions(s[1..], p, arg);
      var f := Filter(s[1..], p, arg);
      PassingPositionsPickOut(s[1..], p, arg);
      var tail := Shift(rest, 1);
      forall k | 0 <= k < |tail|
        ensures 1 <= tail[k] < |s| && s[tail[k]] == f[k] && p(s[tail[k]], arg)
      {
        assert s[tail[k]] == s[1..][rest[k]];
      }
      assert IncreasingIndices(tail, |s|);
      if p(s[0], arg) {
        ShiftedPrepend(tail, |s|);
        assert PicksOut([s[0]] + f, s, [0] + tail);
      } else {
        assert PicksOut(f, s, tail);
      }
    }
  }

  /** Position 0 may be put in front of increasing positions that are all at least 1. */
  lemma ShiftedPrepend(tail: seq<int>, n: int)
    requires IncreasingIndices(tail, n) && n > 0
    requires forall k :: 0 <= k < |tail| ==> 1 <= tail[k]
    ensures IncreasingIndices([0] + tail, n)
  {
    var idx := [0] + tail;
    forall k, l | 0 <= k < l < |idx|
      ensures idx[k] < idx[l]
    {
      if k > 0 {
        assert idx[k] == tail[k - 1] && idx[l] == tail[l - 1];
      }
    }
  }

  /** Every passing position is listed. */
  lemma {:induction false} PassingPositionsComplete<T, A>(s: seq<T>, p: (T, A) -> bool, arg: A, i: int)
    requires 0 <= i < |s| && p(s[i], arg)
    ensures i in PassingPositions(s, p, arg)
    decreases |s|
  {
    if i > 0 {
      assert s[i] == s[1..][i - 1];
      PassingPositionsComplete(s[1..], p, arg, i - 1);
      var tail := PassingPositions(s[1..], p, arg);
      var k :| 0 <= k < |tail| && tail[k] == i - 1;
      assert Shift(tail, 1)[k] == i;
    }
  }

  /** The filter keeps exactly the positions whose element passes, in order. */
  lemma FilterPicksPassingPositions<T, A>(s: seq<T>, p: (T, A) -> bool, arg: A)
    ensures exists idx :: PicksOut(Filter(s, p, arg), s, idx) &&
                          forall i :: 0 <= i < |s| ==> (p(s[i], arg) <==> i in idx)
  {
    var idx := PassingPositions(s, p, arg);
    PassingPositionsPickOut(s, p, arg);
    forall i | 0 <= i < |s|
      ensures p(s[i], arg) <==> i in idx
    {
      if p(s[i], arg) {
        PassingPositionsComplete(s, p, arg, i);
      }
    }
  }

  /** Filtering a sequence whose every element passes leaves it unchanged. */
  lemma {:induction false} FilterAllPass<T, A>(s: seq<T>, p: (T, A) -> bool, arg: A)
    requires forall x :: x in s ==> p(x, arg)
    ensures Filter(s, p, arg) == s
    decreases |s|
  {
    if s != [] {
      FilterAllPass(s[1..], p, arg);
    }
  }

  /** Applying the same filter twice is the same as applying it once. */
  lemma FilterIdempotent<T, A>(s: seq<T>, p: (T, A) -> bool, arg: A)
    ensures Filter(Filter(s, p, arg), p, arg) == Filter(s, p, arg)
  {
    forall x | x in Filter(s, p, arg)
      ensures p(x, arg)
    {
      FilterMembership(s, p, arg, x);
    }
    FilterAllPass(Filter(s, p, arg), p, arg);
  }

  /** The sum of `val` over the elements of `s`. */
  function SumBy<T>(s: seq<T>, val: T -> int): int
    decreases |s|
  {
    if s == [] then 0 else val(s[0]) + SumBy(s[1..], val)
  }

  /** Summing distributes over concatenation. */
  lemma {:induction false} SumByAppend<T>(s: seq<T>, t: seq<T>, val: T -> int)
    ensures SumBy(s + t, val) == SumBy(s, val) + SumBy(t, val)
    decreases |s|
  {
    if s == [] {
      assert s + t == t;
    } else {
      assert (s + t)[0] == s[0];
      assert (s + t)[1..] == s[1..] + t;
      SumByAppend(s[1..], t, val);
    }
  }

  /** The sum of a prefix grows by the next element. */
  lemma SumByPrefixStep<T>(s: seq<T>, i: int, val: T -> int)
    requires 0 <= i < |s|
    ensures SumBy(s[..i + 1], val) == SumBy(s[..i], val) + val(s[i])
  {
    assert s[..i + 1] == s[..i] + [s[i]];
    SumByAppend(s[..i], [s[i]], val);
  }

  lemma SumByCons<T>(x: T, t: seq<T>, val: T -> int)
    ensures SumBy([x] + t, val) == val(x) + SumBy(t, val)
  {
    assert ([x] + t)[0] == x;
    assert ([x] + t)[1..] == t;
  }

  /** Taking one element out of a sequence takes its value out of the sum. */
  lemma SumByRemove<T>(b: seq<T>, j: int, val: T -> int)
    requires 0 <= j < |b|
    ensures SumBy(b, val) == val(b[j]) + SumBy(b[..j] + b[j + 1..], val)
  {
    var pre, post := b[..j], b[j + 1..];
    assert b == pre + ([b[j]] + post);
    SumByAppend(pre, [b[j]] + post, val);
    SumByCons(b[j], post, val);
    SumByAppend(pre, post, val);
  }

  /** Reordering the elements does not change the sum. */
  lemma {:induction false} SumByPermutation<T>(a: seq<T>, b: seq<T>, val: T -> int)
    requires multiset(a) == multiset(b)
    ensures SumBy(a, val) == SumBy(b, val)
    decreases |a|
  {
    if a == [] {
      assert |b| == |multiset(b)| == 0;
    } else {
      var x := a[0];
      assert x in multiset(b);
      var j :| 0 <= j < |b| && b[j] == x;
      var rest := b[..j] + b[j + 1..];
      assert b == b[..j] + [x] + b[j + 1..];
      assert multiset(rest) == multiset(b) - multiset{x};
      assert a == [x] + a[1..];
      assert multiset(a[1..]) == multiset(a) - multiset{x};
      SumByPermutation(a[1..], rest, val);
      SumByRemove(b, j, val);
    }
  }
}
