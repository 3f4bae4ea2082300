/** The two array operations the pages are built from: `Array.prototype.filter`
    and `Array.prototype.map`, as functions on sequences, with the facts the
    pages rely on (membership, order, length, congruence). */
module Seqs {

  /** The elements of `s` that satisfy `p`, in their original order. */
  function Filter<T(!new)>(s: seq<T>, p: T -> bool): (r: seq<T>)
    ensures |r| <= |s|
  {
    if |s| == 0 then []
    else (if p(s[0]) then [s[0]] else []) + Filter(s[1..], p)
  }

  /** The positions of `s` that `Filter` keeps: strictly increasing, exactly the
      positions whose element satisfies `p`, and pointing at the kept elements
      in order. So the filtered view is `s` with the failing elements removed
      and nothing reordered. */
  function Positions<T(!new)>(s: seq<T>, p: T -> bool): (idx: seq<nat>)
    ensures |idx| == |Filter(s, p)|
    ensures forall k :: 0 <= k < |idx| ==> idx[k] < |s| && Filter(s, p)[k] == s[idx[k]]
    ensures forall j, k :: 0 <= j < k < |idx| ==> idx[j] < idx[k]
    ensures forall n :: n in idx <==> 0 <= n < |s| && p(s[n])
  {
    if s == [] then []
    else
      var rest := Positions(s[1..], p);
      var shifted := Shifted(rest);
      var idx := (if p(s[0]) then [0] else []) + shifted;
      PositionsStepAt(s, p(s[0]), Filter(s[1..], p), Filter(s, p), rest, idx);
      PositionsStepIn(s, p, rest, shifted, idx);
      idx
  }

  /** Every position moved one place to the right. */
  function Shifted(r: seq<nat>): (t: seq<nat>)
    ensures |t| == |r|
    ensures forall k :: 0 <= k < |r| ==> t[k] == r[k] + 1
  {
    seq(|r|, k requires 0 <= k < |r| => r[k] + 1)
  }

  /** Inductive step of `Positions`: which element each position points at.
      `whole` is the filter of `s` and `tail` that of `s[1..]`; `pass` says
      whether the first element passed. */
  lemma PositionsStepAt<T>(s: seq<T>, pass: bool, tail: seq<T>, whole: seq<T>, rest: seq<nat>, idx: seq<nat>)
    requires s != []
    requires whole == (if pass then [s[0]] else []) + tail
    requires |rest| == |tail|
    requires forall k :: 0 <= k < |rest| ==> rest[k] < |s| - 1 && tail[k] == s[rest[k] + 1]
    requires idx == (if pass then [0] else []) + Shifted(rest)
    ensures |idx| == |whole|
    ensures forall k :: 0 <= k < |idx| ==> idx[k] < |s| && whole[k] == s[idx[k]]
  {
    var d := if pass then 1 else 0;
    forall k | d <= k < |idx|
      ensures idx[k] < |s| && whole[k] == s[idx[k]]
    {
      assert idx[k] == rest[k - d] + 1;
      assert whole[k] == tail[k - d];
    }
  }

  /** Inductive step of `Positions`: order and exactly which positions occur. */
  lemma PositionsStepIn<T(!new)>(s: seq<T>, p: T -> bool, rest: seq<nat>, shifted: seq<nat>, idx: seq<nat>)
    requires s != []
    requires forall j, k :: 0 <= j < k < |rest| ==> rest[j] < rest[k]
    requires forall n :: n in rest <==> 0 <= n < |s| - 1 && p(s[1..][n])
    requires |shifted| == |rest| && forall k :: 0 <= k < |rest| ==> shifted[k] == rest[k] + 1
    requires idx == (if p(s[0]) then [0] else []) + shifted
    ensures forall j, k :: 0 <= j < k < |idx| ==> idx[j] < idx[k]
    ensures forall n :: n in idx <==> 0 <= n < |s| && p(s[n])
  {
    forall n
      ensures n in shifted <==> n - 1 in rest
    {
      if n in shifted {
        var k :| 0 <= k < |shifted| && shifted[k] == n;
        assert rest[k] == n - 1;
      }
      if n - 1 in rest {
        var k :| 0 <= k < |rest| && rest[k] == n - 1;
        assert shifted[k] == n;
      }
    }
    forall n
      ensures n in idx <==> 0 <= n < |s| && p(s[n])
    {
      if 0 < n < |s| {
        assert s[1..][n - 1] == s[n];
      }
    }
  }

  /** `r` is `s` restricted to the increasing positions `idx`, which are exactly
      the positions of `s` whose element satisfies `p`. */
  ghost predicate SelectedAt<T(!new)>(r: seq<T>, s: seq<T>, p: T -> bool, idx: seq<nat>) {
    && |idx| == |r|
    && (forall k :: 0 <= k < |idx| ==> idx[k] < |s| && r[k] == s[idx[k]])
    && (forall j, k :: 0 <= j < k < |idx| ==> idx[j] < idx[k])
    && (forall n :: n in idx <==> 0 <= n < |s| && p(s[n]))
  }

  /** `r` keeps exactly the elements of `s` that satisfy `p`, in their order in `s`. */
  ghost predicate SelectsInOrder<T(!new)>(r: seq<T>, s: seq<T>, p: T -> bool) {
    exists idx :: SelectedAt(r, s, p, idx)
  }

  /** The filter is an order-preserving selection of exactly the passing elements. */
  lemma FilterSelectsInOrder<T(!new)>(s: seq<T>, p: T -> bool)
    ensures SelectsInOrder(Filter(s, p), s, p)
  {
    assert SelectedAt(Filter(s, p), s, p, Positions(s, p));
  }

  /** An element survives the filter exactly when it is in `s` and satisfies `p`. */
  lemma {:induction false} FilterMembers<T(!new)>(s: seq<T>, p: T -> bool)
    ensures forall x {:trigger x in Filter(s, p)} :: x in Filter(s, p) <==> x in s && p(x)
  {
    if s != [] {
      FilterMembers(s[1..], p);
      assert s == [s[0]] + s[1..];
    }
  }

  /** When no element passes, the filter returns the empty sequence. */
  lemma {:induction false} FilterKeepsNone<T(!new)>(s: seq<T>, p: T -> bool)
    requires forall x :: x in s ==> !p(x)
    ensures Filter(s, p) == []
  {
    if s != [] {
      assert s[0] in s;
      FilterKeepsNone(s[1..], p);
    }
  }

  /** Filtering distributes over concatenation: the first part's survivors come
      before the second part's. */
  lemma {:induction false} FilterConcat<T(!new)>(a: seq<T>, b: seq<T>, p: T -> bool)
    ensures Filter(a + b, p) == Filter(a, p) + Filter(b, p)
  {
    if a == [] {
      assert a + b == b;
    } else {
      assert (a + b)[0] == a[0] && (a + b)[1..] == a[1..] + b;
      FilterConcat(a[1..], b, p);
    }
  }

  /** Two predicates that agree on every element of `s` filter it alike. */
  lemma {:induction false} FilterCongruent<T(!new)>(s: seq<T>, p: T -> bool, q: T -> bool)
    requires forall x :: x in s ==> p(x) == q(x)
    ensures Filter(s, p) == Filter(s, q)
  {
    if s != [] {
      FilterCongruent(s[1..], p, q);
    }
  }

  /** When every element passes, the filter returns its input unchanged. */
  lemma {:induction false} FilterKeepsAll<T(!new)>(s: seq<T>, p: T -> bool)
    requires forall x :: x in s ==> p(x)
    ensures Filter(s, p) == s
  {
    if s != [] {
      FilterKeepsAll(s[1..], p);
    }
  }

  /** `f` applied to every element, positions kept. */
  function Map<T, U>(s: seq<T>, f: T -> U): (r: seq<U>)
    ensures |r| == |s|
    ensures forall i :: 0 <= i < |s| ==> r[i] == f(s[i])
  {
    if s == [] then [] else [f(s[0])] + Map(s[1..], f)
  }
}
