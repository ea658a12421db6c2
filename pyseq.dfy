/**
 * Python list operations the core relies on: slicing with negative and out-of-range bounds,
 * and the filtering comprehension `[x for x in s if p(x)]`.
 */
module PySeq {

  /** The index a Python slice bound `i` denotes in a sequence of length `n`. */
  function Bound(i: int, n: nat): (b: nat)
    ensures b <= n
    ensures 0 <= i <= n ==> b == i
    ensures i < 0 <= i + n ==> b == n + i
    ensures i + n < 0 ==> b == 0
    ensures n < i ==> b == n
  {
    if i < 0 then (if i + n < 0 then 0 else i + n)
    else if i > n then n else i
  }

  /** `s[i:]` */
  function SliceFrom<T>(s: seq<T>, i: int): (r: seq<T>)
    ensures |r| <= |s| && r == s[|s| - |r|..]
  {
    s[Bound(i, |s|)..]
  }

  /** `s[i:j]` */
  function Slice<T>(s: seq<T>, i: int, j: int): (r: seq<T>)
    ensures Bound(i, |s|) <= Bound(j, |s|) ==> r == s[Bound(i, |s|)..Bound(j, |s|)]
    ensures Bound(j, |s|) <= Bound(i, |s|) ==> r == []
  {
    var a, b := Bound(i, |s|), Bound(j, |s|);
    if a <= b then s[a..b] else []
  }

  /** `s[-k:]` keeps the last `k` elements for `0 < k`, but keeps all of `s` for `k == 0`, because `-0 == 0`. */
  lemma LastElements<T>(s: seq<T>, k: int)
    ensures k == 0 ==> SliceFrom(s, -k) == s
    ensures 0 < k <= |s| ==> SliceFrom(s, -k) == s[|s| - k..] && |SliceFrom(s, -k)| == k
    ensures |s| < k ==> SliceFrom(s, -k) == s
  {
  }

  /** `[x for x in s if p(x)]` */
  function Filter<T>(s: seq<T>, p: T -> bool): (r: seq<T>)
    ensures |r| <= |s|
    ensures forall i :: 0 <= i < |r| ==> p(r[i])
  {
    if s == [] then [] else (if p(s[0]) then [s[0]] else []) + Filter(s[1..], p)
  }

  /** The filter keeps only elements of `s`, each at most as often as `s` holds it. */
  lemma {:induction false} FilterSubMultiset<T>(s: seq<T>, p: T -> bool)
    ensures multiset(Filter(s, p)) <= multiset(s)
  {
    if s != [] {
      FilterSubMultiset(s[1..], p);
      assert s == [s[0]] + s[1..];
    }
  }

  /** The filter keeps every occurrence of each element that passes the test, and none of the others. */
  lemma {:induction false} FilterCount<T>(s: seq<T>, p: T -> bool, x: T)
    ensures multiset(Filter(s, p))[x] == if p(x) then multiset(s)[x] else 0
  {
    if s != [] {
      var head, tail := s[0], s[1..];
      FilterCount(tail, p, x);
      assert multiset(s) == multiset{head} + multiset(tail) by {
        assert s == [head] + tail;
      }
      var kept := if p(head) then [head] else [];
      assert multiset(Filter(s, p)) == multiset(kept) + multiset(Filter(tail, p));
    }
  }

  /**
   * `r` lists the elements of `s` at the strictly increasing positions `idx`, and `idx` holds
   * every position of `s` whose element passes `p`: `r` is `s` with the failing elements dropped
   * and the others kept in their order.
   */
  predicate SelectsInOrder<T(==)>(s: seq<T>, r: seq<T>, idx: seq<nat>, p: T -> bool) {
    && |idx| == |r|
    && SelectionValues(s, r, idx)
    && Increasing(idx)
    && Covers(s, idx, p)
  }

  predicate SelectionValues<T(==)>(s: seq<T>, r: seq<T>, idx: seq<nat>)
    requires |idx| == |r|
  {
    forall j :: 0 <= j < |idx| ==> idx[j] < |s| && r[j] == s[idx[j]]
  }

  predicate Increasing(idx: seq<nat>) {
    forall j, k :: 0 <= j < k < |idx| ==> idx[j] < idx[k]
  }

  predicate Covers<T>(s: seq<T>, idx: seq<nat>, p: T -> bool) {
    forall i :: 0 <= i < |s| && p(s[i]) ==> i in idx
  }

  /** The filter keeps the passing elements in their original order. */
  lemma {:induction false} FilterInOrder<T>(s: seq<T>, p: T -> bool)
    ensures exists idx :: SelectsInOrder(s, Filter(s, p), idx, p)
  {
    if s == [] {
      assert SelectsInOrder(s, Filter(s, p), [], p);
    } else {
      var tail := s[1..];
      FilterInOrder(tail, p);
      var rest :| SelectsInOrder(tail, Filter(tail, p), rest, p);
      var idx := ConsSelection(s, p, rest);
    }
  }

  /** Every position moved one place right, as for a list that gained a head. */
  function Shift(idx: seq<nat>): (r: seq<nat>)
    ensures |r| == |idx| && forall j :: 0 <= j < |idx| ==> r[j] == idx[j] + 1
  {
    seq(|idx|, j requires 0 <= j < |idx| => idx[j] + 1)
  }

  /** The selection for a list that gained a head: position 0 when the head is kept, then the tail's shifted. */
  function ConsIndices(keepHead: bool, rest: seq<nat>): (idx: seq<nat>)
    ensures |idx| == (if keepHead then 1 else 0) + |rest|
  {
    (if keepHead then [0] else []) + Shift(rest)
  }

  /** One step of `FilterInOrder`: a selection for the tail, shifted by one, extends to `s`. */
  lemma ConsSelection<T>(s: seq<T>, p: T -> bool, rest: seq<nat>) returns (idx: seq<nat>)
    requires s != [] && SelectsInOrder(s[1..], Filter(s[1..], p), rest, p)
    ensures SelectsInOrder(s, Filter(s, p), idx, p)
  {
    idx := ConsIndices(p(s[0]), rest);
    assert Filter(s, p) == (if p(s[0]) then [s[0]] else []) + Filter(s[1..], p);
    assert s == [s[0]] + s[1..];
    ConsValues(s[0], s[1..], Filter(s[1..], p), p(s[0]), rest);
    ConsIncreasing(p(s[0]), rest);
    ConsCovers(s, p, rest);
  }

  lemma ConsValues<T>(x: T, tail: seq<T>, fr: seq<T>, keep: bool, rest: seq<nat>)
    requires |rest| == |fr| && SelectionValues(tail, fr, rest)
    ensures |ConsIndices(keep, rest)| == |(if keep then [x] else []) + fr|
    ensures SelectionValues([x] + tail, (if keep then [x] else []) + fr, ConsIndices(keep, rest))
  {
    ShiftValues(x, tail, fr, rest);
    if keep {
      KeepHeadValues(x, [x] + tail, fr, Shift(rest));
      assert ConsIndices(keep, rest) == [0] + Shift(rest);
    } else {
      assert ConsIndices(keep, rest) == Shift(rest) && (if keep then [x] else []) + fr == fr;
    }
  }

  /** Positions into the tail, shifted by one, are positions into the whole list. */
  lemma ShiftValues<T>(x: T, tail: seq<T>, fr: seq<T>, rest: seq<nat>)
    requires |rest| == |fr| && SelectionValues(tail, fr, rest)
    ensures |Shift(rest)| == |fr| && SelectionValues([x] + tail, fr, Shift(rest))
  {
    var s, shifted := [x] + tail, Shift(rest);
    forall j | 0 <= j < |shifted|
      ensures shifted[j] < |s| && fr[j] == s[shifted[j]]
    {
      assert s[rest[j] + 1] == tail[rest[j]];
    }
  }

  /** A kept head at position 0 extends a selection from the rest of the list. */
  lemma KeepHeadValues<T>(x: T, s: seq<T>, fr: seq<T>, idx: seq<nat>)
    requires s != [] && s[0] == x && |idx| == |fr| && SelectionValues(s, fr, idx)
    ensures SelectionValues(s, [x] + fr, [0] + idx)
  {
    var r, full := [x] + fr, [0] + idx;
    forall j | 0 <= j < |full|
      ensures full[j] < |s| && r[j] == s[full[j]]
    {
      if j > 0 {
        assert full[j] == idx[j - 1] && r[j] == fr[j - 1];
      }
    }
  }

  lemma ConsIncreasing(keepHead: bool, rest: seq<nat>)
    requires Increasing(rest)
    ensures Increasing(ConsIndices(keepHead, rest))
  {
    var head := if keepHead then 1 else 0;
    var idx := ConsIndices(keepHead, rest);
    forall j, k | 0 <= j < k < |idx|
      ensures idx[j] < idx[k]
    {
      assert idx[k] == rest[k - head] + 1;
      if j >= head {
        assert idx[j] == rest[j - head] + 1;
      }
    }
  }

  lemma ConsCovers<T>(s: seq<T>, p: T -> bool, rest: seq<nat>)
    requires s != [] && Covers(s[1..], rest, p)
    ensures Covers(s, ConsIndices(p(s[0]), rest), p)
  {
    var head := if p(s[0]) then 1 else 0;
    var idx := ConsIndices(p(s[0]), rest);
    forall i | 0 <= i < |s| && p(s[i])
      ensures i in idx
    {
      if i == 0 {
        assert idx[0] == 0;
      } else {
        assert s[1..][i - 1] == s[i];
        var j :| 0 <= j < |rest| && rest[j] == i - 1;
        assert idx[head + j] == i;
      }
    }
  }

  /** The filter keeps every element that passes the test. */
  lemma {:induction false} FilterKeeps<T>(s: seq<T>, p: T -> bool, i: nat)
    requires i < |s| && p(s[i])
    ensures s[i] in Filter(s, p)
  {
    if i > 0 {
      FilterKeeps(s[1..], p, i - 1);
      assert s[1..][i - 1] == s[i];
      var rest := Filter(s[1..], p);
      assert Filter(s, p) == (if p(s[0]) then [s[0]] else []) + rest;
    }
  }

  lemma {:induction false} FilterAppend<T>(a: seq<T>, b: seq<T>, p: T -> bool)
    ensures Filter(a + b, p) == Filter(a, p) + Filter(b, p)
  {
    if a == [] {
      assert a + b == b;
    } else {
      assert (a + b)[1..] == a[1..] + b;
      FilterAppend(a[1..], b, p);
    }
  }

  /** Filtering a list extended by one element, as a loop over it does. */
  lemma FilterSnoc<T>(s: seq<T>, x: T, p: T -> bool)
    ensures Filter(s + [x], p) == Filter(s, p) + (if p(x) then [x] else [])
  {
    FilterAppend(s, [x], p);
    assert [x][1..] == [];
  }

  /** Filtering by a predicate and by its complement splits a list into two parts that together hold every element. */
  lemma {:induction false} FilterPartition<T>(s: seq<T>, p: T -> bool, q: T -> bool)
    requires forall x :: q(x) == !p(x)
    ensures multiset(Filter(s, p)) + multiset(Filter(s, q)) == multiset(s)
  {
    if s != [] {
      var x := s[0];
      FilterPartition(s[1..], p, q);
      assert s == [x] + s[1..];
      var restP, restQ := Filter(s[1..], p), Filter(s[1..], q);
      assert multiset(s) == multiset{x} + multiset(s[1..]);
      if p(x) {
        assert Filter(s, p) == [x] + restP;
        assert multiset(Filter(s, p)) == multiset{x} + multiset(restP);
        assert Filter(s, q) == restQ;
      } else {
        assert Filter(s, p) == restP;
        assert Filter(s, q) == [x] + restQ;
        assert multiset(Filter(s, q)) == multiset{x} + multiset(restQ);
      }
    }
  }

  /** A filter that keeps everything of `s` is `s`; one that keeps nothing is empty. */
  lemma {:induction false} FilterAllOrNone<T>(s: seq<T>, p: T -> bool)
    ensures (forall i :: 0 <= i < |s| ==> p(s[i])) ==> Filter(s, p) == s
    ensures (forall i :: 0 <= i < |s| ==> !p(s[i])) ==> Filter(s, p) == []
  {
    if s != [] {
      FilterAllOrNone(s[1..], p);
      if forall i :: 0 <= i < |s| ==> p(s[i]) {
        assert forall i :: 0 <= i < |s[1..]| ==> p(s[1..][i]);
      }
      if forall i :: 0 <= i < |s| ==> !p(s[i]) {
        assert forall i :: 0 <= i < |s[1..]| ==> !p(s[1..][i]);
      }
    }
  }
}
