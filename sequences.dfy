/** `Array.prototype.filter` on sequences, and what makes its result unique: it is the
    order-preserving selection of exactly the elements that pass the test. */
module Sequences {

  /** The indices in `idx` are strictly increasing. */
  ghost predicate Increasing(idx: seq<nat>)
  {
    forall i, j :: 0 <= i < j < |idx| ==> idx[i] < idx[j]
  }

  /** `r` is the subsequence of `s` at the increasing positions `idx`, and those positions
      are exactly the ones whose element passes `p`. */
  ghost predicate IsSelection<T>(p: T -> bool, s: seq<T>, r: seq<T>, idx: seq<nat>)
  {
    && |idx| == |r|
    && Increasing(idx)
    && (forall k :: 0 <= k < |idx| ==> idx[k] < |s| && r[k] == s[idx[k]])
    && (forall i :: 0 <= i < |s| ==> (i in idx <==> p(s[i])))
  }

  /** `s.filter(p)`: the elements of `s` that pass `p`, in their original order. */
  function FilterBy<T>(p: T -> bool, s: seq<T>): (r: seq<T>)
    ensures |r| <= |s|
    ensures forall k :: 0 <= k < |r| ==> r[k] in s && p(r[k])
    ensures forall i :: 0 <= i < |s| && p(s[i]) ==> s[i] in r
  {
    if s == [] then [] else (if p(s[0]) then [s[0]] else []) + FilterBy(p, s[1..])
  }

  /** Adds `n` to every index. */
  function Shift(idx: seq<nat>, n: nat): (r: seq<nat>)
    ensures |r| == |idx|
    ensures forall k :: 0 <= k < |idx| ==> r[k] == idx[k] + n
  {
    seq(|idx|, k requires 0 <= k < |idx| => idx[k] + n)
  }

  /** `FilterBy` selects: there are increasing positions of `s`, exactly those whose
      element passes `p`, at which its result takes its elements. */
  lemma {:induction false} FilterBySelects<T>(p: T -> bool, s: seq<T>) returns (idx: seq<nat>)
    ensures IsSelection(p, s, FilterBy(p, s), idx)
    decreases |s|
  {
    if s == [] {
      idx := [];
    } else {
      var tail := FilterBySelects(p, s[1..]);
      idx := ConsSelection(p, s, tail);
    }
  }

  /** One step of `FilterBySelects`: a selection from the tail of `s`, shifted by one and
      preceded by the head's index when the head passes, is a selection from `s`. */
  lemma ConsSelection<T>(p: T -> bool, s: seq<T>, tail: seq<nat>) returns (idx: seq<nat>)
    requires s != [] && IsSelection(p, s[1..], FilterBy(p, s[1..]), tail)
    ensures IsSelection(p, s, FilterBy(p, s), idx)
  {
    var head := if p(s[0]) then [0] else [];
    idx := head + Shift(tail, 1);
    ConsIncreasing(head, tail);
    ConsPositions(p, s, tail, head);
    ConsMembers(p, s, tail, head);
  }

  lemma ConsIncreasing(head: seq<nat>, tail: seq<nat>)
    requires head == [] || head == [0]
    requires Increasing(tail)
    ensures Increasing(head + Shift(tail, 1))
  {
    var idx := head + Shift(tail, 1);
    forall i, j | 0 <= i < j < |idx|
      ensures idx[i] < idx[j]
    {
      if i >= |head| {
        assert idx[i] == tail[i - |head|] + 1 && idx[j] == tail[j - |head|] + 1;
      } else {
        assert idx[j] == tail[j - |head|] + 1;
      }
    }
  }

  lemma ConsPositions<T>(p: T -> bool, s: seq<T>, tail: seq<nat>, head: seq<nat>)
    requires s != [] && |tail| == |FilterBy(p, s[1..])|
    requires forall k :: 0 <= k < |tail| ==>
      tail[k] < |s[1..]| && FilterBy(p, s[1..])[k] == s[1..][tail[k]]
    requires head == if p(s[0]) then [0] else []
    ensures var idx := head + Shift(tail, 1);
      forall k :: 0 <= k < |idx| ==> idx[k] < |s| && FilterBy(p, s)[k] == s[idx[k]]
  {
    var shifted := Shift(tail, 1);
    var rest := FilterBy(p, s[1..]);
    ShiftedPositions(s, rest, tail);
    if p(s[0]) {
      var idx := [0] + shifted;
      var r := [s[0]] + rest;
      assert FilterBy(p, s) == r;
      forall k | 0 <= k < |idx|
        ensures idx[k] < |s| && r[k] == s[idx[k]]
      {
        if k > 0 {
          assert idx[k] == shifted[k - 1] && r[k] == rest[k - 1];
        }
      }
    } else {
      assert FilterBy(p, s) == rest;
    }
  }

  /** Positions in the tail of `s`, shifted by one, are the same elements' positions in `s`. */
  lemma ShiftedPositions<T>(s: seq<T>, rest: seq<T>, tail: seq<nat>)
    requires s != [] && |tail| == |rest|
    requires forall k :: 0 <= k < |tail| ==> tail[k] < |s[1..]| && rest[k] == s[1..][tail[k]]
    ensures forall k :: 0 <= k < |tail| ==> Shift(tail, 1)[k] < |s| && rest[k] == s[Shift(tail, 1)[k]]
  {
  }

  lemma ConsMembers<T>(p: T -> bool, s: seq<T>, tail: seq<nat>, head: seq<nat>)
    requires s != [] && IsSelection(p, s[1..], FilterBy(p, s[1..]), tail)
    requires head == if p(s[0]) then [0] else []
    ensures var idx := head + Shift(tail, 1);
      forall i :: 0 <= i < |s| ==> (i in idx <==> p(s[i]))
  {
    var shifted := Shift(tail, 1);
    var idx := head + shifted;
    forall i | 0 <= i < |s|
      ensures i in idx <==> p(s[i])
    {
      assert i in idx <==> i in head || i in shifted;
      if i == 0 {
        ShiftedMember(tail, 0);
      } else {
        ShiftedMember(tail, i);
        assert s[i] == s[1..][i - 1];
      }
    }
  }

  /** After shifting by one, `0` is not an index, and `i + 1` is one exactly when `i` was. */
  lemma ShiftedMember(tail: seq<nat>, i: nat)
    ensures i in Shift(tail, 1) <==> (i > 0 && i - 1 in tail)
  {
    var shifted := Shift(tail, 1);
    if i in shifted {
      var k :| 0 <= k < |shifted| && shifted[k] == i;
      assert tail[k] == i - 1;
    }
    if i > 0 && i - 1 in tail {
      var k :| 0 <= k < |tail| && tail[k] == i - 1;
      assert shifted[k] == i;
    }
  }

  /** Two increasing sequences of indices with the same elements are equal. */
  lemma {:induction false} IncreasingUnique(a: seq<nat>, b: seq<nat>)
    requires Increasing(a) && Increasing(b)
    requires forall x :: x in a <==> x in b
    ensures a == b
    decreases |a|
  {
    if a != [] {
      assert a[0] in a;
    }
    if b != [] {
      assert b[0] in b;
    }
    if a != [] && b != [] {
      assert a[0] == b[0] by {
        assert a[0] in b;
        assert b[0] in a;
      }
      forall x
        ensures x in a[1..] <==> x in b[1..]
      {
        if x in a[1..] {
          assert x in b && x != b[0];
        }
        if x in b[1..] {
          assert x in a && x != a[0];
        }
      }
      IncreasingUnique(a[1..], b[1..]);
      assert a == [a[0]] + a[1..] && b == [b[0]] + b[1..];
    }
  }

  /** A selection is unique, so `FilterBy` is the only sequence that selects from `s` the
      elements passing `p`. */
  lemma SelectionUnique<T>(p: T -> bool, s: seq<T>, r: seq<T>, idx: seq<nat>)
    requires IsSelection(p, s, r, idx)
    ensures r == FilterBy(p, s)
  {
    var idx' := FilterBySelects(p, s);
    var r' := FilterBy(p, s);
    forall x
      ensures x in idx <==> x in idx'
    {
      if x in idx {
        var k :| 0 <= k < |idx| && idx[k] == x;
        assert x < |s| && p(s[x]);
      }
      if x in idx' {
        var k :| 0 <= k < |idx'| && idx'[k] == x;
        assert x < |s| && p(s[x]);
      }
    }
    IncreasingUnique(idx, idx');
  }

  /** A sequence whose every element passes `p` is left as it is. */
  lemma {:induction false} FilterByAll<T>(p: T -> bool, s: seq<T>)
    requires forall i :: 0 <= i < |s| ==> p(s[i])
    ensures FilterBy(p, s) == s
    decreases |s|
  {
    if s != [] {
      FilterByAll(p, s[1..]);
    }
  }

  /** Filtering twice by the same test is filtering once. */
  lemma FilterByIdempotent<T>(p: T -> bool, s: seq<T>)
    ensures FilterBy(p, FilterBy(p, s)) == FilterBy(p, s)
  {
    FilterByAll(p, FilterBy(p, s));
  }

  /** When the element at `k` is the only one that passes `p`, the result is that
      element alone. */
  lemma FilterByOne<T>(p: T -> bool, s: seq<T>, k: nat)
    requires k < |s| && p(s[k])
    requires forall i :: 0 <= i < |s| && i != k ==> !p(s[i])
    ensures FilterBy(p, s) == [s[k]]
  {
    var idx := [k];
    assert forall i :: 0 <= i < |s| ==> (i in idx <==> i == k);
    SelectionUnique(p, s, [s[k]], idx);
  }

  /** What `FilterBy` keeps of one element: the element itself when it passes `p`. */
  function Keep<T>(p: T -> bool, x: T): (r: seq<T>)
    ensures r == [x] <==> p(x)
    ensures r == [] <==> !p(x)
  {
    if p(x) then [x] else []
  }

  /** One step of `FilterBy` on the suffix of `s` from `i`: its first element is kept when
      it passes `p`, and the rest is filtered the same way. */
  lemma FilterByFrom<T>(p: T -> bool, s: seq<T>, i: nat)
    requires i < |s|
    ensures FilterBy(p, s[i..]) == Keep(p, s[i]) + FilterBy(p, s[i + 1..])
  {
    assert s[i..][0] == s[i];
    assert s[i..][1..] == s[i + 1..];
  }

  /** `FilterBy` on a four-element sequence, written out element by element. */
  lemma FilterByFour<T>(p: T -> bool, s: seq<T>)
    requires |s| == 4
    ensures FilterBy(p, s) == Keep(p, s[0]) + (Keep(p, s[1]) + (Keep(p, s[2]) + Keep(p, s[3])))
  {
    assert s[4..] == [];
    FilterByFrom(p, s, 3);
    assert FilterBy(p, s[3..]) == Keep(p, s[3]);
    FilterByFrom(p, s, 2);
    FilterByFrom(p, s, 1);
    FilterByFrom(p, s, 0);
    assert s[0..] == s;
  }

  /** Filtering distributes over concatenation. */
  lemma {:induction false} FilterByAppend<T>(p: T -> bool, a: seq<T>, b: seq<T>)
    ensures FilterBy(p, a + b) == FilterBy(p, a) + FilterBy(p, b)
    decreases |a|
  {
    if a != [] {
      assert (a + b)[0] == a[0];
      assert (a + b)[1..] == a[1..] + b;
      FilterByAppend(p, a[1..], b);
    } else {
      assert a + b == b;
    }
  }

  /** When no element passes `p`, the result is empty. */
  lemma FilterByNone<T>(p: T -> bool, s: seq<T>)
    requires forall i :: 0 <= i < |s| ==> !p(s[i])
    ensures FilterBy(p, s) == []
  {
  }
}
