/**
 The two linear scans the library performs over SDK result lists: "the first
 element that satisfies a test" (a `for` loop with an early `return`) and
 "every element that satisfies a test, in order" (a `for` loop that appends).
 */
module Scan {
  import opened Wrappers

  /** Position of the first element of `s` satisfying `p`, or `None`. */
  function FirstIndex<T>(s: seq<T>, p: T -> bool): (r: Option<nat>)
    ensures r.Some? ==> r.value < |s| && p(s[r.value])
    ensures r.Some? ==> forall j :: 0 <= j < r.value ==> !p(s[j])
    ensures r.None? <==> forall j :: 0 <= j < |s| ==> !p(s[j])
  {
    if |s| == 0 then None
    else if p(s[0]) then Some(0)
    else
      match FirstIndex(s[1..], p)
      case None => None
      case Some(i) => Some(i + 1)
  }

  /** The first index is unique: any position that satisfies `p` and is
      preceded only by positions that do not is the one `FirstIndex` finds. */
  lemma FirstIndexUnique<T>(s: seq<T>, p: T -> bool, i: nat)
    requires i < |s| && p(s[i])
    requires forall j :: 0 <= j < i ==> !p(s[j])
    ensures FirstIndex(s, p) == Some(i)
  {
    var r := FirstIndex(s, p);
    assert r.Some?;
    assert !(r.value < i);
  }

  /** The order-preserving sub-sequence of `s` whose elements satisfy `p`,
      built the way a loop appending to a list builds it. */
  function Filter<T>(s: seq<T>, p: T -> bool): (r: seq<T>)
    ensures |r| <= |s|
    ensures forall k :: 0 <= k < |r| ==> p(r[k])
  {
    if |s| == 0 then []
    else Filter(s[..|s| - 1], p) + (if p(s[|s| - 1]) then [s[|s| - 1]] else [])
  }

  /** Reference definition: the positions below `hi` whose elements satisfy
      `p`, strictly increasing, and containing every such position. */
  function KeptBelow<T>(s: seq<T>, p: T -> bool, hi: nat): (idx: seq<nat>)
    requires hi <= |s|
    ensures forall k :: 0 <= k < |idx| ==> idx[k] < hi && p(s[idx[k]])
    ensures forall k, l :: 0 <= k < l < |idx| ==> idx[k] < idx[l]
    ensures forall i :: 0 <= i < hi && p(s[i]) ==> i in idx
  {
    if hi == 0 then []
    else
      var idx := KeptBelow(s, p, hi - 1);
      var r := idx + (if p(s[hi - 1]) then [hi - 1] else []);
      assert forall i :: 0 <= i < hi - 1 && p(s[i]) ==> i in r by {
        forall i | 0 <= i < hi - 1 && p(s[i])
          ensures i in r
        {
          assert i in idx;
        }
      }
      r
  }

  /** The positions of all of `s` whose elements satisfy `p`. */
  function KeptIndices<T>(s: seq<T>, p: T -> bool): (idx: seq<nat>)
    ensures forall k :: 0 <= k < |idx| ==> idx[k] < |s| && p(s[idx[k]])
    ensures forall k, l :: 0 <= k < l < |idx| ==> idx[k] < idx[l]
    ensures forall i :: 0 <= i < |s| && p(s[i]) ==> i in idx
  {
    KeptBelow(s, p, |s|)
  }

  /** Filtering a prefix keeps exactly the elements at the kept positions below
      its length, in order. */
  lemma {:induction false} FilterPrefixIsKeptBelow<T>(s: seq<T>, p: T -> bool, hi: nat)
    requires hi <= |s|
    ensures |Filter(s[..hi], p)| == |KeptBelow(s, p, hi)|
    ensures forall k :: 0 <= k < |Filter(s[..hi], p)| ==> Filter(s[..hi], p)[k] == s[KeptBelow(s, p, hi)[k]]
  {
    if hi > 0 {
      FilterPrefixIsKeptBelow(s, p, hi - 1);
      var front := s[..hi];
      assert front[..hi - 1] == s[..hi - 1];
      var r0, idx0 := Filter(s[..hi - 1], p), KeptBelow(s, p, hi - 1);
      var r, idx := Filter(front, p), KeptBelow(s, p, hi);
      assert r == r0 + (if p(s[hi - 1]) then [s[hi - 1]] else []);
      assert idx == idx0 + (if p(s[hi - 1]) then [hi - 1] else []);
      forall k | 0 <= k < |r|
        ensures r[k] == s[idx[k]]
      {
        if k < |r0| {
          assert r[k] == r0[k];
        }
      }
    }
  }

  /** Filtering keeps exactly the elements at the kept positions, in order:
      the loop's output is the sub-sequence the reference definition names. */
  lemma FilterIsKeptIndices<T>(s: seq<T>, p: T -> bool)
    ensures |Filter(s, p)| == |KeptIndices(s, p)|
    ensures forall k :: 0 <= k < |Filter(s, p)| ==> Filter(s, p)[k] == s[KeptIndices(s, p)[k]]
  {
    FilterPrefixIsKeptBelow(s, p, |s|);
    assert s[..|s|] == s;
  }

  /** A position is kept exactly when its element satisfies `p`. */
  lemma KeptIndicesExact<T>(s: seq<T>, p: T -> bool, i: int)
    requires 0 <= i < |s|
    ensures i in KeptIndices(s, p) <==> p(s[i])
  {
  }

  /** When no element below `hi` satisfies `p`, no position is kept. */
  lemma {:induction false} KeptBelowNone<T>(s: seq<T>, p: T -> bool, hi: nat)
    requires hi <= |s|
    requires forall i :: 0 <= i < hi ==> !p(s[i])
    ensures KeptBelow(s, p, hi) == []
  {
    if hi > 0 {
      KeptBelowNone(s, p, hi - 1);
      assert !p(s[hi - 1]);
    }
  }

  /** When every element satisfies `p`, filtering changes nothing. */
  lemma {:induction false} FilterAll<T>(s: seq<T>, p: T -> bool)
    requires forall k :: 0 <= k < |s| ==> p(s[k])
    ensures Filter(s, p) == s
  {
    if |s| > 0 {
      FilterAll(s[..|s| - 1], p);
      assert s[..|s| - 1] + [s[|s| - 1]] == s;
    }
  }
}
