/**
 * `Array.prototype.filter` on sequences, and what it guarantees: the kept
 * elements are exactly the ones the callback accepts, in their original order.
 */
module Sequences {

  /** `s.filter(keep)`, unfolded from the last element. */
  function Filter<T>(s: seq<T>, keep: T -> bool): (r: seq<T>)
    ensures |r| <= |s|
  {
    if s == [] then [] else Filter(s[..|s| - 1], keep) + (if keep(s[|s| - 1]) then [s[|s| - 1]] else [])
  }

  /** The positions of `s` that `Filter(s, keep)` keeps. */
  ghost function KeptPositions<T>(s: seq<T>, keep: T -> bool): (idx: seq<nat>)
    ensures forall k :: 0 <= k < |idx| ==> idx[k] < |s|
  {
    if s == [] then [] else KeptPositions(s[..|s| - 1], keep) + (if keep(s[|s| - 1]) then [|s| - 1] else [])
  }

  /** `idx` lists positions of `s`, strictly increasing, and `r` reads them in order. */
  ghost predicate Picks<T>(r: seq<T>, s: seq<T>, idx: seq<nat>)
  {
    && |idx| == |r|
    && (forall k :: 0 <= k < |idx| ==> idx[k] < |s| && r[k] == s[idx[k]])
    && (forall k, l :: 0 <= k < l < |idx| ==> idx[k] < idx[l])
  }

  lemma {:induction false} KeptPositionsPick<T>(s: seq<T>, keep: T -> bool)
    ensures Picks(Filter(s, keep), s, KeptPositions(s, keep))
    ensures forall k :: 0 <= k < |KeptPositions(s, keep)| ==> keep(s[KeptPositions(s, keep)[k]])
  {
    if s != [] {
      var n := |s| - 1;
      var front := s[..n];
      KeptPositionsPick(front, keep);
      var before := KeptPositions(front, keep);
      forall k | 0 <= k < |before|
        ensures s[before[k]] == front[before[k]]
      {
      }
    }
  }

  lemma {:induction false} KeptPositionsCover<T>(s: seq<T>, keep: T -> bool, i: nat)
    requires i < |s| && keep(s[i])
    ensures i in KeptPositions(s, keep)
  {
    var n := |s| - 1;
    if i < n {
      assert s[..n][i] == s[i];
      KeptPositionsCover(s[..n], keep, i);
    }
  }

  /** The filter keeps every accepted element, drops every rejected one, and
      keeps their relative order. */
  lemma FilterOrigins<T>(s: seq<T>, keep: T -> bool) returns (idx: seq<nat>)
    ensures Picks(Filter(s, keep), s, idx)
    ensures forall k :: 0 <= k < |idx| ==> keep(s[idx[k]])
    ensures forall i :: 0 <= i < |s| && keep(s[i]) ==> i in idx
  {
    idx := KeptPositions(s, keep);
    KeptPositionsPick(s, keep);
    forall i | 0 <= i < |s| && keep(s[i])
      ensures i in idx
    {
      KeptPositionsCover(s, keep, i);
    }
  }

  /** Every element of a filter's result is accepted by the callback. */
  lemma FilterKeeps<T>(s: seq<T>, keep: T -> bool, x: T)
    requires x in Filter(s, keep)
    ensures keep(x)
  {
    var idx := FilterOrigins(s, keep);
    var k :| 0 <= k < |Filter(s, keep)| && Filter(s, keep)[k] == x;
  }

  /** A filter that accepts every element returns the sequence unchanged. */
  lemma {:induction false} FilterAll<T>(s: seq<T>, keep: T -> bool)
    requires forall i :: 0 <= i < |s| ==> keep(s[i])
    ensures Filter(s, keep) == s
  {
    if s != [] {
      var front := s[..|s| - 1];
      assert forall i :: 0 <= i < |front| ==> front[i] == s[i];
      FilterAll(front, keep);
    }
  }

  /** Filtering commutes with a position-wise image: when `t[k]` is `f(s[k])`
      and `t[k]` is kept exactly when `s[k]` is, the kept elements of `t` are
      the images of the kept elements of `s`. */
  lemma {:induction false} FilterMapped<A, B>(s: seq<A>, t: seq<B>, f: A -> B, keepS: A -> bool, keepT: B -> bool)
    requires |s| == |t|
    requires forall k :: 0 <= k < |s| ==> t[k] == f(s[k]) && (keepT(t[k]) <==> keepS(s[k]))
    ensures |Filter(t, keepT)| == |Filter(s, keepS)|
    ensures forall k :: 0 <= k < |Filter(t, keepT)| ==> Filter(t, keepT)[k] == f(Filter(s, keepS)[k])
  {
    if s != [] {
      var n := |s| - 1;
      FilterMapped(s[..n], t[..n], f, keepS, keepT);
    }
  }
}
