/**
 * The result of a stable sort in descending order of a numeric key, as
 * `Array.prototype.sort` gives it for the comparator `(a, b) => key(b) - key(a)`,
 * and what it guarantees: sorted, a permutation, and order-preserving among
 * equal keys.
 */
module StableSort {

  /** Largest key first. */
  predicate SortedDown<T>(s: seq<T>, key: T -> real)
  {
    forall i, j :: 0 <= i < j < |s| ==> key(s[i]) >= key(s[j])
  }

  /** `x` placed after the trailing elements whose key is at least its own,
      and before the trailing ones whose key is smaller. */
  function Insert<T>(s: seq<T>, x: T, key: T -> real): (r: seq<T>)
    ensures |r| == |s| + 1
  {
    if s == [] || key(s[|s| - 1]) >= key(x) then s + [x]
    else Insert(s[..|s| - 1], x, key) + [s[|s| - 1]]
  }

  /** The stable descending order, built by inserting the elements one by one. */
  function SortDown<T>(s: seq<T>, key: T -> real): (r: seq<T>)
    ensures |r| == |s|
  {
    if s == [] then [] else Insert(SortDown(s[..|s| - 1], key), s[|s| - 1], key)
  }

  /** The elements of `s` whose key is `v`, in order. */
  function WithKey<T>(s: seq<T>, key: T -> real, v: real): seq<T>
  {
    if s == [] then []
    else WithKey(s[..|s| - 1], key, v) + (if key(s[|s| - 1]) == v then [s[|s| - 1]] else [])
  }

  lemma {:induction false} InsertPermutes<T>(s: seq<T>, x: T, key: T -> real)
    ensures multiset(Insert(s, x, key)) == multiset(s) + multiset{x}
  {
    if s != [] && key(s[|s| - 1]) < key(x) {
      var front := s[..|s| - 1];
      InsertPermutes(front, x, key);
      assert s == front + [s[|s| - 1]];
    }
  }

  lemma {:induction false} InsertSorted<T>(s: seq<T>, x: T, key: T -> real)
    requires SortedDown(s, key)
    ensures SortedDown(Insert(s, x, key), key)
    ensures key(Insert(s, x, key)[|s|]) <= (if s == [] then key(x) else key(s[|s| - 1]))
  {
    if s != [] && key(s[|s| - 1]) < key(x) {
      var front, last := s[..|s| - 1], s[|s| - 1];
      InsertSorted(front, x, key);
      var r := Insert(front, x, key);
      assert Insert(s, x, key) == r + [last];
      forall i | 0 <= i < |r|
        ensures key(r[i]) >= key(last)
      {
        assert key(r[i]) >= key(r[|r| - 1]);
      }
    }
  }

  lemma {:induction false} WithKeyAppend<T>(a: seq<T>, b: seq<T>, key: T -> real, v: real)
    ensures WithKey(a + b, key, v) == WithKey(a, key, v) + WithKey(b, key, v)
  {
    if b == [] {
      assert a + b == a;
    } else {
      var front, last := b[..|b| - 1], b[|b| - 1];
      WithKeyAppend(a, front, key, v);
      var ab := a + b;
      assert ab[..|ab| - 1] == a + front && ab[|ab| - 1] == last;
    }
  }

  /** Insertion puts `x` after every element with its own key. */
  lemma {:induction false} InsertStable<T>(s: seq<T>, x: T, key: T -> real, v: real)
    ensures WithKey(Insert(s, x, key), key, v) == WithKey(s, key, v) + (if key(x) == v then [x] else [])
  {
    if s == [] || key(s[|s| - 1]) >= key(x) {
      WithKeyAppend(s, [x], key, v);
      assert [x][..0] == [];
    } else {
      var front, last := s[..|s| - 1], s[|s| - 1];
      InsertStable(front, x, key, v);
      WithKeyAppend(Insert(front, x, key), [last], key, v);
      assert [last][..0] == [];
    }
  }

  /** The sorted elements are the input's, each as often as before. */
  lemma {:induction false} SortDownPermutes<T>(s: seq<T>, key: T -> real)
    ensures multiset(SortDown(s, key)) == multiset(s)
  {
    if s != [] {
      var front, last := s[..|s| - 1], s[|s| - 1];
      SortDownPermutes(front, key);
      InsertPermutes(SortDown(front, key), last, key);
      assert s == front + [last];
    }
  }

  /** The keys are non-increasing. */
  lemma {:induction false} SortDownSorted<T>(s: seq<T>, key: T -> real)
    ensures SortedDown(SortDown(s, key), key)
  {
    if s != [] {
      SortDownSorted(s[..|s| - 1], key);
      InsertSorted(SortDown(s[..|s| - 1], key), s[|s| - 1], key);
    }
  }

  /** Elements with equal keys keep their input order. */
  lemma {:induction false} SortDownStable<T>(s: seq<T>, key: T -> real, v: real)
    ensures WithKey(SortDown(s, key), key, v) == WithKey(s, key, v)
  {
    if s != [] {
      SortDownStable(s[..|s| - 1], key, v);
      InsertStable(SortDown(s[..|s| - 1], key), s[|s| - 1], key, v);
    }
  }

  /** One step of the shifting loop: the element before position `j` has a
      smaller key, so it moves behind the inserted element. */
  lemma InsertShift<T>(prefix: seq<T>, x: T, key: T -> real, j: nat)
    requires 0 < j <= |prefix| && key(prefix[j - 1]) < key(x)
    requires Insert(prefix, x, key) == Insert(prefix[..j], x, key) + prefix[j..]
    ensures Insert(prefix, x, key) == Insert(prefix[..j - 1], x, key) + prefix[j - 1..]
  {
    assert prefix[..j][..j - 1] == prefix[..j - 1];
    assert [prefix[j - 1]] + prefix[j..] == prefix[j - 1..];
  }

  /** Where the shifting loop stops: the element before position `j`, if
      any, has a key at least that of the inserted element. */
  lemma InsertStop<T>(prefix: seq<T>, x: T, key: T -> real, j: nat)
    requires j <= |prefix| && (j == 0 || key(prefix[j - 1]) >= key(x))
    ensures Insert(prefix[..j], x, key) == prefix[..j] + [x]
  {
  }

  /** One pass of the sort: `a[i]` moves left past the elements of `a[..i]`
      with a strictly smaller key, which shift one place right. */
  method InsertInPlace<T>(a: array<T>, i: nat, key: T -> real)
    requires i < a.Length
    modifies a
    ensures a[..i + 1] == Insert(old(a[..i]), old(a[i]), key)
    ensures a[i + 1..] == old(a[i + 1..])
  {
    var x := a[i];
    ghost var prefix := a[..i];
    var j := i;
    assert prefix[..j] == prefix && prefix[j..] == [];
    while j > 0 && key(a[j - 1]) < key(x)
      invariant 0 <= j <= i
      invariant forall k :: 0 <= k < j ==> a[k] == prefix[k]
      invariant forall k :: j < k <= i ==> a[k] == prefix[k - 1]
      invariant forall k :: i < k < a.Length ==> a[k] == old(a[k])
      invariant Insert(prefix, x, key) == Insert(prefix[..j], x, key) + prefix[j..]
    {
      assert a[j - 1] == prefix[j - 1];
      InsertShift(prefix, x, key, j);
      a[j] := a[j - 1];
      j := j - 1;
    }
    assert j > 0 ==> a[j - 1] == prefix[j - 1];
    InsertStop(prefix, x, key, j);
    a[j] := x;
    assert a[..i + 1] == prefix[..j] + [x] + prefix[j..];
  }

  /** `a.sort((x, y) => key(y) - key(x))`: an insertion sort, which is
      stable, on the caller's array. */
  method SortInPlace<T>(a: array<T>, key: T -> real)
    modifies a
    ensures a[..] == SortDown(old(a[..]), key)
  {
    ghost var input := a[..];
    var i := 0;
    while i < a.Length
      invariant 0 <= i <= a.Length
      invariant a[..i] == SortDown(input[..i], key)
      invariant a[i..] == input[i..]
    {
      ghost var before := a[..];
      assert before[..i] == SortDown(input[..i], key) && before[i] == input[i];
      InsertInPlace(a, i, key);
      assert input[..i + 1][..i] == input[..i];
      assert a[..i + 1] == SortDown(input[..i + 1], key);
      assert a[i + 1..] == before[i + 1..] == input[i + 1..];
      i := i + 1;
    }
    assert a[..] == a[..a.Length] && input[..a.Length] == input;
  }
}
