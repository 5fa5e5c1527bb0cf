/**
 * List operations the views perform through SwiftUI: removing the rows a
 * swipe selected (an IndexSet of offsets) and sorting by a key, newest first.
 */
module Seqs {

  /** The indices below `n` that are not in `offsets`, in increasing order. */
  function KeptIndices(n: nat, offsets: set<nat>): seq<nat> {
    if n == 0 then []
    else KeptIndices(n - 1, offsets) + (if n - 1 in offsets then [] else [n - 1])
  }

  /** The kept indices are exactly the ones below `n` outside `offsets`, increasing. */
  lemma {:induction false} KeptIndicesExactly(n: nat, offsets: set<nat>)
    ensures var ks := KeptIndices(n, offsets);
              && (forall k :: 0 <= k < |ks| ==> ks[k] < n && ks[k] !in offsets)
              && (forall i :: 0 <= i < n && i !in offsets ==> i in ks)
              && (forall j, k :: 0 <= j < k < |ks| ==> ks[j] < ks[k])
  {
    if n > 0 {
      KeptIndicesExactly(n - 1, offsets);
    }
  }

  /** `xs` without the elements at `offsets`; the rest keep their order. */
  function RemoveAt<T>(xs: seq<T>, offsets: set<nat>): seq<T> {
    if |xs| == 0 then []
    else RemoveAt(xs[..|xs| - 1], offsets) + (if |xs| - 1 in offsets then [] else [xs[|xs| - 1]])
  }

  /** The k-th survivor is the element at the k-th kept index. */
  lemma {:induction false} RemoveAtIndices<T>(xs: seq<T>, offsets: set<nat>)
    ensures var ks := KeptIndices(|xs|, offsets);
              |RemoveAt(xs, offsets)| == |ks|
              && forall k :: 0 <= k < |ks| ==> ks[k] < |xs| && RemoveAt(xs, offsets)[k] == xs[ks[k]]
  {
    if |xs| > 0 {
      var init := xs[..|xs| - 1];
      RemoveAtIndices(init, offsets);
      var r, r0 := RemoveAt(xs, offsets), RemoveAt(init, offsets);
      var ks, ks0 := KeptIndices(|xs|, offsets), KeptIndices(|init|, offsets);
      forall k | 0 <= k < |ks|
        ensures ks[k] < |xs| && r[k] == xs[ks[k]]
      {
        if k < |ks0| {
          assert r[k] == r0[k] && ks[k] == ks0[k];
          assert init[ks0[k]] == xs[ks0[k]];
        } else {
          assert ks[k] == |xs| - 1;
        }
      }
    }
  }

  /** The offsets below `n`. */
  function OffsetsBelow(offsets: set<nat>, n: nat): set<nat> {
    set i | i in offsets && i < n
  }

  lemma OffsetsBelowStep(offsets: set<nat>, n: nat)
    ensures |OffsetsBelow(offsets, n + 1)| == |OffsetsBelow(offsets, n)| + (if n in offsets then 1 else 0)
  {
    if n in offsets {
      assert OffsetsBelow(offsets, n + 1) == OffsetsBelow(offsets, n) + {n};
      assert n !in OffsetsBelow(offsets, n);
    } else {
      assert OffsetsBelow(offsets, n + 1) == OffsetsBelow(offsets, n);
    }
  }

  lemma {:induction false} KeptCount(n: nat, offsets: set<nat>)
    ensures |KeptIndices(n, offsets)| == n - |OffsetsBelow(offsets, n)|
  {
    if n > 0 {
      KeptCount(n - 1, offsets);
      OffsetsBelowStep(offsets, n - 1);
    } else {
      assert OffsetsBelow(offsets, n) == {};
    }
  }

  /** Removing at no offset keeps the list as it is. */
  lemma {:induction false} RemoveNothing<T>(xs: seq<T>)
    ensures RemoveAt(xs, {}) == xs
  {
    if |xs| > 0 {
      var init := xs[..|xs| - 1];
      RemoveNothing(init);
      assert xs == init + [xs[|xs| - 1]];
    }
  }

  /** With every offset in range, exactly |offsets| elements disappear. */
  lemma RemoveAtLength<T>(xs: seq<T>, offsets: set<nat>)
    requires forall i :: i in offsets ==> i < |xs|
    ensures |RemoveAt(xs, offsets)| == |xs| - |offsets|
  {
    KeptCount(|xs|, offsets);
    RemoveAtIndices(xs, offsets);
    assert OffsetsBelow(offsets, |xs|) == offsets;
  }

  /**
   * `remove(atOffsets:)` on a list: every offset must lie inside the list.
   * The survivors are the elements at the kept indices, in order, and
   * exactly |offsets| elements go.
   */
  function DeleteOffsets<T>(xs: seq<T>, offsets: set<nat>): (r: seq<T>)
    requires forall i :: i in offsets ==> i < |xs|
    ensures |r| == |xs| - |offsets|
    ensures var ks := KeptIndices(|xs|, offsets);
              |r| == |ks| && forall k :: 0 <= k < |ks| ==> ks[k] < |xs| && r[k] == xs[ks[k]]
  {
    RemoveAtIndices(xs, offsets);
    RemoveAtLength(xs, offsets);
    RemoveAt(xs, offsets)
  }

  /** An element not at a removed offset survives the removal. */
  lemma RemoveAtKeeps<T>(xs: seq<T>, offsets: set<nat>, i: nat)
    requires i < |xs| && i !in offsets
    ensures xs[i] in RemoveAt(xs, offsets)
  {
    var ks := KeptIndices(|xs|, offsets);
    KeptIndicesExactly(|xs|, offsets);
    RemoveAtIndices(xs, offsets);
    var k :| 0 <= k < |ks| && ks[k] == i;
    assert RemoveAt(xs, offsets)[k] == xs[i];
  }

  predicate Distinct<T(==)>(xs: seq<T>) {
    forall i, j :: 0 <= i < j < |xs| ==> xs[i] != xs[j]
  }

  /** In a list without repeats, an element at a removed offset is gone afterwards. */
  lemma RemoveAtDrops<T>(xs: seq<T>, offsets: set<nat>, i: nat)
    requires Distinct(xs) && i < |xs| && i in offsets
    ensures xs[i] !in RemoveAt(xs, offsets)
  {
    var r := RemoveAt(xs, offsets);
    var ks := KeptIndices(|xs|, offsets);
    KeptIndicesExactly(|xs|, offsets);
    RemoveAtIndices(xs, offsets);
    forall k | 0 <= k < |r|
      ensures r[k] != xs[i]
    {
      assert r[k] == xs[ks[k]] && ks[k] != i;
    }
  }

  /**
   * With every offset in range and no repeats: exactly |offsets| elements
   * go, the ones at the offsets are gone and every other one stays.
   */
  lemma RemoveAtExactly<T>(xs: seq<T>, offsets: set<nat>)
    requires Distinct(xs)
    requires forall i :: i in offsets ==> i < |xs|
    ensures |RemoveAt(xs, offsets)| == |xs| - |offsets|
    ensures forall i :: 0 <= i < |xs| ==> (xs[i] in RemoveAt(xs, offsets) <==> i !in offsets)
  {
    RemoveAtLength(xs, offsets);
    forall i | 0 <= i < |xs|
      ensures xs[i] in RemoveAt(xs, offsets) <==> i !in offsets
    {
      if i in offsets {
        RemoveAtDrops(xs, offsets, i);
      } else {
        RemoveAtKeeps(xs, offsets, i);
      }
    }
  }

  /** Matching the first of `a` with an equal element of `b` leaves two permutations. */
  lemma PermutationOfRest<T>(a: seq<T>, b: seq<T>, i: nat)
    requires multiset(a) == multiset(b) && |a| > 0 && i < |b| && b[i] == a[0]
    ensures multiset(a[1..]) == multiset(b[..i] + b[i + 1..])
  {
    var x := a[0];
    assert a == [x] + a[1..];
    assert b == b[..i] + [x] + b[i + 1..];
    var rest := multiset(b[..i]) + multiset(b[i + 1..]);
    assert multiset(b[..i] + b[i + 1..]) == rest;
    assert multiset{x} + multiset(a[1..]) == multiset{x} + rest;
    forall y ensures multiset(a[1..])[y] == rest[y] {
      assert (multiset{x} + multiset(a[1..]))[y] == (multiset{x} + rest)[y];
    }
    assert multiset(a[1..]) == rest;
  }

  // ---------------------------------------------------------------------
  // Sorting, largest key first.

  predicate SortedDescending<T>(xs: seq<T>, key: T -> int) {
    forall i, j :: 0 <= i < j < |xs| ==> key(xs[i]) >= key(xs[j])
  }

  function InsertDescending<T>(x: T, xs: seq<T>, key: T -> int): (r: seq<T>)
    requires SortedDescending(xs, key)
    ensures SortedDescending(r, key)
    ensures multiset(r) == multiset(xs) + multiset{x}
    ensures |r| == |xs| + 1
    ensures r[0] == x || (|xs| > 0 && r[0] == xs[0])
  {
    if |xs| == 0 then [x]
    else if key(x) >= key(xs[0]) then [x] + xs
    else
      var rest := InsertDescending(x, xs[1..], key);
      assert xs == [xs[0]] + xs[1..];
      assert key(rest[0]) <= key(xs[0]);
      [xs[0]] + rest
  }

  /** A reordering of `xs` with keys in non-increasing order. */
  function SortDescending<T>(xs: seq<T>, key: T -> int): (r: seq<T>)
    ensures SortedDescending(r, key)
    ensures multiset(r) == multiset(xs)
    ensures |r| == |xs|
  {
    if |xs| == 0 then []
    else
      assert xs == [xs[0]] + xs[1..];
      InsertDescending(xs[0], SortDescending(xs[1..], key), key)
  }

  /** The first element of a descending list has the largest key of all. */
  lemma HeadOfDescendingIsMax<T>(xs: seq<T>, key: T -> int, y: T)
    requires SortedDescending(xs, key) && y in xs
    ensures key(y) <= key(xs[0])
  {
    var j :| 0 <= j < |xs| && xs[j] == y;
    if j > 0 { assert key(xs[0]) >= key(xs[j]); }
  }
}
