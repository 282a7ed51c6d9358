/**
 * The masked tuple copy the edge-geometry crop uses for the vertex positions,
 * the edge list and every attribute array: the tuples whose mask entry is set
 * are written, in their original order, to consecutive positions of a store
 * sized to the number of set entries.
 *
 * A store is a sequence of tuples; a tuple (all components of one entry) is
 * an element of the generic type T.
 */
module MaskedCopy {

  /** The number of set entries of a mask (std::count(..., true)). */
  function CountKept(mask: seq<bool>): (n: nat)
    ensures n <= |mask|
  {
    if |mask| == 0 then 0
    else CountKept(mask[..|mask| - 1]) + (if mask[|mask| - 1] then 1 else 0)
  }

  /** The tuples of src whose mask entry is set, in their original order. */
  function Compact<T>(src: seq<T>, mask: seq<bool>): (r: seq<T>)
    requires |src| == |mask|
    ensures |r| == CountKept(mask)
  {
    if |src| == 0 then []
    else Compact(src[..|src| - 1], mask[..|mask| - 1]) + (if mask[|mask| - 1] then [src[|src| - 1]] else [])
  }

  /** Extending a prefix of the mask by one entry adds that entry to the count. */
  lemma CountKeptStep(mask: seq<bool>, i: nat)
    requires i < |mask|
    ensures CountKept(mask[..i + 1]) == CountKept(mask[..i]) + (if mask[i] then 1 else 0)
  {
    assert mask[..i + 1][..i] == mask[..i];
  }

  /** Extending the prefixes by one entry appends that tuple when it is kept. */
  lemma CompactStep<T>(src: seq<T>, mask: seq<bool>, i: nat)
    requires |src| == |mask| && i < |src|
    ensures Compact(src[..i + 1], mask[..i + 1])
      == Compact(src[..i], mask[..i]) + (if mask[i] then [src[i]] else [])
  {
    assert src[..i + 1][..i] == src[..i];
    assert mask[..i + 1][..i] == mask[..i];
  }

  /** Writing x just past a filled prefix extends that prefix by x. */
  lemma WriteNext<T>(s: seq<T>, k: nat, prefix: seq<T>, x: T)
    requires k < |s| && s[..k] == prefix
    ensures |s[k := x]| == |s| && s[k := x][..k + 1] == prefix + [x]
  {
    assert s[k := x][..k + 1] == s[..k] + [x];
  }

  /** The count over a prefix never exceeds the count over a longer prefix. */
  lemma {:induction false} CountKeptMonotone(mask: seq<bool>, i: nat, j: nat)
    requires i <= j <= |mask|
    ensures CountKept(mask[..i]) <= CountKept(mask[..j])
    decreases j - i
  {
    if i < j {
      CountKeptStep(mask, i);
      CountKeptMonotone(mask, i + 1, j);
    }
  }

  /** A kept entry's rank (the number of kept entries before it) is a valid
      position of the compacted store. */
  lemma RankInRange(mask: seq<bool>, i: nat)
    requires i < |mask| && mask[i]
    ensures CountKept(mask[..i]) < CountKept(mask)
  {
    CountKeptStep(mask, i);
    CountKeptMonotone(mask, i + 1, |mask|);
    assert mask[..|mask|] == mask;
  }

  /** Ranks strictly increase along the kept entries: the copy keeps their order. */
  lemma RankIncreasing(mask: seq<bool>, i: nat, j: nat)
    requires i < j <= |mask| && mask[i]
    ensures CountKept(mask[..i]) < CountKept(mask[..j])
  {
    CountKeptStep(mask, i);
    CountKeptMonotone(mask, i + 1, j);
  }

  /** A kept tuple lands at its rank in the compacted store. */
  lemma {:induction false} CompactAtRank<T>(src: seq<T>, mask: seq<bool>, i: nat)
    requires |src| == |mask| && i < |src| && mask[i]
    ensures CountKept(mask[..i]) < |Compact(src, mask)|
    ensures Compact(src, mask)[CountKept(mask[..i])] == src[i]
    decreases |src|
  {
    var n := |src| - 1;
    var prefix := Compact(src[..n], mask[..n]);
    assert Compact(src, mask) == prefix + (if mask[n] then [src[n]] else []);
    if i < n {
      assert src[..n][..i] == src[..i] && mask[..n][..i] == mask[..i];
      CompactAtRank(src[..n], mask[..n], i);
    } else {
      assert src[..n] == src[..i] && mask[..n] == mask[..i];
    }
  }

  /** Every tuple of the compacted store is a kept tuple of the source, found at
      its rank: together with CompactAtRank and RankIncreasing, the store is
      exactly the kept tuples in their original order. */
  lemma {:induction false} CompactOnlyKept<T>(src: seq<T>, mask: seq<bool>, k: nat)
    requires |src| == |mask| && k < |Compact(src, mask)|
    ensures exists i :: 0 <= i < |src| && mask[i] && CountKept(mask[..i]) == k && Compact(src, mask)[k] == src[i]
    decreases |src|
  {
    var n := |src| - 1;
    var prefix := Compact(src[..n], mask[..n]);
    if k < |prefix| {
      CompactOnlyKept(src[..n], mask[..n], k);
      var i :| 0 <= i < n && mask[..n][i] && CountKept(mask[..n][..i]) == k && prefix[k] == src[..n][i];
      assert mask[..n][..i] == mask[..i];
    } else {
      assert mask[..n] == mask[..|mask| - 1];
      assert mask[n] && CountKept(mask[..n]) == k;
    }
  }

  /** With every entry set, the count is the length. */
  lemma {:induction false} CountKeptAll(mask: seq<bool>)
    requires forall i :: 0 <= i < |mask| ==> mask[i]
    ensures CountKept(mask) == |mask|
  {
    if |mask| > 0 {
      CountKeptAll(mask[..|mask| - 1]);
    }
  }

  /** With every entry set, compaction changes nothing. */
  lemma {:induction false} CompactKeepsAll<T>(src: seq<T>, mask: seq<bool>)
    requires |src| == |mask| && forall i :: 0 <= i < |mask| ==> mask[i]
    ensures Compact(src, mask) == src
    decreases |src|
  {
    if |src| > 0 {
      var n := |src| - 1;
      CompactKeepsAll(src[..n], mask[..n]);
      assert src[..n] + [src[n]] == src;
    }
  }

  /** CropEdgeGeomArray::operator(): copies the kept tuples of oldStore to
      consecutive positions of newStore, which was resized to the number of kept
      tuples. A set cancel flag stops the copy before any tuple is written. */
  method CropArray<T>(oldStore: seq<T>, newStore: array<T>, tupleMask: seq<bool>, shouldCancel: bool)
    requires |tupleMask| == |oldStore| && newStore.Length == CountKept(tupleMask)
    modifies newStore
    ensures shouldCancel ==> newStore[..] == old(newStore[..])
    ensures !shouldCancel ==> newStore[..] == Compact(oldStore, tupleMask)
  {
    var newIndex := 0;
    var i := 0;
    while i < |oldStore|
      invariant 0 <= i <= |oldStore|
      invariant shouldCancel ==> i == 0
      invariant newIndex == CountKept(tupleMask[..i]) <= newStore.Length
      invariant newStore[..newIndex] == Compact(oldStore[..i], tupleMask[..i])
      invariant shouldCancel ==> newStore[..] == old(newStore[..])
    {
      if shouldCancel {
        return;
      }
      CountKeptStep(tupleMask, i);
      CompactStep(oldStore, tupleMask, i);
      if tupleMask[i] {
        RankInRange(tupleMask, i);
        CountKeptMonotone(tupleMask, i + 1, |tupleMask|);
        assert tupleMask[..|tupleMask|] == tupleMask;
        newStore[newIndex] := oldStore[i];
        newIndex := newIndex + 1;
      }
      i := i + 1;
    }
    assert oldStore[..i] == oldStore && tupleMask[..i] == tupleMask;
  }
}
