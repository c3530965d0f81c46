/**
 * Calcite's ImmutableBitSet, as used by the aggregate code: a finite sequence of bits
 * walked with nextSetBit.
 */
module Bits {

  /** Indices of the set bits. */
  function Members(bits: seq<bool>): set<nat>
  {
    set i: nat | i < |bits| && bits[i]
  }

  /** Every set bit lies below `bound`. */
  predicate AllBelow(bits: seq<bool>, bound: nat)
  {
    forall i :: 0 <= i < |bits| && bits[i] ==> i < bound
  }

  /** ImmutableBitSet.nextSetBit: the first set bit at or after `from`, or -1 when there is none. */
  function NextSetBit(bits: seq<bool>, from: nat): (r: int)
    ensures r == -1 || (from <= r < |bits| && bits[r])
    decreases |bits| - from
  {
    if from >= |bits| then -1
    else if bits[from] then from
    else NextSetBit(bits, from + 1)
  }

  /** nextSetBit skips only clear bits: none is set between `from` and the result (or the end). */
  lemma {:induction false} NextSetBitSkipsClear(bits: seq<bool>, from: nat, i: nat)
    requires from <= i < |bits|
    requires NextSetBit(bits, from) == -1 || i < NextSetBit(bits, from)
    ensures !bits[i]
    decreases |bits| - from
  {
    if from < i {
      NextSetBitSkipsClear(bits, from + 1, i);
    }
  }

  /** The set bits at or after `from`, in the order nextSetBit visits them. */
  function SetBitsFrom(bits: seq<bool>, from: nat): (r: seq<nat>)
    ensures forall k :: 0 <= k < |r| ==> from <= r[k] < |bits| && bits[r[k]]
    decreases |bits| - from
  {
    if from >= |bits| then []
    else if bits[from] then [from] + SetBitsFrom(bits, from + 1)
    else SetBitsFrom(bits, from + 1)
  }

  /** The walk visits the set bits in strictly ascending order. */
  lemma {:induction false} SetBitsFromAscending(bits: seq<bool>, from: nat)
    ensures forall k, l :: 0 <= k < l < |SetBitsFrom(bits, from)| ==>
      SetBitsFrom(bits, from)[k] < SetBitsFrom(bits, from)[l]
    decreases |bits| - from
  {
    if from < |bits| {
      SetBitsFromAscending(bits, from + 1);
      var rest := SetBitsFrom(bits, from + 1);
      if bits[from] {
        var r := [from] + rest;
        assert SetBitsFrom(bits, from) == r;
        forall k, l | 0 <= k < l < |r| ensures r[k] < r[l] {
          assert r[l] == rest[l - 1] && from + 1 <= rest[l - 1];
          if k > 0 {
            assert r[k] == rest[k - 1] && rest[k - 1] < rest[l - 1];
          }
        }
      } else {
        assert SetBitsFrom(bits, from) == rest;
      }
    }
  }

  /** All set bits in ascending order. */
  function SetBits(bits: seq<bool>): seq<nat>
  {
    SetBitsFrom(bits, 0)
  }

  /** ImmutableBitSet.cardinality. */
  function Cardinality(bits: seq<bool>): nat
  {
    |SetBits(bits)|
  }

  /** Skipping clear bits: the walk from `from` and the walk from the next set bit agree. */
  lemma {:induction false} SetBitsFromNext(bits: seq<bool>, from: nat)
    ensures NextSetBit(bits, from) == -1 ==> SetBitsFrom(bits, from) == []
    ensures NextSetBit(bits, from) != -1 ==>
      SetBitsFrom(bits, from) == [NextSetBit(bits, from)] + SetBitsFrom(bits, NextSetBit(bits, from) + 1)
    decreases |bits| - from
  {
    if from < |bits| && !bits[from] {
      SetBitsFromNext(bits, from + 1);
    }
  }

  /** The set bits at or after `from`. */
  function MembersFrom(bits: seq<bool>, from: nat): set<nat>
  {
    set i: nat | from <= i < |bits| && bits[i]
  }

  lemma MembersFromStep(bits: seq<bool>, from: nat)
    requires from < |bits|
    ensures MembersFrom(bits, from) == (if bits[from] then {from} else {}) + MembersFrom(bits, from + 1)
    ensures from !in MembersFrom(bits, from + 1)
  {
    var here, rest := MembersFrom(bits, from), MembersFrom(bits, from + 1);
    forall i | i in here ensures i in (if bits[from] then {from} else {}) + rest {
    }
  }

  /** The ascending walk visits exactly the set bits: as many as the bit set's cardinality. */
  lemma {:induction false} SetBitsFromCount(bits: seq<bool>, from: nat)
    ensures |SetBitsFrom(bits, from)| == |MembersFrom(bits, from)|
    decreases |bits| - from
  {
    if from < |bits| {
      SetBitsFromCount(bits, from + 1);
      MembersFromStep(bits, from);
    } else {
      assert MembersFrom(bits, from) == {};
    }
  }

  /** Every set bit at or after `from` is visited by the walk. */
  lemma {:induction false} SetBitsFromComplete(bits: seq<bool>, from: nat, i: nat)
    requires from <= i < |bits| && bits[i]
    ensures i in SetBitsFrom(bits, from)
    decreases |bits| - from
  {
    if from < i {
      SetBitsFromComplete(bits, from + 1, i);
    }
  }

  /** SetBits is the ascending enumeration of Members, and Cardinality is its size. */
  lemma SetBitsEnumerateMembers(bits: seq<bool>)
    ensures forall i :: i in Members(bits) <==> i in SetBits(bits)
    ensures forall k, l :: 0 <= k < l < |SetBits(bits)| ==> SetBits(bits)[k] < SetBits(bits)[l]
    ensures Cardinality(bits) == |Members(bits)|
  {
    SetBitsFromAscending(bits, 0);
    SetBitsFromCount(bits, 0);
    assert Members(bits) == MembersFrom(bits, 0);
    forall i | i in Members(bits) ensures i in SetBits(bits) {
      SetBitsFromComplete(bits, 0, i);
    }
  }
}
