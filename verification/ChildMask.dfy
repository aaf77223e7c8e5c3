/** The 8-bit child mask `mActiveNodes`. */
module ChildMask {
  import opened Geometry

  function Bit(k: Corner): bv8
  {
    match k
    case 0 => 1
    case 1 => 2
    case 2 => 4
    case 3 => 8
    case 4 => 16
    case 5 => 32
    case 6 => 64
    case 7 => 128
  }

  predicate HasBit(mask: bv8, k: Corner) { mask & Bit(k) != 0 }

  lemma SetBit(mask: bv8, k: Corner) returns (mask': bv8)
    ensures mask' == mask | Bit(k)
    ensures forall i: Corner :: HasBit(mask', i) <==> HasBit(mask, i) || i == k
  {
    hide HasBit, Bit;
    mask' := mask | Bit(k);
    forall i: Corner ensures HasBit(mask', i) <==> HasBit(mask, i) || i == k {
      SetBitAt(mask, k, i);
    }
  }

  lemma SetBitAt(mask: bv8, k: Corner, i: Corner)
    ensures HasBit(mask | Bit(k), i) <==> HasBit(mask, i) || i == k
  {}

  lemma ClearBitAt(mask: bv8, k: Corner, i: Corner)
    requires HasBit(mask, k)
    ensures HasBit(mask ^ Bit(k), i) <==> HasBit(mask, i) && i != k
  {}

  /** Toggling a set bit clears it. */
  lemma ClearBit(mask: bv8, k: Corner)
    requires HasBit(mask, k)
    ensures forall i: Corner :: HasBit(mask ^ Bit(k), i) <==> HasBit(mask, i) && i != k
  {
    hide HasBit, Bit;
    forall i: Corner ensures HasBit(mask ^ Bit(k), i) <==> HasBit(mask, i) && i != k {
      ClearBitAt(mask, k, i);
    }
  }

  lemma EmptyMask(mask: bv8)
    ensures mask == 0 <==> forall i: Corner :: !HasBit(mask, i)
  {
    if forall i: Corner :: !HasBit(mask, i) {
      assert !HasBit(mask, 0) && !HasBit(mask, 1) && !HasBit(mask, 2) && !HasBit(mask, 3);
      assert !HasBit(mask, 4) && !HasBit(mask, 5) && !HasBit(mask, 6) && !HasBit(mask, 7);
      NoBits(mask);
    }
  }

  lemma NoBits(mask: bv8)
    requires mask & 1 == 0 && mask & 2 == 0 && mask & 4 == 0 && mask & 8 == 0
    requires mask & 16 == 0 && mask & 32 == 0 && mask & 64 == 0 && mask & 128 == 0
    ensures mask == 0
  {}

  /** `mask >> n`, one place at a time, as the loops of `Update` shift their copy of the mask. */
  function Shifted(mask: bv8, n: nat): bv8
  {
    if n == 0 then mask else Shifted(mask, n - 1) >> 1
  }

  /** The lowest bit of the copy tells whether the child at the loop index is set; when nothing is left of the
      copy, no further child is set. */
  lemma ShiftedNone(mask: bv8)
    ensures Shifted(mask, 0) == mask
  {}

  lemma ShiftedNext(mask: bv8, n: nat)
    ensures Shifted(mask, n + 1) == Shifted(mask, n) >> 1
  {}

  lemma ShiftedBit(mask: bv8, n: nat)
    ensures n < 8 ==> (Shifted(mask, n) & 1 != 0 <==> HasBit(mask, n))
    ensures Shifted(mask, n) == 0 ==> forall i: Corner :: n <= i ==> !HasBit(mask, i)
    ensures n >= 8 ==> Shifted(mask, n) == 0
  {
    if n >= 8 {
      ShiftedOut(mask, n);
    } else {
      ShiftedFew(mask, n);
    }
  }

  lemma {:induction false} ShiftedOut(mask: bv8, n: nat)
    requires n >= 8
    ensures Shifted(mask, n) == 0
  {
    if n > 8 {
      ShiftedOut(mask, n - 1);
    } else {
      assert Shifted(mask, 4) == Shifted(mask, 2) >> 1 >> 1;
      assert Shifted(mask, 8) == Shifted(mask, 6) >> 1 >> 1;
      assert Shifted(mask, 6) == Shifted(mask, 4) >> 1 >> 1;
    }
  }

  lemma ShiftedFew(mask: bv8, n: nat)
    requires n < 8
    ensures Shifted(mask, n) & 1 != 0 <==> HasBit(mask, n)
    ensures Shifted(mask, n) == 0 ==> forall i: Corner :: n <= i ==> !HasBit(mask, i)
  {
    ShiftedLow(mask);
    ShiftedHigh(mask);
  }

  lemma ShiftedLow(mask: bv8)
    ensures Shifted(mask, 0) == mask && Shifted(mask, 1) == mask >> 1
    ensures Shifted(mask, 2) == mask >> 2 && Shifted(mask, 3) == mask >> 3
  {
    assert Shifted(mask, 3) == Shifted(mask, 1) >> 1 >> 1;
  }

  lemma ShiftedHigh(mask: bv8)
    ensures Shifted(mask, 4) == mask >> 4 && Shifted(mask, 5) == mask >> 5
    ensures Shifted(mask, 6) == mask >> 6 && Shifted(mask, 7) == mask >> 7
  {
    ShiftedLow(mask);
    assert Shifted(mask, 5) == Shifted(mask, 3) >> 1 >> 1;
    assert Shifted(mask, 7) == Shifted(mask, 5) >> 1 >> 1;
  }

  /** The loop over a copy of the mask visits the set bits. */
  lemma ShiftedDue(mask: bv8, n: nat, due: set<Corner>)
    requires n <= 8 && forall k: Corner :: HasBit(mask, k) <==> k in due
    ensures Shifted(mask, 0) == mask && Shifted(mask, n + 1) == Shifted(mask, n) >> 1
    ensures Shifted(mask, n) == 0 ==> forall k <- due :: k < n
    ensures Shifted(mask, n) != 0 ==> n < 8 && (Shifted(mask, n) & 1 != 0 <==> n in due)
  {
    ShiftedBit(mask, n);
  }
}
