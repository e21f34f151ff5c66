/**
 The ready bitmap as a 32-bit word, and the set of levels it stands for. These lemmas let
 the scheduler work on the word while its specification works on the set.
 */
module Bitmap {

  predicate Bit(w: bv32, i: bv6)
    requires i < 32
  {
    (w >> i) & 1 == 1
  }

  predicate Has(w: bv32, i: nat)
    requires i < 32
  {
    Bit(w, i as bv6)
  }

  function Bits(w: bv32): (bits: set<nat>)
    ensures forall i :: i in bits ==> i < 32
  {
    set i | 0 <= i < 32 && Has(w, i)
  }

  function SetBit(w: bv32, p: nat): bv32
    requires p < 32
  {
    w | (1 << (p as bv6))
  }

  function ClearBit(w: bv32, p: nat): bv32
    requires p < 32
  {
    w & !(1 << (p as bv6))
  }

  function ShiftRight(w: bv32, p: nat): bv32
    requires p < 32
  {
    w >> (p as bv6)
  }

  lemma SameIndex(p: nat, q: nat)
    requires p < 32 && q < 32 && p as bv6 == q as bv6
    ensures p == q
  {
  }

  lemma SetBitAt(w: bv32, p: bv6, i: bv6)
    requires p < 32 && i < 32
    ensures Bit(w | (1 << p), i) <==> Bit(w, i) || i == p
  {
  }

  lemma ClearBitAt(w: bv32, p: bv6, i: bv6)
    requires p < 32 && i < 32
    ensures Bit(w & !(1 << p), i) <==> Bit(w, i) && i != p
  {
  }

  lemma SetBitHas(w: bv32, p: nat, i: nat)
    requires p < 32 && i < 32
    ensures Has(SetBit(w, p), i) <==> Has(w, i) || i == p
  {
    hide Bit;
    SetBitAt(w, p as bv6, i as bv6);
    if i as bv6 == p as bv6 {
      SameIndex(i, p);
    }
  }

  lemma ClearBitHas(w: bv32, p: nat, i: nat)
    requires p < 32 && i < 32
    ensures Has(ClearBit(w, p), i) <==> Has(w, i) && i != p
  {
    hide Bit;
    ClearBitAt(w, p as bv6, i as bv6);
    if i as bv6 == p as bv6 {
      SameIndex(i, p);
    }
  }

  lemma SetBitAdds(w: bv32, p: nat)
    requires p < 32
    ensures Bits(SetBit(w, p)) == Bits(w) + {p}
  {
    hide Has, SetBit;
    forall i | 0 <= i < 32 ensures Has(SetBit(w, p), i) <==> Has(w, i) || i == p {
      SetBitHas(w, p, i);
    }
  }

  lemma ClearBitRemoves(w: bv32, p: nat)
    requires p < 32
    ensures Bits(ClearBit(w, p)) == Bits(w) - {p}
  {
    hide Has, ClearBit;
    forall i | 0 <= i < 32 ensures Has(ClearBit(w, p), i) <==> Has(w, i) && i != p {
      ClearBitHas(w, p, i);
    }
  }

  lemma ShiftByOne(w: bv32, p: bv6)
    requires p < 32
    ensures w >> p == 0 <==> !Bit(w, p) && w >> (p + 1) == 0
  {
  }

  lemma NextIndex(p: nat)
    requires p < 32
    ensures (p + 1) as bv6 == p as bv6 + 1
  {
  }

  lemma ShiftedOut(w: bv32)
    ensures w >> 32 == 0
  {
  }

  /** The shifted word is not zero exactly if some bit at or above `p` is set. */
  lemma {:induction false} ShiftSeesHigher(w: bv32, p: nat)
    requires p < 32
    ensures ShiftRight(w, p) != 0 <==> exists b :: b in Bits(w) && b >= p
    decreases 32 - p
  {
    hide Bit;
    ShiftByOne(w, p as bv6);
    NextIndex(p);
    assert Has(w, p) <==> p in Bits(w);
    if p < 31 {
      ShiftSeesHigher(w, p + 1);
    } else {
      ShiftedOut(w);
    }
  }

  lemma ShiftByZero(w: bv32)
    ensures ShiftRight(w, 0) == w
  {
  }

  lemma ZeroIsEmpty(w: bv32)
    ensures w == 0 <==> Bits(w) == {}
  {
    hide Has, ShiftRight;
    ShiftByZero(w);
    ShiftSeesHigher(w, 0);
  }

  /** The index of the highest set bit, and 0 for a word without any. */
  method FindMsb(w: bv32) returns (p: nat)
    ensures if w == 0 then p == 0 else p in Bits(w) && forall b :: b in Bits(w) ==> b <= p
  {
    hide Has, ShiftRight;
    if w == 0 {
      return 0;
    }
    p := 31;
    ShiftByZero(w);
    while ShiftRight(w, p) == 0
      invariant p < 32 && forall b :: b in Bits(w) ==> b <= p
      decreases p
    {
      ShiftSeesHigher(w, p);
      assert p > 0;
      p := p - 1;
    }
    ShiftSeesHigher(w, p);
  }
}
