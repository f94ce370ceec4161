/** Machine integers and the bit tests the chips share. */
module Bits {

  type Byte = x: int | 0 <= x < 0x100 witness 0
  type Word = x: int | 0 <= x < 0x1_0000 witness 0

  /** Bit `k` of a non-negative integer. */
  predicate Bit(v: nat, k: nat) {
    if k == 0 then v % 2 == 1 else Bit(v / 2, k - 1)
  }

  /** Bitwise conjunction. */
  function And(a: nat, b: nat): nat {
    if a == 0 || b == 0 then 0
    else (if a % 2 == 1 && b % 2 == 1 then 1 else 0) + 2 * And(a / 2, b / 2)
  }

  lemma {:induction false} AndKeepsMasked(a: nat, m: nat)
    ensures And(And(a, m), m) == And(a, m)
  {
    if a != 0 && m != 0 {
      AndKeepsMasked(a / 2, m / 2);
    }
  }

  function Pow2(n: nat): nat {
    if n == 0 then 1 else 2 * Pow2(n - 1)
  }

  /** A bit of a conjunction is a bit of both. */
  lemma {:induction false} AndBit(a: nat, b: nat, k: nat)
    ensures Bit(And(a, b), k) <==> Bit(a, k) && Bit(b, k)
  {
    if a == 0 || b == 0 {
      ZeroHasNoBits(a, k);
      ZeroHasNoBits(b, k);
      ZeroHasNoBits(0, k);
    } else if k > 0 {
      AndBit(a / 2, b / 2, k - 1);
    }
  }

  lemma {:induction false} ZeroHasNoBits(v: nat, k: nat)
    ensures v == 0 ==> !Bit(v, k)
  {
    if k > 0 {
      ZeroHasNoBits(v / 2, k - 1);
    }
  }

  /** Bits of two fields side by side. */
  lemma {:induction false} JoinBit(low: nat, high: nat, width: nat, k: nat)
    requires low < Pow2(width)
    ensures Bit(low + Pow2(width) * high, k) <==> if k < width then Bit(low, k) else Bit(high, k - width)
  {
    if width > 0 {
      var v := low + Pow2(width) * high;
      assert v == low + 2 * (Pow2(width - 1) * high);
      assert v / 2 == low / 2 + Pow2(width - 1) * high && v % 2 == low % 2;
      if k > 0 {
        JoinBit(low / 2, high, width - 1, k - 1);
      }
    }
  }

  lemma {:induction false} AndBound(a: nat, b: nat)
    ensures And(a, b) <= a && And(a, b) <= b
  {
    if a != 0 && b != 0 {
      AndBound(a / 2, b / 2);
    }
  }
}
