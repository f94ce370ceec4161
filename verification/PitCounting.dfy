/** What the counting element counts: a number that wraps at 2^16, or at 10^4 in BCD. */
module PitCounting {
  import opened Bits
  import opened PitExact

  /** The four digits with their decimal weights; a digit may be above nine. */
  function Decimal(v: Word): nat {
    v % 0x10 + 10 * ((v / 0x10) % 0x10) + 100 * ((v / 0x100) % 0x10) + 1000 * (v / 0x1000)
  }

  function Modulus(bcd: bool): nat {
    if bcd then 10000 else 0x1_0000
  }

  /**
   How far a counting element is from zero: that many decrements take it there. Zero itself is a whole modulus away,
   and a BCD value with digits above nine counts down to zero from beyond the modulus. Of a count register this is the
   divisor.
   */
  function Number(bcd: bool, v: Count): nat {
    if VisibleCount(v) == 0 then Modulus(bcd) else if bcd then Decimal(v) else v
  }

  function Back(bcd: bool, x: nat, n: nat): nat
    requires n <= Modulus(bcd)
  {
    if x > n then x - n else x + Modulus(bcd) - n
  }

  lemma Split(v: Word)
    ensures v == v % 0x10 + 0x10 * ((v / 0x10) % 0x10) + 0x100 * ((v / 0x100) % 0x10) + 0x1000 * (v / 0x1000)
  {
    var a := v / 0x10;
    var b := a / 0x10;
    SixteenthTwice(v, 0x10);
    SixteenthTwice(v, 0x100);
    assert v == 0x10 * a + v % 0x10;
    assert a == 0x10 * b + a % 0x10;
    assert b == 0x10 * (b / 0x10) + b % 0x10;
  }

  /** Dividing by sixteen once more. */
  lemma SixteenthTwice(v: nat, d: nat)
    requires d == 0x10 || d == 0x100
    ensures v / d / 0x10 == v / (0x10 * d)
  {
  }

  lemma DecimalFacts(w: Word)
    ensures Decimal(w) == 0 <==> w == 0
    ensures Decimal(w) == 1 <==> w == 1
    ensures Decimal(w) % 2 == w % 2
  {
    Split(w);
    assert Decimal(w) == 2 * (5 * ((w / 0x10) % 0x10) + 50 * ((w / 0x100) % 0x10) + 500 * (w / 0x1000)) + w % 0x10;
    assert w == 2 * (8 * (w / 0x10)) + w % 0x10;
  }

  lemma NumberFacts(bcd: bool, v: Count)
    ensures Number(bcd, v) >= 1
    ensures Number(bcd, v) == 1 <==> v == 1
    ensures Number(bcd, v) % 2 == v % 2
    ensures VisibleCount(v) == 0 ==> Number(bcd, v) == Modulus(bcd)
  {
    hide Decimal;
    DecimalFacts(VisibleCount(v));
  }

  lemma Digits(a: nat, b: nat, c: nat, d: nat)
    requires a < 0x10 && b < 0x10 && c < 0x10 && d < 0x10
    ensures var v := a + 0x10 * b + 0x100 * c + 0x1000 * d;
            v < 0x1_0000 && Decimal(v) == a + 10 * b + 100 * c + 1000 * d
  {
    var v := a + 0x10 * b + 0x100 * c + 0x1000 * d;
    assert v / 0x10 == b + 0x10 * c + 0x100 * d;
    assert v / 0x100 == c + 0x10 * d;
    assert v / 0x1000 == d;
  }

  /** The nibble-borrow subtraction of the chip is decimal subtraction of one, whatever the digits. */
  lemma BcdPredecessor(w: Word)
    ensures Decimal(BcdDecrement(w)) == if w == 0 then 9999 else Decimal(w) - 1
  {
    Split(w);
    var a, b, c, d := w % 0x10, (w / 0x10) % 0x10, (w / 0x100) % 0x10, w / 0x1000;
    if w == 0 {
      Digits(9, 9, 9, 9);
    } else if a != 0 {
      Digits(a - 1, b, c, d);
    } else if b != 0 {
      Digits(9, b - 1, c, d);
    } else if c != 0 {
      Digits(9, 9, c - 1, d);
    } else {
      Digits(9, 9, 9, d - 1);
    }
  }

  lemma Predecessor(bcd: bool, v: Count)
    ensures Number(bcd, v) >= 1
    ensures Number(bcd, DecrementValue(bcd, v)) == Back(bcd, Number(bcd, v), 1)
    ensures VisibleCount(DecrementValue(bcd, v)) == 0 <==> Number(bcd, v) == 1
  {
    hide Decimal, BcdDecrement;
    NumberFacts(bcd, v);
    if bcd {
      var w := VisibleCount(v);
      SameVisible(v);
      BcdPredecessor(w);
      DecimalFacts(w);
      DecimalFacts(BcdDecrement(w));
    }
  }

  lemma SameVisible(v: Count)
    ensures BcdDecrement(v) == BcdDecrement(VisibleCount(v))
  {
  }

  /** n decrements take the number back by n, and reach zero exactly if it was n. */
  lemma {:induction false} Predecessors(bcd: bool, v: Count, n: nat)
    requires 1 <= n <= 3
    ensures Number(bcd, v) >= 1
    ensures Number(bcd, DecrementBy(bcd, v, n)) == Back(bcd, Number(bcd, v), n)
    ensures VisibleCount(DecrementBy(bcd, v, n)) == 0 <==> Number(bcd, v) == n
    decreases n
  {
    hide Number, DecrementValue;
    Predecessor(bcd, v);
    if n > 1 {
      Predecessors(bcd, DecrementValue(bcd, v), n - 1);
    } else {
      assert DecrementBy(bcd, v, 1) == DecrementBy(bcd, DecrementValue(bcd, v), 0);
    }
  }

  /** A count register and what a reload makes of it. */
  lemma ReloadFacts(bcd: bool, r: Word)
    ensures Number(bcd, ReloadValue(r)) == Number(bcd, r) >= 1
    ensures Number(bcd, r) == 1 <==> r == 1
    ensures Number(bcd, r) % 2 == r % 2
  {
    NumberFacts(bcd, r);
  }

  lemma DropLowBitFacts(bcd: bool, r: Word)
    requires r % 2 == 1
    ensures Number(bcd, DropLowBit(r)) == if r == 1 then Modulus(bcd) else Number(bcd, r) - 1
  {
    hide Decimal;
    OddDecimal(r);
  }

  lemma OddDecimal(r: Word)
    requires r % 2 == 1
    ensures Decimal(r - 1) == Decimal(r) - 1
  {
    var a, b, c, d := r % 0x10, (r / 0x10) % 0x10, (r / 0x100) % 0x10, r / 0x1000;
    Split(r);
    LowDigitOdd(r);
    Digits(a - 1, b, c, d);
    assert r - 1 == (a - 1) + 0x10 * b + 0x100 * c + 0x1000 * d;
  }

  lemma LowDigitOdd(r: nat)
    requires r % 2 == 1
    ensures r % 0x10 >= 1
  {
    var q := r / 0x10;
    assert r == 0x10 * q + r % 0x10;
    TwiceIsEven(8 * q);
  }

  lemma TwiceIsEven(x: nat)
    ensures (2 * x) % 2 == 0
  {
  }
}
