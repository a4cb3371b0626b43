/** Bitwise operations on natural numbers, as arithmetic. */
module Bits {
  function Pow2(n: nat): (p: nat)
    ensures p >= 1
  {
    if n == 0 then 1 else 2 * Pow2(n - 1)
  }

  function Or(a: nat, b: nat): nat {
    if a == 0 && b == 0 then 0 else
      2 * Or(a / 2, b / 2) + if a % 2 == 1 || b % 2 == 1 then 1 else 0
  }

  /** Bitwise complement in a width of w bits. */
  function Not(a: nat, w: nat): nat
    requires a < Pow2(w)
  {
    Pow2(w) - 1 - a
  }

  /** The mask of a prefix of n bits in a width of w bits: n ones, then zeros. */
  function Mask(n: nat, w: nat): (m: nat)
    requires n <= w
    ensures m < Pow2(w) && Not(m, w) == Pow2(w - n) - 1
  {
    Pow2Grows(w - n, w);
    Pow2(w) - Pow2(w - n)
  }

  /** A number without its h low bits, and those bits. */
  function High(a: nat, h: nat): nat {
    if h == 0 then a else High(a / 2, h - 1)
  }

  /** A number followed by h zero bits. */
  function Shift(q: nat, h: nat): nat {
    if h == 0 then q else 2 * Shift(q, h - 1)
  }

  function Low(a: nat, h: nat): (l: nat)
    ensures l < Pow2(h)
  {
    if h == 0 then 0 else 2 * Low(a / 2, h - 1) + a % 2
  }

  lemma {:induction false} Pow2Grows(a: nat, b: nat)
    requires a <= b
    ensures Pow2(a) <= Pow2(b)
  {
    if a < b { Pow2Grows(a, b - 1); }
  }

  lemma {:induction false} Pow2Adds(a: nat, b: nat)
    ensures Pow2(a + b) == Pow2(a) * Pow2(b)
  {
    if a > 0 { Pow2Adds(a - 1, b); }
  }

  lemma Powers()
    ensures Pow2(8) == 0x100 && Pow2(16) == 0x1_0000 && Pow2(17) == 0x2_0000
    ensures Pow2(20) == 0x10_0000 && Pow2(22) == 0x40_0000 && Pow2(24) == 0x100_0000 && Pow2(28) == 0x1000_0000
    ensures Pow2(32) == 0x1_0000_0000
  {
    assert Pow2(4) == 0x10;
    Pow2Adds(4, 4);
    Pow2Adds(8, 8);
    Pow2Adds(16, 4);
    Pow2Adds(16, 8);
    Pow2Adds(20, 8);
    Pow2Adds(16, 16);
  }

  lemma Wide64()
    ensures Pow2(64) == 0x1_00000000_00000000
  {
    Powers();
    Pow2Adds(32, 32);
  }

  lemma Wide96()
    ensures Pow2(96) == 0x1_00000000_00000000_00000000
  {
    Wide64();
    Powers();
    Pow2Adds(64, 32);
  }

  lemma Wide118()
    ensures Pow2(118) == 0x40_0000_00000000_00000000_00000000
  {
    Wide96();
    Powers();
    Pow2Adds(22, 96);
  }

  lemma Wide120()
    ensures Pow2(120) == 0x100_0000_00000000_00000000_00000000
  {
    Wide96();
    Powers();
    Pow2Adds(24, 96);
  }

  lemma Wide121()
    ensures Pow2(121) == 0x200_0000_00000000_00000000_00000000
  {
    Wide120();
    Pow2Adds(1, 120);
  }

  lemma {:induction false} ShiftIsProduct(q: nat, h: nat)
    ensures Shift(q, h) == q * Pow2(h)
  {
    if h > 0 { ShiftIsProduct(q, h - 1); }
  }

  lemma {:induction false} Splits(a: nat, h: nat)
    ensures a == Shift(High(a, h), h) + Low(a, h)
  {
    if h > 0 {
      Splits(a / 2, h - 1);
    }
  }

  lemma {:induction false} Joins(q: nat, r: nat, h: nat)
    requires r < Pow2(h)
    ensures High(Shift(q, h) + r, h) == q && Low(Shift(q, h) + r, h) == r
  {
    if h > 0 {
      assert (Shift(q, h) + r) / 2 == Shift(q, h - 1) + r / 2;
      Joins(q, r / 2, h - 1);
    }
  }

  lemma {:induction false} HighTwice(a: nat, h: nat, k: nat)
    ensures High(a, h + k) == High(High(a, h), k)
  {
    if h > 0 { HighTwice(a / 2, h - 1, k); }
  }

  lemma {:induction false} HighFits(a: nat, n: nat, h: nat)
    requires a < Pow2(n + h)
    ensures High(a, h) < Pow2(n)
  {
    if h > 0 { HighFits(a / 2, n, h - 1); }
  }

  lemma {:induction false} ShiftFits(q: nat, n: nat, h: nat)
    requires q < Pow2(n)
    ensures Shift(q, h) + Pow2(h) <= Pow2(n + h)
  {
    if h > 0 { ShiftFits(q, n, h - 1); }
  }

  lemma {:induction false} OrZero(a: nat)
    ensures Or(a, 0) == a
  {
    if a > 0 { OrZero(a / 2); }
  }

  /** Filling the low bits of a number that has none set. */
  lemma {:induction false} OrLow(q: nat, h: nat)
    ensures Or(Shift(q, h), Pow2(h) - 1) == Shift(q, h) + Pow2(h) - 1
  {
    if h == 0 {
      OrZero(q);
    } else {
      var a, b := Shift(q, h - 1), Pow2(h - 1) - 1;
      assert Or(2 * a, 2 * b + 1) == 2 * Or(a, b) + 1;
      OrLow(q, h - 1);
    }
  }

  /** Or works on the high and the low bits separately. */
  lemma {:induction false} OrSplits(k: nat, a: nat, b: nat, c: nat, d: nat)
    requires b < Pow2(k) && d < Pow2(k)
    ensures Or(b, d) < Pow2(k)
    ensures Or(Shift(a, k) + b, Shift(c, k) + d) == Shift(Or(a, c), k) + Or(b, d)
  {
    if k > 0 {
      OrSplits(k - 1, a, b / 2, c, d / 2);
      OrDouble(b / 2, b % 2, d / 2, d % 2);
      OrDouble(Shift(a, k - 1) + b / 2, b % 2, Shift(c, k - 1) + d / 2, d % 2);
    }
  }

  lemma OrDouble(a: nat, i: nat, b: nat, j: nat)
    requires i < 2 && j < 2
    ensures Or(2 * a + i, 2 * b + j) == 2 * Or(a, b) + if i == 1 || j == 1 then 1 else 0
  {
  }
}
