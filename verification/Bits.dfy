/** Bitwise operators on natural numbers, digit by digit, and the arithmetic they stand for
    when one operand is a power of two. Identifier packing and block alignment both rest on these. */
module Bits {

  function Pow2(k: nat): (p: nat)
    ensures p > 0
  {
    if k == 0 then 1 else 2 * Pow2(k - 1)
  }

  /** The remainder, by repeated subtraction: it keeps the proofs below free of nonlinear division. */
  function Mod(x: nat, m: nat): (r: nat)
    requires m > 0
    ensures r < m && r <= x
  {
    if x < m then x else Mod(x - m, m)
  }

  function And(x: nat, y: nat): (r: nat)
    decreases x
  {
    if x == 0 || y == 0 then 0 else (if x % 2 == 1 && y % 2 == 1 then 1 else 0) + 2 * And(x / 2, y / 2)
  }

  function Or(x: nat, y: nat): (r: nat)
    decreases x
  {
    if x == 0 then y
    else if y == 0 then x
    else (if x % 2 == 1 || y % 2 == 1 then 1 else 0) + 2 * Or(x / 2, y / 2)
  }

  function ShiftLeft(x: nat, k: nat): (r: nat) {
    if k == 0 then x else 2 * ShiftLeft(x, k - 1)
  }

  function ShiftRight(x: nat, k: nat): (r: nat) {
    if k == 0 then x else ShiftRight(x / 2, k - 1)
  }

  lemma {:induction false} Pow2Monotone(j: nat, k: nat)
    requires j <= k
    ensures Pow2(j) <= Pow2(k)
  {
    if j < k { Pow2Monotone(j, k - 1); }
  }

  lemma Pow2Constants()
    ensures Pow2(1) == 2 && Pow2(15) == 0x8000 && Pow2(16) == 0x1_0000 && Pow2(31) == 0x8000_0000 && Pow2(32) == 0x1_0000_0000
  {
    assert Pow2(4) == 0x10;
    assert ShiftLeft(0x10, 4) == 0x100 && ShiftLeft(0x100, 4) == 0x1000 && ShiftLeft(0x1000, 3) == 0x8000;
    Pow2AsShift(4, 4);
    Pow2AsShift(8, 4);
    Pow2AsShift(12, 3);
    assert ShiftLeft(0x1_0000, 4) == 0x10_0000 && ShiftLeft(0x10_0000, 4) == 0x100_0000;
    assert ShiftLeft(0x100_0000, 4) == 0x1000_0000 && ShiftLeft(0x1000_0000, 4) == 0x1_0000_0000;
    Pow2AsShift(16, 4);
    Pow2AsShift(20, 4);
    Pow2AsShift(24, 4);
    Pow2AsShift(28, 4);
  }

  lemma {:induction false} Pow2AsShift(j: nat, k: nat)
    ensures ShiftLeft(Pow2(j), k) == Pow2(j + k)
  {
    if k > 0 { Pow2AsShift(j, k - 1); }
  }

  /** Adding a power-of-two multiple of the modulus leaves the remainder alone. */
  lemma {:induction false} ModShiftedMultiple(x: nat, m: nat, k: nat)
    requires m > 0
    ensures Mod(x + ShiftLeft(m, k), m) == Mod(x, m)
    decreases k
  {
    if k > 0 {
      var half := ShiftLeft(m, k - 1);
      ModShiftedMultiple(x, m, k - 1);
      ModShiftedMultiple(x + half, m, k - 1);
      assert x + half + half == x + ShiftLeft(m, k);
    }
  }

  lemma {:induction false} ModDouble(x: nat, m: nat)
    requires m > 0
    ensures Mod(x, 2 * m) == x % 2 + 2 * Mod(x / 2, m)
  {
    if x >= 2 * m {
      assert (x - 2 * m) / 2 == x / 2 - m && (x - 2 * m) % 2 == x % 2;
      ModDouble(x - 2 * m, m);
    }
  }

  /** Two numbers less than a modulus apart have different remainders. */
  lemma {:induction false} ModDistinct(x: nat, d: nat, m: nat)
    requires 0 < d < m
    ensures Mod(x, m) != Mod(x + d, m)
  {
    if x >= m { ModDistinct(x - m, d, m); }
  }

  /** Every remainder is met within one modulus of any start. */
  lemma {:induction false} ModReaches(x: nat, r: nat, m: nat) returns (d: nat)
    requires r < m
    ensures d < m && Mod(x + d, m) == r
  {
    if x >= m {
      d := ModReaches(x - m, r, m);
    } else {
      d := if r >= x then r - x else r + m - x;
    }
  }

  /** One digit of a masking. */
  lemma AndStep(x: nat, y: nat, b: nat, y': nat)
    requires x > 0 && b < 2 && y == 2 * y' + b
    ensures And(x, y) == (if b == 1 then x % 2 else 0) + 2 * And(x / 2, y')
  {
    assert y % 2 == b && y / 2 == y';
    if y == 0 { assert And(x / 2, 0) == 0; }
  }

  /** Masking with 2^k - 1 keeps the remainder. */
  lemma {:induction false} AndLowMask(x: nat, k: nat)
    ensures And(x, Pow2(k) - 1) == Mod(x, Pow2(k))
  {
    if k == 0 {
      ModOne(x);
    } else if x > 0 {
      var m := Pow2(k - 1);
      AndLowMask(x / 2, k - 1);
      ModDouble(x, m);
      AndStep(x, 2 * m - 1, 1, m - 1);
    }
  }

  lemma ModOne(x: nat)
    ensures Mod(x, 1) == 0
  {
  }

  /** Masking a w-bit number with the complement of 2^k - 1 rounds down to a multiple of 2^k. */
  lemma {:induction false} AndHighMask(x: nat, k: nat, w: nat)
    requires k <= w && x < Pow2(w)
    ensures Pow2(k) <= Pow2(w)
    ensures And(x, Pow2(w) - Pow2(k)) == x - Mod(x, Pow2(k))
  {
    Pow2Monotone(k, w);
    if k == 0 {
      AndLowMask(x, w);
      ModOne(x);
    } else if x > 0 {
      AndHighMask(x / 2, k - 1, w - 1);
      AndHighStep(x, Pow2(k - 1), Pow2(w - 1));
    }
  }

  lemma {:induction false} AndHighStep(x: nat, m: nat, n: nat)
    requires x > 0 && 0 < m <= n && And(x / 2, n - m) == x / 2 - Mod(x / 2, m)
    ensures And(x, 2 * n - 2 * m) == x - Mod(x, 2 * m)
  {
    ModDouble(x, m);
    AndStep(x, 2 * n - 2 * m, 0, n - m);
  }

  /** A number shifted left by k bits and a k-bit number do not overlap: their union is their sum. */
  lemma {:induction false} OrDisjoint(h: nat, l: nat, k: nat)
    requires l < Pow2(k)
    ensures Or(ShiftLeft(h, k), l) == ShiftLeft(h, k) + l
  {
    if k > 0 && l > 0 && h > 0 {
      var y := ShiftLeft(h, k - 1);
      OrDisjoint(h, l / 2, k - 1);
      ShiftLeftBound(h, h, k);
      assert (2 * y) % 2 == 0 && (2 * y) / 2 == y;
    } else if h == 0 {
      ShiftLeftZero(k);
    }
  }

  lemma {:induction false} ShiftLeftZero(k: nat)
    ensures ShiftLeft(0, k) == 0
  {
    if k > 0 { ShiftLeftZero(k - 1); }
  }

  /** The low half of a packed pair. */
  lemma {:induction false} ModPacked(h: nat, l: nat, k: nat)
    requires l < Pow2(k)
    ensures Mod(ShiftLeft(h, k) + l, Pow2(k)) == l
  {
    if k == 0 {
      ModOne(h);
    } else {
      var y := ShiftLeft(h, k - 1);
      ModPacked(h, l / 2, k - 1);
      ModDouble(2 * y + l, Pow2(k - 1));
      assert (2 * y + l) / 2 == y + l / 2 && (2 * y + l) % 2 == l % 2;
    }
  }

  /** The high half of a packed pair. */
  lemma {:induction false} ShiftPacked(h: nat, l: nat, k: nat)
    requires l < Pow2(k)
    ensures ShiftRight(ShiftLeft(h, k) + l, k) == h
  {
    if k > 0 {
      var y := ShiftLeft(h, k - 1);
      ShiftPacked(h, l / 2, k - 1);
      assert (2 * y + l) / 2 == y + l / 2;
    }
  }

  lemma {:induction false} ShiftLeftBound(h: nat, b: nat, k: nat)
    requires h <= b
    ensures h <= ShiftLeft(h, k) <= ShiftLeft(b, k)
  {
    if k > 0 { ShiftLeftBound(h, b, k - 1); }
  }

  lemma {:induction false} ShiftLeftSuccessor(h: nat, k: nat)
    ensures ShiftLeft(h, k) + Pow2(k) == ShiftLeft(h + 1, k)
  {
    if k > 0 { ShiftLeftSuccessor(h, k - 1); }
  }

  ghost predicate IsPow2(v: nat) {
    exists k: nat :: v == Pow2(k)
  }

  lemma {:induction false} AndSelf(x: nat)
    ensures And(x, x) == x
  {
    if x > 0 { AndSelf(x / 2); }
  }

  /** The `v & (v - 1)` test accepts exactly the powers of two. */
  lemma {:induction false} PowerTest(v: nat)
    requires v > 0
    ensures And(v, v - 1) == 0 <==> IsPow2(v)
  {
    if v == 1 {
      assert v == Pow2(0);
    } else if v % 2 == 1 {
      assert (v - 1) % 2 == 0 && (v - 1) / 2 == v / 2;
      AndSelf(v / 2);
      forall k: nat ensures v != Pow2(k) { }
    } else {
      var h := v / 2;
      assert (v - 1) % 2 == 1 && (v - 1) / 2 == h - 1;
      PowerTest(h);
      if IsPow2(h) { var k: nat :| h == Pow2(k); assert v == Pow2(k + 1); }
      if IsPow2(v) { var k: nat :| v == Pow2(k); assert k > 0; assert h == Pow2(k - 1); }
    }
  }
}
