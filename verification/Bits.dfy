/** Bitwise operations on natural numbers, bit by bit, and the arithmetic they come to. */
module Bits {
  import opened Arithmetic

  /** x & y */
  function And(x: nat, y: nat): nat {
    if x == 0 || y == 0 then 0 else And(x / 2, y / 2) * 2 + if x % 2 == 1 && y % 2 == 1 then 1 else 0
  }

  /** x | y */
  function Or(x: nat, y: nat): nat
    decreases x + y
  {
    if x == 0 && y == 0 then 0 else Or(x / 2, y / 2) * 2 + if x % 2 == 1 || y % 2 == 1 then 1 else 0
  }

  /** x ^ y */
  function Xor(x: nat, y: nat): nat
    decreases x + y
  {
    if x == 0 && y == 0 then 0 else Xor(x / 2, y / 2) * 2 + if x % 2 != y % 2 then 1 else 0
  }

  /** x << 1, n times, in 32 bits. */
  function Shifted32(x: nat, n: nat): nat {
    if n == 0 then x % 0x1_0000_0000 else (Shifted32(x, n - 1) * 2) % 0x1_0000_0000
  }

  /** (x << n) >>> 0 on 32-bit numbers: only the low five bits of n count. */
  function ShiftLeft32(x: nat, n: nat): nat { Shifted32(x, n % 32) }

  /** Halving a remainder by a power of two. */
  lemma HalveRemainder(x: nat, s: nat)
    requires s >= 1
    ensures Power(2, s - 1) >= 1 && x % Power(2, s) == (x / 2) % Power(2, s - 1) * 2 + x % 2
  {
    var p := Power(2, s - 1);
    PowerIsPositive(2, s - 1);
    var q, r := (x / 2) / p, (x / 2) % p;
    assert x == (q * p + r) * 2 + x % 2;
    DivisionIsUnique(x, 2 * p, q, r * 2 + x % 2);
  }

  /** x & (2^s - 1) keeps the low s bits. */
  lemma {:induction false} AndLow(x: nat, s: nat)
    ensures Power(2, s) >= 1 && And(x, Power(2, s) - 1) == x % Power(2, s)
  {
    PowerIsPositive(2, s);
    if s > 0 {
      HalveRemainder(x, s);
      AndLow(x / 2, s - 1);
    }
  }

  lemma AndEven(x: nat, m: nat)
    ensures And(x, m * 2) == And(x / 2, m) * 2
  {
    var y := m * 2;
    assert y / 2 == m && y % 2 == 0;
    assert And(x, y) == if x == 0 || y == 0 then 0 else And(x / 2, m) * 2;
  }

  /** x & (2^w - 2^s) clears the low s bits of a number of w bits. */
  lemma {:induction false} AndHigh(x: nat, w: nat, s: nat)
    requires s <= w && x < Power(2, w)
    ensures 1 <= Power(2, s) <= Power(2, w) && And(x, Power(2, w) - Power(2, s)) == x - x % Power(2, s)
  {
    PowerIsPositive(2, s);
    if w == 0 {
      assert x == 0;
    } else if s == 0 {
      AndLow(x, w);
      DivisionIsUnique(x, Power(2, w), 0, x);
    } else {
      HalveRemainder(x, s);
      AndHigh(x / 2, w - 1, s - 1);
      AndEven(x, Power(2, w - 1) - Power(2, s - 1));
    }
  }

  /** Or of numbers that share no bits because the second is below 2^s and the first a multiple of it. */
  lemma {:induction false} OrOfDisjoint(x: nat, y: nat, s: nat)
    requires y < Power(2, s)
    ensures Or(x * Power(2, s), y) == x * Power(2, s) + y
  {
    if s == 0 {
      OrZero(x);
    } else {
      TwiceAsMuch(x, s);
      OrOfDisjoint(x, y / 2, s - 1);
    }
  }

  lemma {:induction false} OrZero(x: nat)
    ensures Or(x, 0) == x
  {
    if x > 0 { OrZero(x / 2); }
  }

  lemma {:induction false} XorFits(x: nat, y: nat, w: nat)
    requires x < Power(2, w) && y < Power(2, w)
    ensures Xor(x, y) < Power(2, w)
  {
    if w > 0 { XorFits(x / 2, y / 2, w - 1); }
  }

  /** Either operand can be had back from the result and the other one. */
  lemma {:induction false} XorUndone(x: nat, y: nat)
    ensures Xor(Xor(x, y), y) == x && Xor(x, Xor(x, y)) == y
    decreases x + y
  {
    if x != 0 || y != 0 { XorUndone(x / 2, y / 2); }
  }

  lemma PowersUpTo32(n: nat)
    requires n <= 32
    ensures 1 <= Power(2, n) <= 0x1_0000_0000
  {
    PowersOfTwo();
    PowersGrow(2, n, 32);
  }

  lemma {:induction false} ShiftedOnes(n: nat)
    requires n <= 32
    ensures 1 <= Power(2, n) <= 0x1_0000_0000 && Shifted32(0xffff_ffff, n) == 0x1_0000_0000 - Power(2, n)
  {
    PowersUpTo32(n);
    if n > 0 {
      ShiftedOnes(n - 1);
      DivisionIsUnique((0x1_0000_0000 - Power(2, n - 1)) * 2, 0x1_0000_0000, 1, 0x1_0000_0000 - Power(2, n));
    }
  }

  /** A shift that pushes nothing out of the 32 bits multiplies. */
  lemma {:induction false} ShiftIsProduct(x: nat, n: nat)
    requires n <= 32 && x * Power(2, n) < 0x1_0000_0000
    ensures Shifted32(x, n) == x * Power(2, n)
  {
    if n > 0 {
      TwiceAsMuch(x, n);
      ShiftIsProduct(x, n - 1);
    }
    Fits(x * Power(2, n));
  }

  lemma Fits(x: nat)
    requires x < 0x1_0000_0000
    ensures x % 0x1_0000_0000 == x
  {}

  lemma TwiceAsMuch(x: nat, n: nat)
    requires n >= 1
    ensures x * Power(2, n) == (x * Power(2, n - 1)) * 2
  {}

  lemma PowersOfTwo()
    ensures Power(2, 8) == 256 && Power(2, 16) == 0x1_0000 && Power(2, 32) == 0x1_0000_0000
  {
    assert Power(2, 4) == 16;
    assert Power(2, 8) == 2 * (2 * (2 * (2 * Power(2, 4))));
    assert Power(2, 12) == 2 * (2 * (2 * (2 * Power(2, 8))));
    assert Power(2, 16) == 2 * (2 * (2 * (2 * Power(2, 12))));
    assert Power(2, 20) == 2 * (2 * (2 * (2 * Power(2, 16))));
    assert Power(2, 24) == 2 * (2 * (2 * (2 * Power(2, 20))));
    assert Power(2, 28) == 2 * (2 * (2 * (2 * Power(2, 24))));
    assert Power(2, 32) == 2 * (2 * (2 * (2 * Power(2, 28))));
  }

  /** x & 0xff */
  function LowByte(x: nat): (r: nat)
    ensures r == x % 256
  {
    PowersOfTwo();
    AndLow(x, 8);
    And(x, 255)
  }

  /** x & 0xffff */
  function LowGroup(x: nat): (r: nat)
    ensures r == x % 0x1_0000
  {
    PowersOfTwo();
    AndLow(x, 16);
    And(x, 0xffff)
  }

  /** x & 0xffffffff */
  function LowWord(x: nat): (r: nat)
    ensures r == x % 0x1_0000_0000
  {
    PowersOfTwo();
    AndLow(x, 32);
    And(x, 0xffff_ffff)
  }

  /** The mask of the leading bits of an IPv4 prefix, as parseCidr4 builds it. */
  function Mask(prefix: nat): nat
    requires prefix <= 32
  {
    if prefix == 0 then 0 else ShiftLeft32(0xffff_ffff, 32 - prefix)
  }

  /** The mask of a prefix has its leading bits set and no others. */
  lemma MaskIs(prefix: nat)
    requires prefix <= 32
    ensures 1 <= Power(2, 32 - prefix) <= 0x1_0000_0000 && Mask(prefix) == 0x1_0000_0000 - Power(2, 32 - prefix)
  {
    if prefix == 0 {
      PowersOfTwo();
    } else {
      var n := 32 - prefix;
      ShiftedOnes(n);
      assert n % 32 == n;
    }
  }

  /** Masking a 32-bit value rounds it down to a multiple of the block size, also for prefix 0. */
  lemma MaskRoundsDown(v: nat, prefix: nat)
    requires prefix <= 32 && v < 0x1_0000_0000
    ensures Power(2, 32 - prefix) >= 1 && And(v, Mask(prefix)) == v - v % Power(2, 32 - prefix)
  {
    PowersOfTwo();
    MaskIs(prefix);
    AndHigh(v, 32, 32 - prefix);
  }
}
