/**
  Bytes of a BLE notification payload (`array.array('B', data)` in the
  library: unsigned 8-bit values), Python's bitwise `&` on non-negative
  integers, and the big-endian combinations the decoder uses.
 */
module Bytes {

  type Byte = b: int | 0 <= b < 256

  /** One notification payload. */
  type Frame = seq<Byte>

  /** Python's `a & b` on non-negative integers, one bit at a time from the
      least significant end. */
  function And(a: nat, b: nat): (r: nat)
    ensures r <= a && r <= b
    decreases a
  {
    if a == 0 || b == 0 then 0
    else 2 * And(a / 2, b / 2) + (if a % 2 == 1 && b % 2 == 1 then 1 else 0)
  }

  /** An even mask shifts one position down the other operand. */
  lemma AndEven(a: nat, m: nat)
    ensures And(a, 2 * m) == 2 * And(a / 2, m)
  {
    if a != 0 && m != 0 {
      assert (2 * m) / 2 == m;
    }
  }

  /** An odd mask keeps the lowest bit of the other operand. */
  lemma AndOdd(a: nat, m: nat)
    ensures And(a, 2 * m + 1) == 2 * And(a / 2, m) + a % 2
  {
    if a != 0 {
      assert (2 * m + 1) / 2 == m;
    }
  }

  /** Mask 1 keeps the lowest bit. */
  lemma AndOne(a: nat)
    ensures And(a, 1) == a % 2
  {
    AndOdd(a, 0);
  }

  /** Mask 3 keeps the two lowest bits. */
  lemma AndThree(a: nat)
    ensures And(a, 3) == a % 4
  {
    AndOdd(a, 1);
    AndOne(a / 2);
  }

  /** The three lowest bits are the lowest bit plus twice the next two. */
  lemma ModEightSplits(a: nat)
    ensures a % 8 == 2 * ((a / 2) % 4) + a % 2
  {
    var q, r := a / 8, a % 8;
    assert a == 8 * q + r;
    assert a / 2 == 4 * q + r / 2;
    assert a % 2 == r % 2;
  }

  /** Mask 7 keeps the three lowest bits. */
  lemma AndSeven(a: nat)
    ensures And(a, 7) == a % 8
  {
    AndOdd(a, 3);
    AndThree(a / 2);
    ModEightSplits(a);
  }

  /** Mask 2 tests bit 1. */
  lemma AndTwo(a: nat)
    ensures And(a, 2) == 2 * ((a / 2) % 2)
  {
    AndEven(a, 1);
    AndOne(a / 2);
  }

  /** Mask 8 tests bit 3. */
  lemma AndEight(a: nat)
    ensures And(a, 8) == 8 * ((a / 8) % 2)
  {
    AndEven(a, 4);
    AndEven(a / 2, 2);
    AndTwo(a / 4);
    assert a / 2 / 2 == a / 4;
    assert a / 4 / 2 == a / 8;
  }

  /** Mask 16 tests bit 4. */
  lemma AndSixteen(a: nat)
    ensures And(a, 16) == 16 * ((a / 16) % 2)
  {
    AndEven(a, 8);
    AndEight(a / 2);
    assert a / 2 / 8 == a / 16;
  }

  /** The two-bit and three-bit masks 6 and 14 select a field starting at bit 1. */
  lemma AndFieldMasks(a: nat)
    ensures And(a, 6) == 2 * ((a / 2) % 4)
    ensures And(a, 14) == 2 * ((a / 2) % 8)
  {
    AndEven(a, 3);
    AndEven(a, 7);
    AndThree(a / 2);
    AndSeven(a / 2);
  }

  /** Two bytes as a big-endian 16-bit unsigned integer. */
  function BE16(hi: Byte, lo: Byte): (r: nat)
    ensures r < 0x1_0000
  {
    hi * 256 + lo
  }

  /** Three bytes as a big-endian 24-bit unsigned integer. */
  function BE24(b2: Byte, b1: Byte, b0: Byte): (r: nat)
    ensures r < 0x100_0000
  {
    b2 * 65536 + b1 * 256 + b0
  }

  /** Division by 256 undoes a multiply-and-add of a byte. */
  lemma DivMod256(q: nat, r: nat)
    requires r < 256
    ensures (q * 256 + r) / 256 == q && (q * 256 + r) % 256 == r
  {
  }

  /** Division by 65536 undoes a multiply-and-add of a 16-bit remainder. */
  lemma DivMod65536(q: nat, r: nat)
    requires r < 65536
    ensures (q * 65536 + r) / 65536 == q && (q * 65536 + r) % 65536 == r
  {
  }

  /** The 16-bit combination splits back into its two bytes. */
  lemma BE16Splits(hi: Byte, lo: Byte)
    ensures BE16(hi, lo) / 256 == hi && BE16(hi, lo) % 256 == lo
  {
    DivMod256(hi, lo);
  }

  /** The 24-bit combination splits back into its three bytes. */
  lemma BE24Splits(b2: Byte, b1: Byte, b0: Byte)
    ensures BE24(b2, b1, b0) / 65536 == b2
    ensures (BE24(b2, b1, b0) / 256) % 256 == b1
    ensures BE24(b2, b1, b0) % 256 == b0
  {
    DivMod65536(b2, b1 * 256 + b0);
    DivMod256(b2 * 256 + b1, b0);
    DivMod256(b2, b1);
  }
}
