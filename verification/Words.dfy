/** Numbers as big-endian bytes, bit by bit. */
module Words {

  predicate Odd(n: nat) {
    n % 2 == 1
  }

  function FromBits(b7: bool, b6: bool, b5: bool, b4: bool, b3: bool, b2: bool, b1: bool, b0: bool): bv8 {
    (if b7 then 0x80 else 0) | (if b6 then 0x40 else 0) | (if b5 then 0x20 else 0) | (if b4 then 0x10 else 0)
    | (if b3 then 0x08 else 0) | (if b2 then 0x04 else 0) | (if b1 then 0x02 else 0) | (if b0 then 0x01 else 0)
  }

  /** The lowest eight bits of a number. */
  function Byte(n: nat): bv8 {
    FromBits(Odd(n / 128), Odd(n / 64), Odd(n / 32), Odd(n / 16), Odd(n / 8), Odd(n / 4), Odd(n / 2), Odd(n))
  }

  function Digit(b: bv8, mask: bv8): nat {
    if b & mask != 0 then 1 else 0
  }

  function ByteNum(b: bv8): nat {
    128 * Digit(b, 0x80) + 64 * Digit(b, 0x40) + 32 * Digit(b, 0x20) + 16 * Digit(b, 0x10)
    + 8 * Digit(b, 0x08) + 4 * Digit(b, 0x04) + 2 * Digit(b, 0x02) + Digit(b, 0x01)
  }

  lemma HighBits(b7: bool, b6: bool, b5: bool, b4: bool, b3: bool, b2: bool, b1: bool, b0: bool)
    ensures
      var b := FromBits(b7, b6, b5, b4, b3, b2, b1, b0);
      && (b & 0x80 != 0 <==> b7) && (b & 0x40 != 0 <==> b6) && (b & 0x20 != 0 <==> b5) && (b & 0x10 != 0 <==> b4)
  {
  }

  lemma LowBits(b7: bool, b6: bool, b5: bool, b4: bool, b3: bool, b2: bool, b1: bool, b0: bool)
    ensures
      var b := FromBits(b7, b6, b5, b4, b3, b2, b1, b0);
      && (b & 0x08 != 0 <==> b3) && (b & 0x04 != 0 <==> b2) && (b & 0x02 != 0 <==> b1) && (b & 0x01 != 0 <==> b0)
  {
  }

  function BitOf(n: nat): nat {
    if Odd(n) then 1 else 0
  }

  lemma Bit2(n: nat)
    ensures n % 4 == 2 * BitOf(n / 2) + n % 2
  {
    var q, r := n / 2, n % 2;
    assert n == 4 * (q / 2) + (2 * BitOf(q) + r);
  }

  lemma Bit4(n: nat)
    ensures n % 8 == 4 * BitOf(n / 4) + n % 4
  {
    var q, r := n / 4, n % 4;
    assert n == 8 * (q / 2) + (4 * BitOf(q) + r);
  }

  lemma Bit8(n: nat)
    ensures n % 16 == 8 * BitOf(n / 8) + n % 8
  {
    var q, r := n / 8, n % 8;
    assert n == 16 * (q / 2) + (8 * BitOf(q) + r);
  }

  lemma Bit16(n: nat)
    ensures n % 32 == 16 * BitOf(n / 16) + n % 16
  {
    var q, r := n / 16, n % 16;
    assert n == 32 * (q / 2) + (16 * BitOf(q) + r);
  }

  lemma Bit32(n: nat)
    ensures n % 64 == 32 * BitOf(n / 32) + n % 32
  {
    var q, r := n / 32, n % 32;
    assert n == 64 * (q / 2) + (32 * BitOf(q) + r);
  }

  lemma Bit64(n: nat)
    ensures n % 128 == 64 * BitOf(n / 64) + n % 64
  {
    var q, r := n / 64, n % 64;
    assert n == 128 * (q / 2) + (64 * BitOf(q) + r);
  }

  lemma Bit128(n: nat)
    ensures n % 256 == 128 * BitOf(n / 128) + n % 128
  {
    var q, r := n / 128, n % 128;
    assert n == 256 * (q / 2) + (128 * BitOf(q) + r);
  }

  lemma BitSum(n: nat)
    ensures n % 256 == 128 * BitOf(n / 128) + 64 * BitOf(n / 64) + 32 * BitOf(n / 32) + 16 * BitOf(n / 16)
                       + 8 * BitOf(n / 8) + 4 * BitOf(n / 4) + 2 * BitOf(n / 2) + BitOf(n)
  {
    Bit2(n);
    Bit4(n);
    Bit8(n);
    Bit16(n);
    Bit32(n);
    Bit64(n);
    Bit128(n);
  }

  lemma DigitsAreBits(b: bv8, n: nat)
    requires b == Byte(n)
    ensures Digit(b, 0x80) == BitOf(n / 128) && Digit(b, 0x40) == BitOf(n / 64) && Digit(b, 0x20) == BitOf(n / 32)
    ensures Digit(b, 0x10) == BitOf(n / 16) && Digit(b, 0x08) == BitOf(n / 8) && Digit(b, 0x04) == BitOf(n / 4)
    ensures Digit(b, 0x02) == BitOf(n / 2) && Digit(b, 0x01) == BitOf(n)
  {
    HighBits(Odd(n / 128), Odd(n / 64), Odd(n / 32), Odd(n / 16), Odd(n / 8), Odd(n / 4), Odd(n / 2), Odd(n));
    LowBits(Odd(n / 128), Odd(n / 64), Odd(n / 32), Odd(n / 16), Odd(n / 8), Odd(n / 4), Odd(n / 2), Odd(n));
  }

  lemma ByteValue(n: nat)
    ensures ByteNum(Byte(n)) == n % 256
  {
    BitSum(n);
    DigitsAreBits(Byte(n), n);
  }

  /** Four bytes, highest first. */
  function U32(n: nat): (b: seq<bv8>)
    ensures |b| == 4
  {
    [Byte(n / 0x1000000), Byte(n / 0x10000), Byte(n / 0x100), Byte(n)]
  }

  function U32Value(b: seq<bv8>): nat
    requires |b| == 4
  {
    0x1000000 * ByteNum(b[0]) + 0x10000 * ByteNum(b[1]) + 0x100 * ByteNum(b[2]) + ByteNum(b[3])
  }

  /** The four bytes read as a number are that number, below 2^32. */
  lemma U32ReadBack(n: nat)
    requires n < 0x1_0000_0000
    ensures U32Value(U32(n)) == n
  {
    ByteValue(n / 0x1000000);
    ByteValue(n / 0x10000);
    ByteValue(n / 0x100);
    ByteValue(n);
    Digits(n);
  }

  lemma Digits(n: nat)
    requires n < 0x1_0000_0000
    ensures
      n == 0x1000000 * (n / 0x1000000 % 256) + 0x10000 * (n / 0x10000 % 256) + 0x100 * (n / 0x100 % 256) + n % 256
  {
    assert n / 0x10000 == n / 0x100 / 0x100;
    assert n / 0x1000000 == n / 0x10000 / 0x100;
  }
}
