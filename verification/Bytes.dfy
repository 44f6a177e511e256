/** The byte level of lintree.h and lintree.cc: machine words laid out little-endian, as `memcpy`
    copies them, and big integers as big-endian base-256 digits, as `mpz_export` writes them. */
module Bytes {

  type Byte = x: int | 0 <= x < 0x100
  type Int32 = x: int | -0x8000_0000 <= x < 0x8000_0000
  type Int64 = x: int | -0x8000_0000_0000_0000 <= x < 0x8000_0000_0000_0000
  type Size = x: int | 0 <= x < 0x1_0000_0000_0000_0000

  /** Any text of the source: bytes without the terminating NUL. */
  type Text = seq<Byte>

  // ------------------------------------------------------------------------ little-endian words

  /** How many values `n` bytes can hold. */
  function Span(n: nat): nat { if n == 0 then 1 else 0x100 * Span(n - 1) }

  function Digits(x: nat, n: nat): (b: seq<Byte>)
    ensures |b| == n
  {
    if n == 0 then [] else [x % 0x100] + Digits(x / 0x100, n - 1)
  }

  function Number(b: seq<Byte>): (x: nat)
    ensures x < Span(|b|)
  {
    if b == [] then 0 else b[0] + 0x100 * Number(b[1..])
  }

  lemma {:induction false} NumberOfDigits(x: nat, n: nat)
    requires x < Span(n)
    ensures Number(Digits(x, n)) == x
  {
    if n > 0 {
      NumberOfDigits(x / 0x100, n - 1);
    }
  }

  lemma {:induction false} DigitsOfNumber(b: seq<Byte>)
    ensures Digits(Number(b), |b|) == b
  {
    if b != [] {
      DigitsOfNumber(b[1..]);
      assert Number(b) / 0x100 == Number(b[1..]);
    }
  }

  lemma Spans()
    ensures Span(4) == 0x1_0000_0000 && Span(8) == 0x1_0000_0000_0000_0000
  {
    assert Span(3) == 0x100_0000;
    assert Span(7) == 0x100_0000_0000_0000 by {
      assert Span(6) == 0x1_0000_0000_0000;
      assert Span(5) == 0x100_0000_0000;
    }
  }

  /** The two's complement pattern of `x` in `span` values, and back. */
  function Wrap(x: int, span: nat): nat
    requires span > 0
  {
    x % span
  }

  function Signed(u: int, span: nat): int { if 2 * u >= span then u - span else u }

  function IntBytes(x: Int32): (b: seq<Byte>)
    ensures |b| == 4
  {
    Digits(Wrap(x, 0x1_0000_0000), 4)
  }

  function IntOf(b: seq<Byte>): Int32
    requires |b| == 4
  {
    Spans();
    Signed(Number(b), 0x1_0000_0000)
  }

  function LongBytes(x: Int64): (b: seq<Byte>)
    ensures |b| == 8
  {
    Digits(Wrap(x, 0x1_0000_0000_0000_0000), 8)
  }

  function LongOf(b: seq<Byte>): Int64
    requires |b| == 8
  {
    Spans();
    Signed(Number(b), 0x1_0000_0000_0000_0000)
  }

  function SizeBytes(x: Size): (b: seq<Byte>)
    ensures |b| == 8
  {
    Digits(x, 8)
  }

  function SizeOf(b: seq<Byte>): Size
    requires |b| == 8
  {
    Spans();
    Number(b)
  }

  lemma IntRoundTrip(x: Int32)
    ensures IntOf(IntBytes(x)) == x
  {
    Spans();
    NumberOfDigits(Wrap(x, 0x1_0000_0000), 4);
  }

  lemma LongRoundTrip(x: Int64)
    ensures LongOf(LongBytes(x)) == x
  {
    Spans();
    NumberOfDigits(Wrap(x, 0x1_0000_0000_0000_0000), 8);
  }

  lemma SizeRoundTrip(x: Size)
    ensures SizeOf(SizeBytes(x)) == x
  {
    Spans();
    NumberOfDigits(x, 8);
  }

  // ------------------------------------------------------------------------------ big integers

  function Abs(z: int): nat { if z < 0 then -z else z }

  /** `mpz_export` of a magnitude: big-endian, without leading zeros, so zero has no digits. */
  function BigDigits(x: nat): seq<Byte> {
    if x == 0 then [] else BigDigits(x / 0x100) + [x % 0x100]
  }

  /** `mpz_import`. */
  function BigNumber(b: seq<Byte>): nat {
    if b == [] then 0 else 0x100 * BigNumber(b[..|b| - 1]) + b[|b| - 1]
  }

  /** `mpz_sizeinbase(x, 2)`, which is 1 for zero. */
  function Bits(x: nat): nat { if x < 2 then 1 else 1 + Bits(x / 2) }

  lemma {:induction false} BigRoundTrip(x: nat)
    ensures BigNumber(BigDigits(x)) == x
  {
    if x > 0 {
      BigRoundTrip(x / 0x100);
      assert BigDigits(x)[..|BigDigits(x)| - 1] == BigDigits(x / 0x100);
    }
  }

  lemma BitsOfByte(x: nat)
    requires x >= 0x100
    ensures Bits(x) == 8 + Bits(x / 0x100)
  {
    var y := x / 0x10;
    assert Bits(x) == 4 + Bits(y) by {
      assert x / 2 / 2 / 2 / 2 == y;
      assert Bits(x / 2) == 1 + Bits(x / 2 / 2);
      assert Bits(x / 2 / 2) == 1 + Bits(x / 2 / 2 / 2);
    }
    assert y / 2 / 2 / 2 / 2 == x / 0x100;
    assert Bits(y / 2) == 1 + Bits(y / 2 / 2);
    assert Bits(y / 2 / 2) == 1 + Bits(y / 2 / 2 / 2);
  }

  lemma SmallBits(x: nat)
    requires x < 0x100
    ensures 1 <= Bits(x) <= 8
  {
    assert x / 2 / 2 / 2 / 2 / 2 / 2 / 2 < 2;
    assert Bits(x / 2 / 2 / 2 / 2 / 2 / 2) <= 2;
    assert Bits(x / 2 / 2 / 2 / 2) <= 4;
    assert Bits(x / 2 / 2) <= 6;
  }

  /** The buffer `encode_mpz` reserves is exactly as long as the digits of every positive number,
      and one byte too long for zero. */
  lemma {:induction false} BufferEstimate(x: nat)
    ensures (Bits(x) + 7) / 8 == if x == 0 then 1 else |BigDigits(x)|
  {
    if x < 0x100 {
      SmallBits(x);
      assert x > 0 ==> BigDigits(x / 0x100) == [];
    } else {
      BitsOfByte(x);
      BufferEstimate(x / 0x100);
    }
  }

  // -------------------------------------------------------------------------------- C strings

  /** What a reader that stops at the first NUL sees. */
  function UpToNul(b: seq<Byte>): seq<Byte> {
    if b == [] || b[0] == 0 then [] else [b[0]] + UpToNul(b[1..])
  }

  lemma {:induction false} NoNulInside(s: seq<Byte>, rest: seq<Byte>)
    requires 0 !in s && (rest == [] || rest[0] == 0)
    ensures UpToNul(s + rest) == s
  {
    if s == [] {
      assert s + rest == rest;
    } else {
      NoNulInside(s[1..], rest);
      assert (s + rest)[1..] == s[1..] + rest;
    }
  }
}
