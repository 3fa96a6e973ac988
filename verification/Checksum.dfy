/**
  CRC-32 with the IEEE polynomial, as hash/crc32 computes it (the byte-wise algorithm of section 8 of
  RFC 1952), on registers of 32 bits written least significant bit first.
*/
module Checksum {

  /** 0xEDB88320, least significant bit first. */
  const POLYNOMIAL: Register := X20 + X83 + XB8 + XED

  const X20 := [false, false, false, false, false, true, false, false]
  const X83 := [true, true, false, false, false, false, false, true]
  const XB8 := [false, false, false, true, true, true, false, true]
  const XED := [true, false, true, true, false, true, true, true]

  type Register = r: seq<bool> | |r| == 32 witness Zeros(32)

  function ToBits(n: nat, width: nat): (r: seq<bool>)
    ensures |r| == width
  {
    if width == 0 then [] else [n % 2 == 1] + ToBits(n / 2, width - 1)
  }

  function Number(bits: seq<bool>): nat
  {
    if bits == [] then 0 else Weight(bits[0], 1) + 2 * Number(bits[1..])
  }

  function Pow2(n: nat): nat { if n == 0 then 1 else 2 * Pow2(n - 1) }

  lemma {:induction false} NumberToBits(n: nat, width: nat)
    requires n < Pow2(width)
    ensures Number(ToBits(n, width)) == n
  {
    if width > 0 { NumberToBits(n / 2, width - 1); }
  }

  lemma {:induction false} NumberInjective(a: seq<bool>, b: seq<bool>)
    requires |a| == |b| && Number(a) == Number(b)
    ensures a == b
  {
    if a != [] {
      NumberInjective(a[1..], b[1..]);
      assert a == [a[0]] + a[1..] && b == [b[0]] + b[1..];
    }
  }

  function Zeros(n: nat): (r: seq<bool>)
    ensures |r| == n && forall i | 0 <= i < n :: !r[i]
  {
    if n == 0 then [] else [false] + Zeros(n - 1)
  }

  function Xor(a: seq<bool>, b: seq<bool>): (r: seq<bool>)
    requires |a| == |b|
    ensures |r| == |a| && forall i | 0 <= i < |r| :: r[i] == (a[i] != b[i])
  {
    seq(|a|, i requires 0 <= i < |a| => a[i] != b[i])
  }

  /** One division step: shift the register right, and subtract the polynomial if a one falls out. */
  function BitStep(r: Register): Register
  {
    if r[0] then Xor(r[1..] + [false], POLYNOMIAL) else r[1..] + [false]
  }

  function Steps(n: nat, r: Register): Register
  {
    if n == 0 then r else BitStep(Steps(n - 1, r))
  }

  function ByteBits(c: char): (r: seq<bool>)
    ensures |r| == 8
  {
    ToBits(c as nat, 8)
  }

  function Pad(bits: seq<bool>): Register
    requires |bits| <= 32
  {
    bits + Zeros(32 - |bits|)
  }

  /** One byte of input: `c = table[(c ^ byte) & 0xff] ^ (c >> 8)`, the table entry being eight division steps. */
  function Absorb(r: Register, c: char): Register
  {
    Steps(8, Xor(r, Pad(ByteBits(c))))
  }

  function AbsorbAll(r: Register, text: string): Register
  {
    if text == [] then r else Absorb(AbsorbAll(r, text[..|text| - 1]), text[|text| - 1])
  }

  const ONES: Register := ToBits(0xFFFFFFFF, 32)

  /** crc32.ChecksumIEEE */
  function Crc32(text: string): nat
  {
    Number(Xor(AbsorbAll(ONES, text), ONES))
  }

  // ---- the division step is linear and loses no information ----

  /** The bits of `POLYNOMIAL` are those of 0xEDB88320. */
  lemma PolynomialValue()
    ensures Number(POLYNOMIAL) == 0xEDB88320
  {
    ByteValues();
    NumberOfBytes(X20, X83, XB8, XED);
  }

  lemma ByteValues()
    ensures Number(X20) == 0x20 && Number(X83) == 0x83 && Number(XB8) == 0xB8 && Number(XED) == 0xED
  {
    ByteIs(X20, 0x20);
    ByteIs(X83, 0x83);
    ByteIs(XB8, 0xB8);
    ByteIs(XED, 0xED);
  }

  lemma {:induction false} BitsOfNumber(bits: seq<bool>)
    ensures ToBits(Number(bits), |bits|) == bits
  {
    if bits != [] {
      BitsOfNumber(bits[1..]);
      assert bits == [bits[0]] + bits[1..];
    }
  }

  lemma ByteIs(b: seq<bool>, n: nat)
    requires |b| == 8
    requires n == Weight(b[0], 1) + Weight(b[1], 2) + Weight(b[2], 4) + Weight(b[3], 8)
                  + Weight(b[4], 16) + Weight(b[5], 32) + Weight(b[6], 64) + Weight(b[7], 128)
    ensures Number(b) == n && ToBits(n, 8) == b
  {
    NumberByte(b);
    BitsOfNumber(b);
  }

  lemma NumberOfBytes(a: seq<bool>, b: seq<bool>, c: seq<bool>, d: seq<bool>)
    requires |a| == |b| == |c| == |d| == 8
    ensures Number(a + b + c + d) == Number(a) + 0x100 * Number(b) + 0x1_0000 * Number(c) + 0x100_0000 * Number(d)
  {
    NumberAppendByte(c, d);
    NumberAppendByte(b, c + d);
    NumberAppendByte(a, b + (c + d));
    assert a + b + c + d == a + (b + (c + d));
  }

  lemma NumberAppendByte(byte: seq<bool>, rest: seq<bool>)
    requires |byte| == 8
    ensures Number(byte + rest) == Number(byte) + 256 * Number(rest)
  {
    assert Pow2(8) == 256 by { assert Pow2(4) == 16; }
    NumberAppend(byte, rest);
  }

  lemma {:induction false} NumberAppend(a: seq<bool>, b: seq<bool>)
    ensures Number(a + b) == Number(a) + Pow2(|a|) * Number(b)
  {
    if a == [] {
      assert a + b == b;
    } else {
      NumberAppend(a[1..], b);
      assert (a + b)[1..] == a[1..] + b;
      Doubled(Pow2(|a| - 1), Number(b));
    }
  }

  lemma Doubled(x: nat, y: nat)
    ensures 2 * (x * y) == (2 * x) * y
  {}

  lemma NumberByte(b: seq<bool>)
    requires |b| == 8
    ensures Number(b) == Weight(b[0], 1) + Weight(b[1], 2) + Weight(b[2], 4) + Weight(b[3], 8)
                       + Weight(b[4], 16) + Weight(b[5], 32) + Weight(b[6], 64) + Weight(b[7], 128)
  {
    assert b[0..] == b && b[8..] == [];
    NumberNibble(b, 4);
    NumberNibble(b, 0);
  }

  lemma NumberNibble(bits: seq<bool>, i: nat)
    requires i + 4 <= |bits|
    ensures Number(bits[i..]) == Weight(bits[i], 1) + Weight(bits[i + 1], 2) + Weight(bits[i + 2], 4)
                               + Weight(bits[i + 3], 8) + 16 * Number(bits[i + 4..])
  {
    NumberFrom(bits, i);
    NumberFrom(bits, i + 1);
    NumberFrom(bits, i + 2);
    NumberFrom(bits, i + 3);
  }

  lemma NumberFrom(bits: seq<bool>, i: nat)
    requires i < |bits|
    ensures Number(bits[i..]) == Weight(bits[i], 1) + 2 * Number(bits[i + 1..])
  {
    assert bits[i..][1..] == bits[i + 1..];
  }

  function Weight(bit: bool, weight: nat): nat { if bit then weight else 0 }

  lemma BitStepInjective(a: Register, b: Register)
    requires BitStep(a) == BitStep(b)
    ensures a == b
  {
    assert BitStep(a)[31] == a[0] && BitStep(b)[31] == b[0];
    forall i | 1 <= i < 32 ensures a[i] == b[i] {
      assert BitStep(a)[i - 1] == (a[i] != (a[0] && POLYNOMIAL[i - 1]));
      assert BitStep(b)[i - 1] == (b[i] != (b[0] && POLYNOMIAL[i - 1]));
    }
  }

  lemma {:induction false} StepsInjective(n: nat, a: Register, b: Register)
    requires Steps(n, a) == Steps(n, b)
    ensures a == b
  {
    if n > 0 {
      BitStepInjective(Steps(n - 1, a), Steps(n - 1, b));
      StepsInjective(n - 1, a, b);
    }
  }

  lemma BitStepLinear(a: Register, b: Register)
    ensures BitStep(Xor(a, b)) == Xor(BitStep(a), BitStep(b))
  {
    forall i | 0 <= i < 32 ensures BitStep(Xor(a, b))[i] == Xor(BitStep(a), BitStep(b))[i] {}
  }

  lemma {:induction false} StepsLinear(n: nat, a: Register, b: Register)
    ensures Steps(n, Xor(a, b)) == Xor(Steps(n, a), Steps(n, b))
  {
    if n > 0 {
      StepsLinear(n - 1, a, b);
      BitStepLinear(Steps(n - 1, a), Steps(n - 1, b));
    } else {
      assert Xor(a, b) == Xor(Steps(0, a), Steps(0, b));
    }
  }

  /** While only zeros fall out, dividing is shifting. */
  lemma {:induction false} StepsShift(n: nat, r: Register)
    requires n <= 32 && forall i | 0 <= i < n :: !r[i]
    ensures Steps(n, r) == r[n..] + Zeros(n)
  {
    if n > 0 {
      StepsShift(n - 1, r);
      assert Steps(n - 1, r)[0] == r[n - 1];
      assert Steps(n, r) == r[n..] + Zeros(n);
    } else {
      assert r == r[0..] + Zeros(0);
    }
  }

  lemma {:induction false} StepsAdd(m: nat, n: nat, r: Register)
    ensures Steps(m, Steps(n, r)) == Steps(m + n, r)
  {
    if m > 0 { StepsAdd(m - 1, n, r); }
  }

  function Bits(text: string): (r: seq<bool>)
    ensures |r| == 8 * |text|
  {
    if text == [] then [] else Bits(text[..|text| - 1]) + ByteBits(text[|text| - 1])
  }

  /** A byte as it lies in the register before `n` further division steps. */
  function Late(n: nat, byte: seq<bool>): Register
    requires n + |byte| <= 32
  {
    Zeros(n) + byte + Zeros(32 - |byte| - n)
  }

  lemma AbsorbLate(r: Register, n: nat, byte: seq<bool>)
    requires n + |byte| <= 32
    ensures Xor(Steps(n, r), Pad(byte)) == Steps(n, Xor(r, Late(n, byte)))
  {
    StepsShift(n, Late(n, byte));
    assert Steps(n, Late(n, byte)) == Pad(byte);
    StepsLinear(n, r, Late(n, byte));
  }

  lemma XorLate(r: Register, bits: seq<bool>, byte: seq<bool>)
    requires |bits| + |byte| <= 32
    ensures Xor(Xor(r, Pad(bits)), Late(|bits|, byte)) == Xor(r, Pad(bits + byte))
  {}

  /** At most four bytes can be absorbed all at once. */
  lemma {:induction false} AbsorbTogether(r: Register, text: string)
    requires |text| <= 4
    ensures AbsorbAll(r, text) == Steps(8 * |text|, Xor(r, Pad(Bits(text))))
  {
    if text == [] {
      assert Xor(r, Pad([])) == r;
    } else {
      var front, c := text[..|text| - 1], text[|text| - 1];
      var n := 8 * |front|;
      AbsorbTogether(r, front);
      var before := Xor(r, Pad(Bits(front)));
      AbsorbLate(before, n, ByteBits(c));
      XorLate(r, Bits(front), ByteBits(c));
      StepsAdd(8, n, Xor(r, Pad(Bits(text))));
    }
  }

  predicate IsByteString(text: string) { forall i | 0 <= i < |text| :: text[i] as int < 256 }

  lemma LastByte(text: string)
    requires text != []
    ensures var i := |text| - 1; Bits(text)[..8 * i] == Bits(text[..i]) && Bits(text)[8 * i..] == ByteBits(text[i])
  {
    assert Bits(text) == Bits(text[..|text| - 1]) + ByteBits(text[|text| - 1]);
  }

  lemma ByteBitsInjective(c: char, d: char)
    requires c as int < 256 && d as int < 256 && ByteBits(c) == ByteBits(d)
    ensures c == d
  {
    assert Pow2(8) == 256 by { assert Pow2(4) == 16; }
    NumberToBits(c as nat, 8);
    NumberToBits(d as nat, 8);
  }

  lemma {:induction false} BitsInjective(a: string, b: string)
    requires |a| == |b| && IsByteString(a) && IsByteString(b) && Bits(a) == Bits(b)
    ensures a == b
  {
    if a != [] {
      var i := |a| - 1;
      LastByte(a);
      LastByte(b);
      BitsInjective(a[..i], b[..i]);
      ByteBitsInjective(a[i], b[i]);
      assert a == a[..i] + [a[i]] && b == b[..i] + [b[i]];
    }
  }

  lemma {:induction false} AbsorbAllAppend(r: Register, a: string, b: string)
    ensures AbsorbAll(r, a + b) == AbsorbAll(AbsorbAll(r, a), b)
  {
    if b == [] {
      assert a + b == a;
    } else {
      AbsorbAllAppend(r, a, b[..|b| - 1]);
      assert (a + b)[..|a + b| - 1] == a + b[..|b| - 1];
    }
  }

  lemma {:induction false} AbsorbAllInjective(r: Register, s: Register, text: string)
    requires AbsorbAll(r, text) == AbsorbAll(s, text)
    ensures r == s
  {
    if text != [] {
      var front, padded := text[..|text| - 1], Pad(ByteBits(text[|text| - 1]));
      var a, b := AbsorbAll(r, front), AbsorbAll(s, front);
      StepsInjective(8, Xor(a, padded), Xor(b, padded));
      assert forall i | 0 <= i < 32 :: Xor(a, padded)[i] == Xor(b, padded)[i];
      assert a == b;
      AbsorbAllInjective(r, s, front);
    }
  }

  /** CRC-32 detects every change confined to four consecutive bytes. */
  lemma BurstDetected(before: string, a: string, b: string, after: string)
    requires |a| == |b| <= 4 && IsByteString(a) && IsByteString(b)
    ensures a != b ==> Crc32(before + a + after) != Crc32(before + b + after)
  {
    var r := AbsorbAll(ONES, before);
    var x, y := AbsorbAll(r, a), AbsorbAll(r, b);
    AbsorbAllAppend(ONES, before + a, after);
    AbsorbAllAppend(ONES, before, a);
    AbsorbAllAppend(ONES, before + b, after);
    AbsorbAllAppend(ONES, before, b);
    if Crc32(before + a + after) == Crc32(before + b + after) {
      XorInjective(AbsorbAll(x, after), AbsorbAll(y, after), ONES);
      AbsorbAllInjective(x, y, after);
      ShortTextsDistinguished(r, a, b);
    }
  }

  /** Up to four bytes can be recovered from the register they were absorbed into. */
  lemma ShortTextsDistinguished(r: Register, a: string, b: string)
    requires |a| == |b| <= 4 && IsByteString(a) && IsByteString(b) && AbsorbAll(r, a) == AbsorbAll(r, b)
    ensures a == b
  {
    AbsorbTogether(r, a);
    AbsorbTogether(r, b);
    StepsInjective(8 * |a|, Xor(r, Pad(Bits(a))), Xor(r, Pad(Bits(b))));
    assert forall i | 0 <= i < 32 :: Xor(r, Pad(Bits(a)))[i] == Xor(r, Pad(Bits(b)))[i];
    assert Pad(Bits(a)) == Pad(Bits(b));
    assert Bits(a) == Pad(Bits(a))[..8 * |a|] && Bits(b) == Pad(Bits(b))[..8 * |a|];
    BitsInjective(a, b);
  }

  lemma XorInjective(a: Register, b: Register, mask: Register)
    requires Number(Xor(a, mask)) == Number(Xor(b, mask))
    ensures a == b
  {
    NumberInjective(Xor(a, mask), Xor(b, mask));
    assert forall i | 0 <= i < 32 :: Xor(a, mask)[i] == Xor(b, mask)[i];
  }
}
