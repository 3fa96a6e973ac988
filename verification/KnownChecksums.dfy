/**
  A known value of CRC-32 and its residue: with the theorems about differences, they fix the register that a
  computation starts with and the mask it ends with.
*/
module KnownChecksums {
  import opened Checksum

  function Same(bit: bool, n: nat): (r: seq<bool>)
    ensures |r| == n && forall i | 0 <= i < n :: r[i] == bit
  {
    seq(n, i => bit)
  }

  lemma AllOnes()
    ensures ONES == Same(true, 32)
  {
    var byte := Same(true, 8);
    ByteIs(byte, 0xFF);
    NumberOfBytes(byte, byte, byte, byte);
    assert byte + byte + byte + byte == Same(true, 32);
    BitsOfNumber(Same(true, 32));
  }

  lemma BitsOfFour(a: char, b: char, c: char, d: char)
    ensures Bits([a, b, c, d]) == ByteBits(a) + ByteBits(b) + ByteBits(c) + ByteBits(d)
  {
    var text := [a, b, c, d];
    assert text[..3][..2] == text[..2] && text[..2][..1] == text[..1];
    assert Bits(text[..1]) == ByteBits(a);
    assert Bits(text[..2]) == Bits(text[..1]) + ByteBits(b);
    assert Bits(text[..3]) == Bits(text[..2]) + ByteBits(c);
  }

  /** All ones but the last. */
  function ManyOnes(n: nat): (r: seq<bool>)
    requires n > 0
    ensures |r| == n
  {
    Same(true, n - 1) + [false]
  }

  lemma BytesOfOnes()
    ensures ToBits(0xFF, 8) == Same(true, 8) && ToBits(0x7F, 8) == ManyOnes(8)
  {
    ByteIs(Same(true, 8), 0xFF);
    ByteIs(ManyOnes(8), 0x7F);
  }

  lemma BitsOfOnes()
    ensures Bits([0xFF as char, 0xFF as char, 0xFF as char, 0x7F as char]) == ManyOnes(32)
  {
    BitsOfFour(0xFF as char, 0xFF as char, 0xFF as char, 0x7F as char);
    BytesOfOnes();
    var a := Same(true, 8);
    assert a + a + a + ManyOnes(8) == ManyOnes(32);
  }

  /** A one in the last place only falls out last, and leaves the polynomial. */
  lemma LastOneLeavesPolynomial(r: Register)
    requires r == Same(false, 31) + [true]
    ensures Steps(32, r) == POLYNOMIAL
  {
    StepsShift(31, r);
    var s := Steps(31, r);
    assert s[0] && s[1..] + [false] == Same(false, 32);
    assert Xor(s[1..] + [false], POLYNOMIAL) == POLYNOMIAL;
  }

  /** The bytes that cancel the initial register but for its last bit. */
  lemma KnownValue()
    ensures Crc32([0xFF as char, 0xFF as char, 0xFF as char, 0x7F as char]) == 0x1247_7CDF
  {
    var text := [0xFF as char, 0xFF as char, 0xFF as char, 0x7F as char];
    AllOnes();
    BitsOfOnes();
    AbsorbTogether(ONES, text);
    CancelledButLast();
    LastOneLeavesPolynomial(Xor(ONES, Pad(Bits(text))));
    NumberOfComplement();
  }

  lemma CancelledButLast()
    ensures Xor(Same(true, 32), Pad(ManyOnes(32))) == Same(false, 31) + [true]
  {}

  function Flipped(b: seq<bool>): (r: seq<bool>)
    ensures |r| == |b| && forall i | 0 <= i < |b| :: r[i] == !b[i]
  {
    seq(|b|, i requires 0 <= i < |b| => !b[i])
  }

  lemma {:induction false} NumberOfFlipped(b: seq<bool>)
    ensures Number(Flipped(b)) == Pow2(|b|) - 1 - Number(b)
  {
    if b != [] {
      NumberOfFlipped(b[1..]);
      assert Flipped(b)[1..] == Flipped(b[1..]);
    }
  }

  lemma NumberOfComplement()
    ensures Number(Xor(POLYNOMIAL, ONES)) == 0x1247_7CDF
  {
    AllOnes();
    assert Xor(POLYNOMIAL, Same(true, 32)) == Flipped(POLYNOMIAL);
    NumberOfFlipped(POLYNOMIAL);
    PolynomialValue();
    Pow2Of32();
  }

  lemma Pow2Of32()
    ensures Pow2(32) == 0x1_0000_0000
  {
    assert Pow2(8) == 0x100;
    assert Pow2(16) == 0x1_0000;
    assert Pow2(24) == 0x100_0000;
  }

  /** Four bytes that spell the checksum of a text, least significant byte first. */
  predicate Spells(own: string, text: string)
  {
    |own| == 4 && Number(Bits(own)) == Crc32(text)
  }

  /** A text followed by its own checksum has one checksum, whatever the text. */
  lemma OwnChecksum(text: string, own: string, other: string, others: string)
    requires Spells(own, text) && Spells(others, other)
    ensures Crc32(text + own) == Crc32(other + others)
  {
    Leaves(text, own);
    Leaves(other, others);
  }

  lemma Leaves(text: string, own: string)
    requires Spells(own, text)
    ensures AbsorbAll(ONES, text + own) == Steps(32, ONES)
  {
    var r := AbsorbAll(ONES, text);
    NumberInjective(Bits(own), Xor(r, ONES));
    AbsorbAllAppend(ONES, text, own);
    AbsorbTogether(r, own);
    assert Xor(r, Pad(Bits(own))) == ONES;
  }
}
