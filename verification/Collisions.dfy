/**
  Where the separation of checksums ends: differences of five bytes may go undetected, exactly when the polynomial
  divides them, and two texts of letters and digits show that they do.
*/
module Collisions {
  import opened Checksum

  /** What is left of a difference of five bytes after division. */
  function Residue(difference: seq<bool>): Register
    requires |difference| == 40
  {
    Xor(Steps(32, difference[..32]), Pad(difference[32..]))
  }

  lemma AbsorbFive(r: Register, text: string)
    requires |text| == 5
    ensures var bits := Bits(text);
            AbsorbAll(r, text) == Steps(8, Xor(Steps(32, Xor(r, bits[..32])), Pad(bits[32..])))
  {
    var front := text[..4];
    AbsorbTogether(r, front);
    assert Bits(text) == Bits(front) + ByteBits(text[4]);
    assert Bits(text)[..32] == Pad(Bits(front)) && Bits(text)[32..] == ByteBits(text[4]);
  }

  lemma XorApart(a: Register, b: Register, c: Register, d: Register)
    ensures Xor(a, b) == Xor(c, d) <==> Xor(Xor(a, c), Xor(b, d)) == Zeros(32)
  {
    if Xor(Xor(a, c), Xor(b, d)) == Zeros(32) {
      forall i | 0 <= i < 32 ensures Xor(a, b)[i] == Xor(c, d)[i] { assert !Xor(Xor(a, c), Xor(b, d))[i]; }
    }
  }

  lemma FiveAbsorbedAlike(r: Register, a: string, b: string)
    requires |a| == |b| == 5
    ensures AbsorbAll(r, a) == AbsorbAll(r, b) <==> Residue(Xor(Bits(a), Bits(b))) == Zeros(32)
  {
    var x, y, d := Bits(a), Bits(b), Xor(Bits(a), Bits(b));
    var u, v := Steps(32, Xor(r, x[..32])), Steps(32, Xor(r, y[..32]));
    AbsorbFive(r, a);
    AbsorbFive(r, b);
    if AbsorbAll(r, a) == AbsorbAll(r, b) { StepsInjective(8, Xor(u, Pad(x[32..])), Xor(v, Pad(y[32..]))); }
    XorApart(u, Pad(x[32..]), v, Pad(y[32..]));
    StepsLinear(32, Xor(r, x[..32]), Xor(r, y[..32]));
    assert Xor(Xor(r, x[..32]), Xor(r, y[..32])) == d[..32];
    assert Xor(Pad(x[32..]), Pad(y[32..])) == Pad(d[32..]);
  }

  /** Texts that differ within five consecutive bytes collide exactly when the polynomial divides the difference. */
  lemma FiveByteBursts(before: string, a: string, b: string, after: string)
    requires |a| == |b| == 5
    ensures Crc32(before + a + after) == Crc32(before + b + after) <==> Residue(Xor(Bits(a), Bits(b))) == Zeros(32)
  {
    var r := AbsorbAll(ONES, before);
    var x, y := AbsorbAll(r, a), AbsorbAll(r, b);
    AbsorbAllAppend(ONES, before + a, after);
    AbsorbAllAppend(ONES, before, a);
    AbsorbAllAppend(ONES, before + b, after);
    AbsorbAllAppend(ONES, before, b);
    FiveAbsorbedAlike(r, a, b);
    if Crc32(before + a + after) == Crc32(before + b + after) {
      XorInjective(AbsorbAll(x, after), AbsorbAll(y, after), ONES);
      AbsorbAllInjective(x, y, after);
    }
  }

  /** The polynomial itself, its leading term included, `t` bits into the difference. */
  function Codeword(t: nat): (d: seq<bool>)
    requires t < 8
    ensures |d| == 40
  {
    Zeros(t) + [true] + POLYNOMIAL + Zeros(7 - t)
  }

  /** The polynomial divides its own multiples. */
  lemma CodewordVanishes(t: nat)
    requires t < 8
    ensures Residue(Codeword(t)) == Zeros(32)
  {
    var head, tail := [true] + POLYNOMIAL[..31 - t], POLYNOMIAL[31 - t..];
    assert Codeword(t)[..32] == Zeros(t) + head && Codeword(t)[32..] == tail + Zeros(7 - t);
    DivideToTail(t, head, tail);
    assert tail + Zeros(31 - t) == Pad(Codeword(t)[32..]);
  }

  /** Shift to the leading one, subtract the polynomial, and shift what remains of it. */
  lemma DivideToTail(t: nat, head: seq<bool>, tail: seq<bool>)
    requires t < 8 && head == [true] + POLYNOMIAL[..31 - t] && tail == POLYNOMIAL[31 - t..]
    ensures Steps(32, Zeros(t) + head) == tail + Zeros(31 - t)
  {
    var r: Register, first: Register, second: Register := Zeros(t) + head, head + Zeros(t), Zeros(31 - t) + tail;
    StepsShift(t, r);
    assert r[t..] == head;
    FirstOneFallsOut(t, first, second);
    assert Steps(1, first) == BitStep(Steps(0, first));
    StepsAdd(1, t, r);
    StepsShift(31 - t, second);
    assert second[31 - t..] == tail;
    StepsAdd(31 - t, 1 + t, r);
  }

  lemma FirstOneFallsOut(t: nat, first: Register, second: Register)
    requires t < 8
    requires first == [true] + POLYNOMIAL[..31 - t] + Zeros(t)
    requires second == Zeros(31 - t) + POLYNOMIAL[31 - t..]
    ensures BitStep(first) == second
  {
    assert first[1..] + [false] == POLYNOMIAL[..31 - t] + Zeros(t) + [false];
    HighTermsStay(t, POLYNOMIAL);
  }

  lemma HighTermsStay(t: nat, p: Register)
    requires t < 8
    ensures Xor(p[..31 - t] + Zeros(t) + [false], p) == Zeros(31 - t) + p[31 - t..]
  {}

  lemma ResidueLinear(d: seq<bool>, e: seq<bool>)
    requires |d| == |e| == 40
    ensures Residue(Xor(d, e)) == Xor(Residue(d), Residue(e))
  {
    StepsLinear(32, d[..32], e[..32]);
    assert Xor(d, e)[..32] == Xor(d[..32], e[..32]);
    assert Pad(Xor(d, e)[32..]) == Xor(Pad(d[32..]), Pad(e[32..]));
  }

  // ---- a collision of five letters and digits ----

  const COLLIDING_A := "a009d"
  const COLLIDING_B := "0RQUx"

  /** The difference of the two texts, byte by byte. */
  const DIFFERENCE_0 := [true, false, false, false, true, false, true, false]
  const DIFFERENCE_1 := [false, true, false, false, false, true, true, false]
  const DIFFERENCE_2 := [true, false, false, false, false, true, true, false]
  const DIFFERENCE_3 := [false, false, true, true, false, true, true, false]
  const DIFFERENCE_4 := [false, false, true, true, true, false, false, false]

  function Differences(): seq<bool> { DIFFERENCE_0 + DIFFERENCE_1 + DIFFERENCE_2 + DIFFERENCE_3 + DIFFERENCE_4 }

  lemma DifferenceOf(m: nat, a: seq<bool>, n: nat, b: seq<bool>, difference: seq<bool>)
    requires |a| == |b| == |difference| == 8
    requires m == Weight(a[0], 1) + Weight(a[1], 2) + Weight(a[2], 4) + Weight(a[3], 8)
                  + Weight(a[4], 16) + Weight(a[5], 32) + Weight(a[6], 64) + Weight(a[7], 128)
    requires n == Weight(b[0], 1) + Weight(b[1], 2) + Weight(b[2], 4) + Weight(b[3], 8)
                  + Weight(b[4], 16) + Weight(b[5], 32) + Weight(b[6], 64) + Weight(b[7], 128)
    requires forall i | 0 <= i < 8 :: difference[i] == (a[i] != b[i])
    ensures Xor(ToBits(m, 8), ToBits(n, 8)) == difference
  {
    ByteIs(a, m);
    ByteIs(b, n);
  }

  lemma Difference0()
    ensures Xor(ToBits(97, 8), ToBits(48, 8)) == DIFFERENCE_0
  {
    DifferenceOf(97, [true, false, false, false, false, true, true, false],
                 48, [false, false, false, false, true, true, false, false], DIFFERENCE_0);
  }

  lemma Difference1()
    ensures Xor(ToBits(48, 8), ToBits(82, 8)) == DIFFERENCE_1
  {
    DifferenceOf(48, [false, false, false, false, true, true, false, false],
                 82, [false, true, false, false, true, false, true, false], DIFFERENCE_1);
  }

  lemma Difference2()
    ensures Xor(ToBits(48, 8), ToBits(81, 8)) == DIFFERENCE_2
  {
    DifferenceOf(48, [false, false, false, false, true, true, false, false],
                 81, [true, false, false, false, true, false, true, false], DIFFERENCE_2);
  }

  lemma Difference3()
    ensures Xor(ToBits(57, 8), ToBits(85, 8)) == DIFFERENCE_3
  {
    DifferenceOf(57, [true, false, false, true, true, true, false, false],
                 85, [true, false, true, false, true, false, true, false], DIFFERENCE_3);
  }

  lemma Difference4()
    ensures Xor(ToBits(100, 8), ToBits(120, 8)) == DIFFERENCE_4
  {
    DifferenceOf(100, [false, false, true, false, false, true, true, false],
                 120, [false, false, false, true, true, true, true, false], DIFFERENCE_4);
  }

  lemma BitsOfFive(text: string)
    requires |text| == 5
    ensures Bits(text) == ByteBits(text[0]) + ByteBits(text[1]) + ByteBits(text[2]) + ByteBits(text[3]) + ByteBits(text[4])
  {
    assert text[..4][..3] == text[..3] && text[..3][..2] == text[..2] && text[..2][..1] == text[..1];
    assert Bits(text[..1]) == ByteBits(text[0]);
    assert Bits(text[..2]) == Bits(text[..1]) + ByteBits(text[1]);
    assert Bits(text[..3]) == Bits(text[..2]) + ByteBits(text[2]);
    assert Bits(text[..4]) == Bits(text[..3]) + ByteBits(text[3]);
  }

  lemma XorAppend(a: seq<bool>, b: seq<bool>, c: seq<bool>, d: seq<bool>)
    requires |a| == |c| && |b| == |d|
    ensures Xor(a + b, c + d) == Xor(a, c) + Xor(b, d)
  {}

  lemma XorOfFive(a: string, b: string)
    requires |a| == |b| == 5
    ensures Xor(Bits(a), Bits(b)) == Xor(ByteBits(a[0]), ByteBits(b[0])) + Xor(ByteBits(a[1]), ByteBits(b[1]))
                                   + Xor(ByteBits(a[2]), ByteBits(b[2])) + Xor(ByteBits(a[3]), ByteBits(b[3]))
                                   + Xor(ByteBits(a[4]), ByteBits(b[4]))
  {
    BitsOfFive(a);
    BitsOfFive(b);
    var a0, a1, a2, a3, a4 := ByteBits(a[0]), ByteBits(a[1]), ByteBits(a[2]), ByteBits(a[3]), ByteBits(a[4]);
    var b0, b1, b2, b3, b4 := ByteBits(b[0]), ByteBits(b[1]), ByteBits(b[2]), ByteBits(b[3]), ByteBits(b[4]);
    XorAppend(a0, a1, b0, b1);
    XorAppend(a0 + a1, a2, b0 + b1, b2);
    XorAppend(a0 + a1 + a2, a3, b0 + b1 + b2, b3);
    XorAppend(a0 + a1 + a2 + a3, a4, b0 + b1 + b2 + b3, b4);
  }

  lemma DifferencesAreTwoCodewords()
    ensures Xor(Codeword(0), Codeword(4)) == Differences()
  {
    var c, d := Codeword(0), Codeword(4);
    forall i | 0 <= i < 8 ensures Xor(c, d)[i] == Differences()[i] {}
    forall i | 8 <= i < 16 ensures Xor(c, d)[i] == Differences()[i] {}
    forall i | 16 <= i < 24 ensures Xor(c, d)[i] == Differences()[i] {}
    forall i | 24 <= i < 32 ensures Xor(c, d)[i] == Differences()[i] {}
    forall i | 32 <= i < 40 ensures Xor(c, d)[i] == Differences()[i] {}
  }

  /** Four bytes are the most: two different texts of five letters and digits collide wherever they stand. */
  lemma FiveBytesCollide(before: string, after: string)
    ensures Crc32(before + COLLIDING_A + after) == Crc32(before + COLLIDING_B + after)
  {
    XorOfFive(COLLIDING_A, COLLIDING_B);
    Difference0();
    Difference1();
    Difference2();
    Difference3();
    Difference4();
    assert Xor(Bits(COLLIDING_A), Bits(COLLIDING_B)) == Differences();
    DifferencesAreTwoCodewords();
    ResidueLinear(Codeword(0), Codeword(4));
    CodewordVanishes(0);
    CodewordVanishes(4);
    FiveByteBursts(before, COLLIDING_A, COLLIDING_B, after);
  }
}
