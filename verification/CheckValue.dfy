/** The checksum on the program's own 32-bit words, and its value for the nine digits. */
module CheckValue {
  import opened Bits
  import opened Crc32

  const POLYNOMIAL: bv32 := 0xEDB88320

  // ---------------------------------------------------------------------
  // Words of bits
  // ---------------------------------------------------------------------

  predicate Odd(v: bv32) { v & 1 == 1 }

  function Half(v: bv32): bv32 { v >> 1 }

  function Sum(a: bv32, b: bv32): bv32 { a ^ b }

  /** The n low bits of a machine word. */
  function LowBitsOf(v: bv32, n: nat): (bits: Bits)
    ensures |bits| == n
    decreases n
  {
    if n == 0 then [] else [Odd(v)] + LowBitsOf(Half(v), n - 1)
  }

  function Register32(v: bv32): Word { LowBitsOf(v, 32) }

  function Dropped(v: bv32, n: nat): bv32
    decreases n
  {
    if n == 0 then v else Dropped(Half(v), n - 1)
  }

  lemma LowestOfSum(a: bv32, b: bv32)
    ensures Odd(Sum(a, b)) == (Odd(a) != Odd(b)) && Half(Sum(a, b)) == Sum(Half(a), Half(b))
  {
  }

  lemma FirstBit(v: bv32, n: nat)
    requires n > 0
    ensures LowBitsOf(v, n) == [Odd(v)] + LowBitsOf(Half(v), n - 1)
  {
  }

  lemma {:induction false} SumBitAt(a: bv32, b: bv32, n: nat, i: nat)
    requires i < n
    ensures LowBitsOf(Sum(a, b), n)[i] == (LowBitsOf(a, n)[i] != LowBitsOf(b, n)[i])
    decreases n
  {
    hide LowBitsOf, Odd, Half, Sum;
    LowestOfSum(a, b);
    FirstBit(a, n);
    FirstBit(b, n);
    FirstBit(Sum(a, b), n);
    if i > 0 { SumBitAt(Half(a), Half(b), n - 1, i - 1); }
  }

  lemma {:induction false} Concatenated(v: bv32, m: nat, n: nat)
    ensures LowBitsOf(v, m + n) == LowBitsOf(v, m) + LowBitsOf(Dropped(v, m), n)
    decreases m
  {
    if m == 0 {
      // Base case: nothing to show.
    } else {
      Concatenated(Half(v), m - 1, n);
    }
  }

  function Down(v: bv32): bv32 { v >> 4 }

  lemma DownIsHalves(v: bv32)
    ensures Half(Half(Half(Half(v)))) == Down(v)
  {
  }

  lemma {:induction false} DroppedDown(v: bv32, n: nat)
    ensures Dropped(v, n + 4) == Down(Dropped(v, n))
    decreases n
  {
    hide Half, Down;
    if n == 0 {
      DownIsHalves(v);
      assert Dropped(v, 4) == Dropped(Half(v), 3) == Dropped(Half(Half(v)), 2) == Dropped(Half(Half(Half(v))), 1);
    } else {
      DroppedDown(Half(v), n - 1);
    }
  }

  /** What is left of v above its k low hexadecimal digits. */
  function Above(v: bv32, k: nat): bv32 {
    if k == 0 then v else Down(Above(v, k - 1))
  }

  lemma {:induction false} DroppedDigits(v: bv32, k: nat)
    ensures Dropped(v, 4 * k) == Above(v, k)
  {
    hide Half, Down;
    if k > 0 {
      DroppedDigits(v, k - 1);
      DroppedDown(v, 4 * (k - 1));
    }
  }

  lemma TwoDigits(v: bv32, k: nat)
    ensures Above(v, 0) == v && Above(v, k + 2) == Down(Down(Above(v, k)))
  {
    hide Down;
    assert Above(v, k + 1) == Down(Above(v, k));
  }

  lemma EightDigits(v: bv32)
    ensures Down(Down(Down(Down(Down(Down(Down(Down(v)))))))) == 0
  {
  }

  lemma AboveAll(v: bv32)
    ensures Above(v, 8) == 0
  {
    hide Above, Down;
    TwoDigits(v, 0);
    TwoDigits(v, 2);
    TwoDigits(v, 4);
    TwoDigits(v, 6);
    EightDigits(v);
  }

  lemma ZeroBit()
    ensures LowBitsOf(0, 1) == [false]
  {
  }

  lemma LastBit(v: bv32)
    ensures LowBitsOf(v, 33) == LowBitsOf(v, 32) + [false]
  {
    hide LowBitsOf, Dropped, Above;
    Concatenated(v, 32, 1);
    DroppedDigits(v, 8);
    AboveAll(v);
    ZeroBit();
  }

  lemma ShiftedBits(v: bv32)
    ensures Register32(Half(v)) == ShiftRight(Register32(v), 1)
  {
    hide LowBitsOf;
    LastBit(v);
    FirstBit(v, 33);
    assert LowBitsOf(v, 33)[1..] == LowBitsOf(Half(v), 32);
  }

  /** The low four bits of v are this hexadecimal digit. */
  predicate HasDigit(v: bv32, d: nat) {
    (v & 1 == 1) == (d % 2 == 1) && (v & 2 == 2) == (d / 2 % 2 == 1) &&
    (v & 4 == 4) == (d / 4 % 2 == 1) && (v & 8 == 8) == (d / 8 % 2 == 1)
  }

  lemma FourBits(v: bv32)
    ensures LowBitsOf(v, 4) == [v & 1 == 1, v & 2 == 2, v & 4 == 4, v & 8 == 8]
  {
    assert ((v >> 1) & 1 == 1) == (v & 2 == 2);
    assert ((v >> 1 >> 1) & 1 == 1) == (v & 4 == 4);
    assert ((v >> 1 >> 1 >> 1) & 1 == 1) == (v & 8 == 8);
  }

  lemma DigitBits(v: bv32, d: nat)
    requires HasDigit(v, d)
    ensures LowBitsOf(v, 4) == HexDigit(d)
  {
    hide LowBitsOf;
    FourBits(v);
  }

  lemma DigitAt(v: bv32, k: nat, d: nat)
    requires HasDigit(Above(v, k), d)
    ensures LowBitsOf(v, 4 * k + 4) == LowBitsOf(v, 4 * k) + HexDigit(d)
  {
    hide LowBitsOf, Dropped, HexDigit, HasDigit, Above;
    Concatenated(v, 4 * k, 4);
    DroppedDigits(v, k);
    DigitBits(Above(v, k), d);
  }

  lemma NoBits(v: bv32)
    ensures LowBitsOf(v, 0) == []
  {
  }

  lemma Spelled(v: bv32, d0: nat, d1: nat, d2: nat, d3: nat, d4: nat, d5: nat, d6: nat, d7: nat)
    requires HasDigit(Above(v, 0), d0) && HasDigit(Above(v, 1), d1) && HasDigit(Above(v, 2), d2)
    requires HasDigit(Above(v, 3), d3) && HasDigit(Above(v, 4), d4) && HasDigit(Above(v, 5), d5)
    requires HasDigit(Above(v, 6), d6) && HasDigit(Above(v, 7), d7)
    ensures Register32(v) ==
            HexDigit(d0) + HexDigit(d1) + HexDigit(d2) + HexDigit(d3) +
            HexDigit(d4) + HexDigit(d5) + HexDigit(d6) + HexDigit(d7)
  {
    hide LowBitsOf, Dropped, HexDigit, HasDigit, Above;
    DigitAt(v, 0, d0);
    DigitAt(v, 1, d1);
    DigitAt(v, 2, d2);
    DigitAt(v, 3, d3);
    DigitAt(v, 4, d4);
    DigitAt(v, 5, d5);
    DigitAt(v, 6, d6);
    DigitAt(v, 7, d7);
    NoBits(v);
  }

  // ---------------------------------------------------------------------
  // The register on machine words
  // ---------------------------------------------------------------------

  /** One bit of a message into the register. */
  function Step32(c: bv32, bit: bv32): bv32 {
    if Odd(c) != Odd(bit) then Sum(POLYNOMIAL, Half(c)) else Half(c)
  }

  /** The n low bits of v into the register. */
  function Fed(c: bv32, v: bv32, n: nat): bv32
    decreases n
  {
    if n == 0 then c else Fed(Step32(c, v), Half(v), n - 1)
  }

  lemma PolynomialWord()
    ensures Register32(POLYNOMIAL) == Polynomial()
  {
    hide LowBitsOf, HexDigit;
    Spelled(POLYNOMIAL, 0x0, 0x2, 0x3, 0x8, 0x8, 0xB, 0xD, 0xE);
  }

  lemma OnesWord()
    ensures Register32(0xFFFF_FFFF) == Ones()
  {
    hide LowBitsOf;
    Spelled(0xFFFF_FFFF, 0xF, 0xF, 0xF, 0xF, 0xF, 0xF, 0xF, 0xF);
  }

  /** One step of the reference division is one step on a machine word. */
  lemma ShiftInWord(c: bv32, bit: bv32)
    ensures ShiftIn(Register32(c), Odd(bit)) == Register32(Step32(c, bit))
  {
    hide LowBitsOf, Odd, Half, Sum, POLYNOMIAL, Polynomial;
    FirstBit(c, 32);
    ShiftedBits(c);
    PolynomialWord();
    var x := Xor(Polynomial(), ShiftRight(Register32(c), 1));
    forall i | 0 <= i < 32 ensures x[i] == Register32(Sum(POLYNOMIAL, Half(c)))[i] {
      SumBitAt(POLYNOMIAL, Half(c), 32, i);
    }
  }

  lemma {:induction false} DivideWord(c: bv32, v: bv32, n: nat)
    ensures Divide(Register32(c), LowBitsOf(v, n)) == Register32(Fed(c, v, n))
    decreases n
  {
    hide Odd, Half, Step32, ShiftIn, Register32;
    if n == 0 {
      // Base case: nothing to show.
    } else {
      ShiftInWord(c, v);
      assert LowBitsOf(v, n)[1..] == LowBitsOf(Half(v), n - 1);
      DivideWord(Step32(c, v), Half(v), n - 1);
    }
  }

  lemma EarlyDigitSteps()
    ensures Fed(0xFFFF_FFFF, 0x31, 8) == 0x7C23_1048
    ensures Fed(0x7C23_1048, 0x32, 8) == 0xB0AC_BB32
    ensures Fed(0xB0AC_BB32, 0x33, 8) == 0x77B7_9C2D
    ensures Fed(0x77B7_9C2D, 0x34, 8) == 0x641C_1F5C
  {
  }

  lemma LateDigitSteps()
    ensures Fed(0x641C_1F5C, 0x35, 8) == 0x340A_C5E3
    ensures Fed(0x340A_C5E3, 0x36, 8) == 0xF68D_2C9E
    ensures Fed(0xF68D_2C9E, 0x37, 8) == 0xAFFC_9660
    ensures Fed(0xAFFC_9660, 0x38, 8) == 0x651F_2550
    ensures Fed(0x651F_2550, 0x39, 8) == 0x340B_C6D9
  {
  }

  // ---------------------------------------------------------------------
  // The check value
  // ---------------------------------------------------------------------

  lemma {:induction false} NumberOfConcat(a: Bits, b: Bits)
    ensures NumberOf(a + b) == NumberOf(a) + Pow2(|a|) * NumberOf(b)
  {
    if a == [] {
      assert a + b == b;
    } else {
      NumberOfConcat(a[1..], b);
      FirstOfConcat(a, b);
      Distribute(a[0], NumberOf(a[1..]), Pow2(|a[1..]|), NumberOf(b));
    }
  }

  lemma FirstOfConcat(a: Bits, b: Bits)
    requires a != []
    ensures NumberOf(a + b) == (if a[0] then 1 else 0) + 2 * NumberOf(a[1..] + b)
  {
    assert (a + b)[1..] == a[1..] + b;
  }

  lemma Distribute(bit: bool, low: nat, p: nat, high: nat)
    ensures (if bit then 1 else 0) + 2 * (low + p * high) == (if bit then 1 else 0) + 2 * low + 2 * p * high
  {
  }

  lemma BitsOfDigit(d: nat)
    ensures BitsOf(d, 4) == HexDigit(d)
  {
    assert d / 4 == d / 2 / 2 && d / 8 == d / 4 / 2;
    assert BitsOf(d, 4) == [d % 2 == 1] + BitsOf(d / 2, 3);
    assert BitsOf(d / 2, 3) == [d / 2 % 2 == 1] + BitsOf(d / 4, 2);
    assert BitsOf(d / 4, 2) == [d / 4 % 2 == 1] + BitsOf(d / 8, 1);
    assert BitsOf(d / 8, 1) == [d / 8 % 2 == 1];
  }

  lemma DigitNumber(d: nat)
    requires d < 16
    ensures |HexDigit(d)| == 4 && NumberOf(HexDigit(d)) == d
  {
    assert Pow2(4) == 16;
    BitsOfDigit(d);
    NumberOfBits(d, 4);
  }

  /** A digit above the n digits that are already there. */
  lemma DigitAbove(p: Bits, n: nat, d: nat)
    requires d < 16 && |p| == 4 * n
    ensures |p + HexDigit(d)| == 4 * (n + 1) && NumberOf(p + HexDigit(d)) == NumberOf(p) + Pow2(4 * n) * d
  {
    NumberOfConcat(p, HexDigit(d));
    DigitNumber(d);
  }

  /** A byte, as its eight bits and as a machine word. */
  predicate SameByte(b: Byte, v: bv32) {
    HasDigit(v, b % 16) && HasDigit(Down(v), b / 16)
  }

  lemma TwoDigitsOf(b: Byte)
    ensures BitsOf(b, 8) == HexDigit(b % 16) + HexDigit(b / 16)
  {
    hide BitsOf, HexDigit, Halved;
    assert Pow2(4) == 16;
    LowBits(b, b % 16, b / 16, 4);
    HighBits(b, 4, 4);
    HalvedTwice(b, 2);
    HalvedTwice(b / 4, 0);
    HalvedNever(b / 16);
    BitsOfDigit(b % 16);
    BitsOfDigit(b / 16);
  }

  lemma BitsOfByte(b: Byte, v: bv32)
    requires SameByte(b, v)
    ensures BitsOf(b, 8) == LowBitsOf(v, 8)
  {
    hide LowBitsOf, Dropped, HexDigit, HasDigit, Down, BitsOf;
    TwoDigitsOf(b);
    Concatenated(v, 4, 4);
    DroppedDigits(v, 1);
    DigitBits(v, b % 16);
    DigitBits(Down(v), b / 16);
  }

  lemma FeedByte(data: seq<Byte>, c: bv32, b: Byte, v: bv32)
    requires Register(data) == Register32(c) && SameByte(b, v)
    ensures Register(data + [b]) == Register32(Fed(c, v, 8))
  {
    hide Divide, Register32, Fed, SameByte, BitsOf, LowBitsOf;
    assert AllBits([b]) == BitsOf(b, 8) + AllBits([]) == BitsOf(b, 8);
    AllBitsConcat(data, [b]);
    DivideConcat(Ones(), AllBits(data), AllBits([b]));
    BitsOfByte(b, v);
    DivideWord(c, v, 8);
  }

  const NINE_DIGITS: seq<Byte> := [0x31, 0x32, 0x33, 0x34, 0x35, 0x36, 0x37, 0x38, 0x39]  // "123456789"

  lemma EarlyDigitsAreBytes()
    ensures SameByte(0x31, 0x31) && SameByte(0x32, 0x32) && SameByte(0x33, 0x33) && SameByte(0x34, 0x34)
  {
  }

  lemma LateDigitsAreBytes()
    ensures SameByte(0x35, 0x35) && SameByte(0x36, 0x36) && SameByte(0x37, 0x37) && SameByte(0x38, 0x38)
    ensures SameByte(0x39, 0x39)
  {
  }

  lemma NoBytes()
    ensures Register([]) == Register32(0xFFFF_FFFF)
  {
    hide Register32;
    OnesWord();
    DivideNothing(Ones());
    assert Register([]) == Divide(Ones(), AllBits([]));
    assert AllBits([]) == [];
  }

  lemma DivideNothing(c: Word)
    ensures Divide(c, []) == c
  {
  }

  lemma RegisterOfNineDigits()
    ensures Register(NINE_DIGITS) == Register32(0x340B_C6D9)
  {
    hide Register, Register32, Fed, SameByte;
    EarlyDigitSteps();
    LateDigitSteps();
    EarlyDigitsAreBytes();
    LateDigitsAreBytes();
    NoBytes();
    var d := NINE_DIGITS;
    assert d[..0] == [];
    FeedByte(d[..0], 0xFFFF_FFFF, 0x31, 0x31);
    assert d[..0] + [0x31] == d[..1];
    FeedByte(d[..1], 0x7C23_1048, 0x32, 0x32);
    assert d[..1] + [0x32] == d[..2];
    FeedByte(d[..2], 0xB0AC_BB32, 0x33, 0x33);
    assert d[..2] + [0x33] == d[..3];
    FeedByte(d[..3], 0x77B7_9C2D, 0x34, 0x34);
    assert d[..3] + [0x34] == d[..4];
    FeedByte(d[..4], 0x641C_1F5C, 0x35, 0x35);
    assert d[..4] + [0x35] == d[..5];
    FeedByte(d[..5], 0x340A_C5E3, 0x36, 0x36);
    assert d[..5] + [0x36] == d[..6];
    FeedByte(d[..6], 0xF68D_2C9E, 0x37, 0x37);
    assert d[..6] + [0x37] == d[..7];
    FeedByte(d[..7], 0xAFFC_9660, 0x38, 0x38);
    assert d[..7] + [0x38] == d[..8];
    FeedByte(d[..8], 0x651F_2550, 0x39, 0x39);
    assert d[..8] + [0x39] == d[..9] == d;
  }

  lemma EightDigitNumber(d0: nat, d1: nat, d2: nat, d3: nat, d4: nat, d5: nat, d6: nat, d7: nat)
    requires d0 < 16 && d1 < 16 && d2 < 16 && d3 < 16 && d4 < 16 && d5 < 16 && d6 < 16 && d7 < 16
    ensures NumberOf(HexDigit(d0) + HexDigit(d1) + HexDigit(d2) + HexDigit(d3) +
                     HexDigit(d4) + HexDigit(d5) + HexDigit(d6) + HexDigit(d7)) ==
            d0 + 0x10 * d1 + 0x100 * d2 + 0x1000 * d3 +
            0x1_0000 * d4 + 0x10_0000 * d5 + 0x100_0000 * d6 + 0x1000_0000 * d7
  {
    hide NumberOf, HexDigit;
    var p1 := HexDigit(d0);
    var p2 := p1 + HexDigit(d1);
    var p3 := p2 + HexDigit(d2);
    var p4 := p3 + HexDigit(d3);
    var p5 := p4 + HexDigit(d4);
    var p6 := p5 + HexDigit(d5);
    DigitNumber(d0);
    DigitAbove(p1, 1, d1);
    DigitAbove(p2, 2, d2);
    DigitAbove(p3, 3, d3);
    DigitAbove(p4, 4, d4);
    DigitAbove(p5, 5, d5);
    DigitAbove(p6, 6, d6);
    DigitAbove(p6 + HexDigit(d6), 7, d7);
    PowersOfSixteen();
  }

  lemma PowersOfSixteen()
    ensures Pow2(4) == 0x10 && Pow2(8) == 0x100 && Pow2(12) == 0x1000 && Pow2(16) == 0x1_0000
    ensures Pow2(20) == 0x10_0000 && Pow2(24) == 0x100_0000 && Pow2(28) == 0x1000_0000
  {
  }

  lemma NumberOfCheck()
    ensures NumberOf(Register32(0xCBF4_3926)) == 0xCBF4_3926
  {
    hide NumberOf, HexDigit, Register32;
    Spelled(0xCBF4_3926, 0x6, 0x2, 0x9, 0x3, 0x4, 0xF, 0xB, 0xC);
    EightDigitNumber(0x6, 0x2, 0x9, 0x3, 0x4, 0xF, 0xB, 0xC);
  }

  lemma FinalSum()
    ensures Sum(0x340B_C6D9, 0xFFFF_FFFF) == 0xCBF4_3926
  {
  }

  /** The published check value of this CRC. */
  lemma ChecksumOfNineDigits()
    ensures NumberOf(Checksum(NINE_DIGITS)) == 0xCBF4_3926
  {
    hide NumberOf, Register, LowBitsOf, Sum;
    RegisterOfNineDigits();
    OnesWord();
    var r, ones := Register32(0x340B_C6D9), Register32(0xFFFF_FFFF);
    FinalSum();
    forall i | 0 <= i < 32 ensures Xor(r, ones)[i] == Register32(0xCBF4_3926)[i] {
      SumBitAt(0x340B_C6D9, 0xFFFF_FFFF, 32, i);
    }
    assert Xor(r, ones) == Register32(0xCBF4_3926);
    NumberOfCheck();
  }
}
