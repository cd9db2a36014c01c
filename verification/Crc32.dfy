/** CRC-32 with the reflected polynomial 0xEDB88320, shared by the state file and the wire frames.
    A 32-bit register is the string of its 32 bits, lowest first, so `w >> k` drops k leading bits. */
module Crc32 {
  import opened Bits

  type Word = w: Bits | |w| == 32 witness Zeros(32)

  function Zeros(n: nat): (z: Bits)
    ensures |z| == n && forall i :: 0 <= i < n ==> !z[i]
  {
    seq(n, _ => false)
  }

  function Ones(): Word { seq(32, _ => true) }

  function HexDigit(d: nat): Bits { [d % 2 == 1, d / 2 % 2 == 1, d / 4 % 2 == 1, d / 8 % 2 == 1] }

  /** 0xEDB88320, digit by digit from the low end. */
  function Polynomial(): Word {
    HexDigit(0x0) + HexDigit(0x2) + HexDigit(0x3) + HexDigit(0x8) +
    HexDigit(0x8) + HexDigit(0xB) + HexDigit(0xD) + HexDigit(0xE)
  }

  function Xor(a: Word, b: Word): Word {
    seq(32, i requires 0 <= i < 32 => a[i] != b[i])
  }

  function ShiftRight(w: Word, k: nat): Word
    requires k <= 32
  {
    w[k..] + Zeros(k)
  }

  // ---------------------------------------------------------------------
  // Reference: long division, one message bit at a time
  // ---------------------------------------------------------------------

  function ShiftIn(c: Word, bit: bool): Word {
    if c[0] != bit then Xor(Polynomial(), ShiftRight(c, 1)) else ShiftRight(c, 1)
  }

  function Divide(c: Word, bits: Bits): Word
    decreases |bits|
  {
    if bits == [] then c else Divide(ShiftIn(c, bits[0]), bits[1..])
  }

  function Register(data: seq<Byte>): Word { Divide(Ones(), AllBits(data)) }

  function Checksum(data: seq<Byte>): Word { Xor(Register(data), Ones()) }

  lemma {:induction false} DivideConcat(c: Word, x: Bits, y: Bits)
    ensures Divide(c, x + y) == Divide(Divide(c, x), y)
    decreases |x|
  {
    if x == [] {
      assert x + y == y;
    } else {
      assert (x + y)[1..] == x[1..] + y;
      DivideConcat(ShiftIn(c, x[0]), x[1..], y);
    }
  }

  // ---------------------------------------------------------------------
  // Shifting without input
  // ---------------------------------------------------------------------

  function Shift(c: Word): Word { ShiftIn(c, false) }

  function ShiftN(c: Word, n: nat): Word
    decreases n
  {
    if n == 0 then c else ShiftN(Shift(c), n - 1)
  }

  lemma ShiftAt(c: Word, i: nat)
    requires i < 32
    ensures Shift(c)[i] == ((c[0] && Polynomial()[i]) != (i < 31 && c[i + 1]))
  {
  }

  lemma ShiftIsInjective(a: Word, b: Word)
    requires Shift(a) == Shift(b)
    ensures a == b
  {
    ShiftAt(a, 31);
    ShiftAt(b, 31);
    assert Polynomial()[31];
    forall i | 0 <= i < 32 ensures a[i] == b[i] {
      if i > 0 {
        ShiftAt(a, i - 1);
        ShiftAt(b, i - 1);
      }
    }
  }

  lemma {:induction false} ShiftNIsInjective(a: Word, b: Word, n: nat)
    requires ShiftN(a, n) == ShiftN(b, n)
    ensures a == b
    decreases n
  {
    if n == 0 {
      // Base case: nothing to show.
    } else {
      ShiftNIsInjective(Shift(a), Shift(b), n - 1);
      ShiftIsInjective(a, b);
    }
  }

  function Padded(bits: Bits): Word
    requires |bits| <= 32
  {
    bits + Zeros(32 - |bits|)
  }

  lemma ShiftInAbsorbs(c: Word, bits: Bits)
    requires 0 < |bits| <= 32
    ensures Shift(Xor(c, Padded(bits))) == Xor(ShiftIn(c, bits[0]), Padded(bits[1..]))
  {
    var l, r := Shift(Xor(c, Padded(bits))), Xor(ShiftIn(c, bits[0]), Padded(bits[1..]));
    forall i | 0 <= i < 32 ensures l[i] == r[i] {
      if i < 31 { assert Padded(bits[1..])[i] == Padded(bits)[i + 1]; }
    }
  }

  /** Dividing by up to 32 message bits is adding them to the register and shifting. */
  lemma {:induction false} DivideIsXorThenShift(c: Word, bits: Bits)
    requires |bits| <= 32
    ensures Divide(c, bits) == ShiftN(Xor(c, Padded(bits)), |bits|)
    decreases |bits|
  {
    if bits == [] {
      assert Xor(c, Padded(bits)) == c;
    } else {
      ShiftInAbsorbs(c, bits);
      DivideIsXorThenShift(ShiftIn(c, bits[0]), bits[1..]);
    }
  }

  // ---------------------------------------------------------------------
  // The table-driven form
  // ---------------------------------------------------------------------

  lemma ShiftPassesHighBits(x: Word, u: Word, z: Word)
    requires !z[0] && x == Xor(u, z)
    ensures Shift(x) == Xor(Shift(u), ShiftRight(z, 1))
  {
    var l, r := Shift(x), Xor(Shift(u), ShiftRight(z, 1));
    forall i | 0 <= i < 32 ensures l[i] == r[i] {}
  }

  lemma {:induction false} ShiftNPassesHighBits(x: Word, u: Word, z: Word, n: nat)
    requires n <= 32 && x == Xor(u, z)
    requires forall i :: 0 <= i < n ==> !z[i]
    ensures ShiftN(x, n) == Xor(ShiftN(u, n), ShiftRight(z, n))
    decreases n
  {
    if n == 0 {
      assert ShiftRight(z, 0) == z;
    } else {
      ShiftPassesHighBits(x, u, z);
      ShiftNPassesHighBits(Shift(x), Shift(u), ShiftRight(z, 1), n - 1);
      assert ShiftRight(ShiftRight(z, 1), n - 1) == ShiftRight(z, n);
    }
  }

  /** Eight shifts only mix the low byte; the rest just moves down. */
  lemma TableIdentity(x: Word)
    ensures ShiftN(x, 8) == Xor(ShiftN(Padded(x[..8]), 8), ShiftRight(x, 8))
  {
    var z: Word := Zeros(8) + x[8..];
    assert Xor(Padded(x[..8]), z) == x;
    ShiftNPassesHighBits(x, Padded(x[..8]), z, 8);
    assert ShiftRight(z, 8) == ShiftRight(x, 8);
  }

  /** One step of the table loop is one byte of the reference. */
  lemma TableStep(crc: Word, b: Byte)
    ensures Divide(crc, BitsOf(b, 8)) ==
            Xor(ShiftN(Padded(Xor(crc, Padded(BitsOf(b, 8)))[..8]), 8), ShiftRight(crc, 8))
  {
    var x := Xor(crc, Padded(BitsOf(b, 8)));
    DivideIsXorThenShift(crc, BitsOf(b, 8));
    TableIdentity(x);
    assert ShiftRight(x, 8) == ShiftRight(crc, 8);
  }

  /** The entry of the lookup table for an index: its bits, shifted out. */
  function TableEntry(bits: Bits): Word
    requires |bits| <= 32
  {
    ShiftN(Padded(bits), |bits|)
  }

  method BuildTable() returns (table: array<Word>)
    ensures fresh(table) && table.Length == 256
    ensures forall i {:trigger table[i]} :: 0 <= i < 256 ==> table[i] == TableEntry(BitsOf(i, 8))
  {
    table := new Word[256];
    for i := 0 to 256
      invariant forall j {:trigger table[j]} :: 0 <= j < i ==> table[j] == TableEntry(BitsOf(j, 8))
    {
      var c: Word := Padded(BitsOf(i, 8));
      for k := 0 to 8
        invariant ShiftN(c, 8 - k) == TableEntry(BitsOf(i, 8))
      {
        c := if c[0] then Xor(Polynomial(), ShiftRight(c, 1)) else ShiftRight(c, 1);
      }
      table[i] := c;
    }
  }

  lemma AllBitsPrefix(data: seq<Byte>, i: nat)
    requires i < |data|
    ensures AllBits(data[..i + 1]) == AllBits(data[..i]) + BitsOf(data[i], 8)
  {
    assert data[..i + 1] == data[..i] + [data[i]];
    AllBitsConcat(data[..i], [data[i]]);
    assert AllBits([data[i]]) == BitsOf(data[i], 8);
  }

  function TableIndex(crc: Word, b: Byte): (i: nat)
    ensures i < 256
  {
    assert Pow2(8) == 256;
    NumberOf(Xor(crc, Padded(BitsOf(b, 8)))[..8])
  }

  lemma TableLoopStep(data: seq<Byte>, i: nat)
    requires i < |data|
    ensures
      var crc := Divide(Ones(), AllBits(data[..i]));
      Divide(Ones(), AllBits(data[..i + 1])) ==
      Xor(TableEntry(BitsOf(TableIndex(crc, data[i]), 8)), ShiftRight(crc, 8))
  {
    var crc := Divide(Ones(), AllBits(data[..i]));
    AllBitsPrefix(data, i);
    DivideConcat(Ones(), AllBits(data[..i]), BitsOf(data[i], 8));
    TableStep(crc, data[i]);
    BitsOfNumber(Xor(crc, Padded(BitsOf(data[i], 8)))[..8]);
  }

  /** The byte-at-a-time loop over a 256-entry table. */
  method TableChecksum(data: seq<Byte>) returns (crc: Word)
    ensures crc == Checksum(data)
  {
    var table := BuildTable();
    crc := Ones();
    for i := 0 to |data|
      invariant forall j {:trigger table[j]} :: 0 <= j < 256 ==> table[j] == TableEntry(BitsOf(j, 8))
      invariant crc == Divide(Ones(), AllBits(data[..i]))
    {
      TableLoopStep(data, i);
      crc := Xor(table[TableIndex(crc, data[i])], ShiftRight(crc, 8));
    }
    assert data[..|data|] == data;
    crc := Xor(crc, Ones());
  }

  // ---------------------------------------------------------------------
  // Error detection
  // ---------------------------------------------------------------------

  lemma ShiftInIsInjective(a: Word, b: Word, bit: bool)
    requires ShiftIn(a, bit) == ShiftIn(b, bit)
    ensures a == b
  {
    ShiftInAbsorbs(a, [bit]);
    ShiftInAbsorbs(b, [bit]);
    ShiftIsInjective(Xor(a, Padded([bit])), Xor(b, Padded([bit])));
    XorCancels(Padded([bit]), a, b);
  }

  lemma XorCancels(p: Word, a: Word, b: Word)
    requires Xor(a, p) == Xor(b, p) || Xor(p, a) == Xor(p, b)
    ensures a == b
  {
    forall i | 0 <= i < 32 ensures a[i] == b[i] {
      assert Xor(a, p)[i] == (a[i] != p[i]) && Xor(b, p)[i] == (b[i] != p[i]);
      assert Xor(p, a)[i] == (p[i] != a[i]) && Xor(p, b)[i] == (p[i] != b[i]);
    }
  }

  lemma {:induction false} DivideIsInjective(a: Word, b: Word, bits: Bits)
    requires Divide(a, bits) == Divide(b, bits)
    ensures a == b
    decreases |bits|
  {
    if bits == [] {
      // Base case: nothing to show.
    } else {
      DivideIsInjective(ShiftIn(a, bits[0]), ShiftIn(b, bits[0]), bits[1..]);
      ShiftInIsInjective(a, b, bits[0]);
    }
  }

  /** Up to 32 message bits are determined by the register before and after them. */
  lemma DivideDeterminesBits(c: Word, x: Bits, y: Bits)
    requires |x| == |y| <= 32
    requires Divide(c, x) == Divide(c, y)
    ensures x == y
  {
    DivideIsXorThenShift(c, x);
    DivideIsXorThenShift(c, y);
    ShiftNIsInjective(Xor(c, Padded(x)), Xor(c, Padded(y)), |x|);
    XorCancels(c, Padded(x), Padded(y));
    assert x == Padded(x)[..|x|] && y == Padded(y)[..|y|];
  }

  /** A burst of up to 32 damaged bits, anywhere in a message, changes the register. */
  lemma BurstChangesRegister(c: Word, p: Bits, x: Bits, y: Bits, q: Bits)
    requires |x| == |y| <= 32 && x != y
    ensures Divide(c, p + x + q) != Divide(c, p + y + q)
  {
    DivideConcat(c, p + x, q);
    DivideConcat(c, p + y, q);
    DivideConcat(c, p, x);
    DivideConcat(c, p, y);
    if Divide(c, p + x + q) == Divide(c, p + y + q) {
      DivideIsInjective(Divide(c, p + x), Divide(c, p + y), q);
      DivideDeterminesBits(Divide(c, p), x, y);
    }
  }

  /** a and b differ, and only inside the four bytes from position i on. */
  predicate BurstAt(a: seq<Byte>, b: seq<Byte>, i: nat) {
    |a| == |b| && a != b && i <= |a| &&
    forall j :: 0 <= j < |a| && !(i <= j < i + 4) ==> a[j] == b[j]
  }

  lemma BurstChangesDivision(a: seq<Byte>, b: seq<Byte>, i: nat, c: Word)
    requires BurstAt(a, b, i)
    ensures Divide(c, AllBits(a)) != Divide(c, AllBits(b))
  {
    var k := if i + 4 <= |a| then i + 4 else |a|;
    assert a == a[..i] + a[i..k] + a[k..] && b == b[..i] + b[i..k] + b[k..];
    assert a[..i] == b[..i] && a[k..] == b[k..];
    AllBitsConcat(a[..i] + a[i..k], a[k..]);
    AllBitsConcat(b[..i] + b[i..k], b[k..]);
    AllBitsConcat(a[..i], a[i..k]);
    AllBitsConcat(b[..i], b[i..k]);
    if AllBits(a[i..k]) == AllBits(b[i..k]) {
      AllBitsInjective(a[i..k], b[i..k]);
      assert false;
    }
    BurstChangesRegister(c, AllBits(a[..i]), AllBits(a[i..k]), AllBits(b[i..k]), AllBits(a[k..]));
  }

  /** Equal-length strings that differ only within four consecutive bytes have different checksums. */
  lemma BurstChangesChecksum(a: seq<Byte>, b: seq<Byte>, i: nat)
    requires BurstAt(a, b, i)
    ensures Checksum(a) != Checksum(b)
  {
    BurstChangesDivision(a, b, i, Ones());
    if Checksum(a) == Checksum(b) {
      XorCancels(Ones(), Register(a), Register(b));
    }
  }

  /** What every message followed by its own checksum divides to. */
  function Residue(): Word { ShiftN(Ones(), 32) }

  lemma ChecksumIffResidue(data: seq<Byte>, stored: Word)
    ensures stored == Checksum(data) <==> Divide(Ones(), AllBits(data) + stored) == Residue()
  {
    var c := Register(data);
    DivideConcat(Ones(), AllBits(data), stored);
    DivideIsXorThenShift(c, stored);
    assert Padded(stored) == stored;
    assert Xor(c, Xor(c, Ones())) == Ones();
    if Divide(Ones(), AllBits(data) + stored) == Residue() {
      ShiftNIsInjective(Xor(c, stored), Ones(), 32);
      XorCancels(c, stored, Xor(c, Ones()));
    }
  }

  // ---------------------------------------------------------------------
  // Sealed byte strings: content followed by its checksum as a 32-bit field
  // ---------------------------------------------------------------------

  function ChecksumField(data: seq<Byte>): (field: seq<Byte>)
    ensures |field| == 4
  {
    LittleEndian(NumberOf(Checksum(data)), 4)
  }

  function Sealed(data: seq<Byte>): seq<Byte> { data + ChecksumField(data) }

  /** The last four bytes are the checksum of everything before them. */
  predicate Intact(wire: seq<Byte>) {
    |wire| >= 4 && Unsigned(wire[|wire| - 4..]) == NumberOf(Checksum(wire[..|wire| - 4]))
  }

  lemma FieldSpellsNumber(field: seq<Byte>, w: Word)
    requires |field| == 4
    ensures Unsigned(field) == NumberOf(w) <==> AllBits(field) == w
    ensures AllBits(field) == w <==> field == LittleEndian(NumberOf(w), 4)
  {
    AllBitsOfLittleEndian(Unsigned(field), 4);
    AllBitsOfLittleEndian(NumberOf(w), 4);
    LittleEndianOfUnsigned(field);
    BitsOfNumber(w);
    UnsignedOfLittleEndian(NumberOf(w), 4);
    if AllBits(field) == w { AllBitsInjective(field, LittleEndian(NumberOf(w), 4)); }
  }

  /** A string is intact exactly when it is some content, sealed. */
  lemma IntactIffSealed(wire: seq<Byte>)
    ensures Intact(wire) <==> |wire| >= 4 && wire == Sealed(wire[..|wire| - 4])
    ensures forall data: seq<Byte> :: wire == Sealed(data) ==> Intact(wire)
  {
    if |wire| >= 4 {
      var n := |wire| - 4;
      FieldSpellsNumber(wire[n..], Checksum(wire[..n]));
      assert wire == wire[..n] + wire[n..];
      assert Sealed(wire[..n])[n..] == ChecksumField(wire[..n]);
    }
    forall data: seq<Byte> | wire == Sealed(data) ensures Intact(wire) {
      assert wire[..|wire| - 4] == data && wire[|wire| - 4..] == ChecksumField(data);
      FieldSpellsNumber(ChecksumField(data), Checksum(data));
    }
  }

  lemma IntactIffResidue(wire: seq<Byte>)
    requires |wire| >= 4
    ensures Intact(wire) <==> Divide(Ones(), AllBits(wire)) == Residue()
  {
    var n := |wire| - 4;
    assert wire == wire[..n] + wire[n..];
    AllBitsConcat(wire[..n], wire[n..]);
    FieldSpellsNumber(wire[n..], Checksum(wire[..n]));
    ChecksumIffResidue(wire[..n], AllBits(wire[n..]));
  }

  /** Damage confined to four consecutive bytes, the checksum field included, breaks the seal. */
  lemma BurstBreaksSeal(a: seq<Byte>, b: seq<Byte>, i: nat)
    requires Intact(a) && BurstAt(a, b, i)
    ensures !Intact(b)
  {
    IntactIffResidue(a);
    IntactIffResidue(b);
    BurstChangesDivision(a, b, i, Ones());
  }
}
