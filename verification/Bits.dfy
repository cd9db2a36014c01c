/** Bytes, bit strings and little-endian numbers. Bit strings are lowest bit first. */
module Bits {

  type Byte = n: int | 0 <= n < 256
  type Bits = seq<bool>

  function Pow2(n: nat): (p: nat)
    ensures p > 0
  {
    if n == 0 then 1 else 2 * Pow2(n - 1)
  }

  lemma {:induction false} Pow2Adds(m: nat, n: nat)
    ensures Pow2(m + n) == Pow2(m) * Pow2(n)
  {
    if m == 0 {
      // Base case: nothing to show.
    } else {
      Pow2Adds(m - 1, n);
      assert Pow2(m + n) == 2 * (Pow2(m - 1) * Pow2(n)) == (2 * Pow2(m - 1)) * Pow2(n);
    }
  }

  // ---------------------------------------------------------------------
  // Numbers and their bits
  // ---------------------------------------------------------------------

  /** The n low bits of v. */
  function BitsOf(v: nat, n: nat): (bits: Bits)
    ensures |bits| == n
  {
    if n == 0 then [] else [v % 2 == 1] + BitsOf(v / 2, n - 1)
  }

  function NumberOf(bits: Bits): (v: nat)
    ensures v < Pow2(|bits|)
  {
    if bits == [] then 0 else (if bits[0] then 1 else 0) + 2 * NumberOf(bits[1..])
  }

  lemma {:induction false} BitsOfNumber(bits: Bits)
    ensures BitsOf(NumberOf(bits), |bits|) == bits
  {
    if bits == [] {
      // Base case: nothing to show.
    } else {
      BitsOfNumber(bits[1..]);
      assert NumberOf(bits) / 2 == NumberOf(bits[1..]);
    }
  }

  lemma {:induction false} NumberOfBits(v: nat, n: nat)
    requires v < Pow2(n)
    ensures NumberOf(BitsOf(v, n)) == v
  {
    if n == 0 {
      // Base case: nothing to show.
    } else {
      NumberOfBits(v / 2, n - 1);
    }
  }

  // ---------------------------------------------------------------------
  // Little-endian fields
  // ---------------------------------------------------------------------

  /** The n low-order bytes of v, lowest first. */
  function LittleEndian(v: nat, n: nat): (bytes: seq<Byte>)
    ensures |bytes| == n
  {
    if n == 0 then [] else [v % 256] + LittleEndian(v / 256, n - 1)
  }

  function Unsigned(bytes: seq<Byte>): (v: nat)
    ensures v < Pow2(8 * |bytes|)
  {
    if bytes == [] then 0
    else
      assert 8 * |bytes| == 8 + 8 * |bytes[1..]|;
      Pow2Adds(8, 8 * |bytes[1..]|);
      assert Pow2(8) == 256;
      bytes[0] + 256 * Unsigned(bytes[1..])
  }

  lemma {:induction false} UnsignedOfLittleEndian(v: nat, n: nat)
    requires v < Pow2(8 * n)
    ensures Unsigned(LittleEndian(v, n)) == v
  {
    if n == 0 {
      // Base case: nothing to show.
    } else {
      assert 8 * n == 8 + 8 * (n - 1);
      Pow2Adds(8, 8 * (n - 1));
      assert Pow2(8) == 256;
      UnsignedOfLittleEndian(v / 256, n - 1);
    }
  }

  lemma {:induction false} LittleEndianOfUnsigned(bytes: seq<Byte>)
    ensures LittleEndian(Unsigned(bytes), |bytes|) == bytes
  {
    if bytes == [] {
      // Base case: nothing to show.
    } else {
      LittleEndianOfUnsigned(bytes[1..]);
      assert Unsigned(bytes) / 256 == Unsigned(bytes[1..]);
    }
  }

  // ---------------------------------------------------------------------
  // Byte strings as bit strings
  // ---------------------------------------------------------------------

  function AllBits(data: seq<Byte>): (bits: Bits)
    ensures |bits| == 8 * |data|
  {
    if data == [] then [] else BitsOf(data[0], 8) + AllBits(data[1..])
  }

  lemma {:induction false} AllBitsConcat(a: seq<Byte>, b: seq<Byte>)
    ensures AllBits(a + b) == AllBits(a) + AllBits(b)
  {
    if a == [] {
      assert a + b == b;
    } else {
      assert (a + b)[1..] == a[1..] + b;
      AllBitsConcat(a[1..], b);
    }
  }

  lemma {:induction false} AllBitsInjective(a: seq<Byte>, b: seq<Byte>)
    requires |a| == |b| && AllBits(a) == AllBits(b)
    ensures a == b
  {
    if a == [] {
      // Base case: nothing to show.
    } else {
      assert BitsOf(a[0], 8) == AllBits(a)[..8] == AllBits(b)[..8] == BitsOf(b[0], 8);
      assert Pow2(8) == 256;
      NumberOfBits(a[0], 8);
      NumberOfBits(b[0], 8);
      assert AllBits(a[1..]) == AllBits(a)[8..] == AllBits(b)[8..] == AllBits(b[1..]);
      AllBitsInjective(a[1..], b[1..]);
    }
  }

  lemma {:induction false} LowBits(v: nat, w: nat, k: nat, m: nat)
    requires v == w + Pow2(m) * k
    ensures BitsOf(v, m) == BitsOf(w, m)
  {
    if m == 0 {
      // Base case: nothing to show.
    } else {
      assert Pow2(m) * k == 2 * (Pow2(m - 1) * k);
      LowBits(v / 2, w / 2, k, m - 1);
    }
  }

  lemma {:induction false} HighBits(v: nat, m: nat, n: nat)
    ensures BitsOf(v, m + n) == BitsOf(v, m) + BitsOf(Halved(v, m), n)
  {
    if m == 0 {
      // Base case: nothing to show.
    } else {
      HighBits(v / 2, m - 1, n);
    }
  }

  function Halved(v: nat, m: nat): nat {
    if m == 0 then v else Halved(v / 2, m - 1)
  }

  lemma HalvedTwice(v: nat, m: nat)
    ensures Halved(v, m + 2) == Halved(v / 4, m)
  {
    assert Halved(v, m + 2) == Halved(v / 2, m + 1) == Halved(v / 2 / 2, m);
  }

  lemma HalvedNever(v: nat)
    ensures Halved(v, 0) == v
  {
  }

  lemma HalvedByByte(v: nat)
    ensures Halved(v, 8) == v / 256
  {
    hide Halved;
    HalvedTwice(v, 6);
    HalvedTwice(v / 4, 4);
    HalvedTwice(v / 16, 2);
    HalvedTwice(v / 64, 0);
    HalvedNever(v / 256);
  }

  lemma FirstByteOfBits(v: nat, n: nat)
    ensures BitsOf(v, 8 + n) == BitsOf(v % 256, 8) + BitsOf(v / 256, n)
  {
    assert Pow2(8) == 256;
    LowBits(v, v % 256, v / 256, 8);
    HighBits(v, 8, n);
    HalvedByByte(v);
  }

  /** A little-endian field spells out the bits of its number. */
  lemma {:induction false} AllBitsOfLittleEndian(v: nat, n: nat)
    ensures AllBits(LittleEndian(v, n)) == BitsOf(v, 8 * n)
  {
    if n == 0 {
      // Base case: nothing to show.
    } else {
      AllBitsOfLittleEndian(v / 256, n - 1);
      FirstByteOfBits(v, 8 * (n - 1));
      assert 8 + 8 * (n - 1) == 8 * n;
    }
  }
}
