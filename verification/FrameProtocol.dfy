/** The length-prefixed, checksummed message frame exchanged over a connection. */
module FrameProtocol {
  import opened Bits
  import opened Crc32

  datatype MessageType =
    | Hello | RegisterWorker | PublishDevice | PublishEndpoint | PublishCapability
    | RegisterBuffer | Ready | QueryState | CreateBuffer | Ack | Nack

  datatype Frame = Frame(kind: MessageType, flags: Byte, payload: seq<Byte>)

  datatype FrameError =
    | TooShort | BadMagic | UnsupportedVersion | AbsurdLength | LengthMismatch
    | InvalidChecksum | MalformedType | TruncatedHeader | TruncatedPayload

  datatype FrameResult = Accepted(frame: Frame) | Rejected(error: FrameError)

  const MAX_PAYLOAD: nat := 0x10_0000
  const HEADER_SIZE: nat := 16
  const VERSION: nat := 1
  const MAGIC: seq<Byte> := [0x47, 0x44, 0x46, 0x31]  // "GDF1"

  function Code(kind: MessageType): Byte {
    match kind
    case Hello => 1
    case RegisterWorker => 2
    case PublishDevice => 3
    case PublishEndpoint => 4
    case PublishCapability => 5
    case RegisterBuffer => 6
    case Ready => 7
    case QueryState => 8
    case CreateBuffer => 9
    case Ack => 40
    case Nack => 41
  }

  predicate IsCode(b: Byte) { 1 <= b <= 9 || b == 40 || b == 41 }

  function KindOf(b: Byte): (kind: MessageType)
    requires IsCode(b)
    ensures Code(kind) == b
  {
    match b
    case 1 => Hello
    case 2 => RegisterWorker
    case 3 => PublishDevice
    case 4 => PublishEndpoint
    case 5 => PublishCapability
    case 6 => RegisterBuffer
    case 7 => Ready
    case 8 => QueryState
    case 9 => CreateBuffer
    case 40 => Ack
    case _ => Nack
  }

  // ---------------------------------------------------------------------
  // Encoding
  // ---------------------------------------------------------------------

  /** The twelve bytes before the payload; the length field keeps only 32 bits of the size. */
  function Preamble(frame: Frame): (bytes: seq<Byte>)
    ensures |bytes| == 12
  {
    MAGIC + LittleEndian(VERSION, 2) + [Code(frame.kind), frame.flags] +
    LittleEndian(|frame.payload| % 0x1_0000_0000, 4)
  }

  function Encode(frame: Frame): (wire: seq<Byte>)
    ensures |wire| == HEADER_SIZE + |frame.payload|
  {
    Sealed(Preamble(frame) + frame.payload)
  }

  method AppendLittleEndian(b: seq<Byte>, v: nat, n: nat) returns (r: seq<Byte>)
    ensures r == b + LittleEndian(v, n)
  {
    r := b;
    var rest := v;
    for i := 0 to n
      invariant r + LittleEndian(rest, n - i) == b + LittleEndian(v, n)
    {
      assert LittleEndian(rest, n - i) == [rest % 256] + LittleEndian(rest / 256, n - i - 1);
      assert r + LittleEndian(rest, n - i) == (r + [rest % 256]) + LittleEndian(rest / 256, n - i - 1);
      r := r + [rest % 256];
      rest := rest / 256;
    }
  }

  method EncodeFrame(frame: Frame) returns (wire: seq<Byte>)
    ensures wire == Encode(frame)
  {
    wire := MAGIC;
    wire := AppendLittleEndian(wire, VERSION, 2);
    wire := wire + [Code(frame.kind)];
    wire := wire + [frame.flags];
    wire := AppendLittleEndian(wire, |frame.payload| % 0x1_0000_0000, 4);
    assert wire == Preamble(frame);
    wire := wire + frame.payload;
    var crc := TableChecksum(wire);
    wire := AppendLittleEndian(wire, NumberOf(crc), 4);
  }

  // ---------------------------------------------------------------------
  // Decoding
  // ---------------------------------------------------------------------

  /** The declared payload length of a wire. */
  function DeclaredLength(wire: seq<Byte>): nat
    requires |wire| >= 12
  {
    Unsigned(wire[8..12])
  }

  function Decode(wire: seq<Byte>): FrameResult {
    if |wire| < HEADER_SIZE then Rejected(TooShort)
    else if wire[..4] != MAGIC then Rejected(BadMagic)
    else if Unsigned(wire[4..6]) != VERSION then Rejected(UnsupportedVersion)
    else if DeclaredLength(wire) > MAX_PAYLOAD then Rejected(AbsurdLength)
    else if |wire| != HEADER_SIZE + DeclaredLength(wire) then Rejected(LengthMismatch)
    else if !Intact(wire) then Rejected(InvalidChecksum)
    else if !IsCode(wire[6]) then Rejected(MalformedType)
    else Accepted(Frame(KindOf(wire[6]), wire[7], wire[12..|wire| - 4]))
  }

  method DecodeFrame(wire: seq<Byte>) returns (r: FrameResult)
    ensures r == Decode(wire)
  {
    hide Unsigned, Checksum, NumberOf;
    if |wire| < HEADER_SIZE { return Rejected(TooShort); }
    if wire[0] != MAGIC[0] || wire[1] != MAGIC[1] || wire[2] != MAGIC[2] || wire[3] != MAGIC[3] {
      return Rejected(BadMagic);
    }
    assert wire[..4] == MAGIC;
    if Unsigned(wire[4..6]) != VERSION { return Rejected(UnsupportedVersion); }
    var length := Unsigned(wire[8..12]);
    if length > MAX_PAYLOAD { return Rejected(AbsurdLength); }
    if |wire| != HEADER_SIZE + length { return Rejected(LengthMismatch); }
    var offset := |wire| - 4;
    var stored := Unsigned(wire[offset..]);
    var calculated := TableChecksum(wire[..offset]);
    if stored != NumberOf(calculated) { return Rejected(InvalidChecksum); }
    if !IsCode(wire[6]) { return Rejected(MalformedType); }
    return Accepted(Frame(KindOf(wire[6]), wire[7], wire[12..offset]));
  }

  lemma PreambleFields(frame: Frame, rest: seq<Byte>)
    ensures
      var w := Preamble(frame) + rest;
      && w[..4] == MAGIC && Unsigned(w[4..6]) == VERSION
      && w[6] == Code(frame.kind) && w[7] == frame.flags
      && DeclaredLength(w) == |frame.payload| % 0x1_0000_0000
  {
    var w := Preamble(frame) + rest;
    var length := |frame.payload| % 0x1_0000_0000;
    assert w[..4] == MAGIC;
    assert w[4..6] == LittleEndian(VERSION, 2);
    assert w[8..12] == LittleEndian(length, 4);
    assert Pow2(16) == 0x1_0000 && Pow2(32) == 0x1_0000_0000 by {
      assert Pow2(8) == 256;
      Pow2Adds(8, 8);
      Pow2Adds(16, 16);
    }
    UnsignedOfLittleEndian(VERSION, 2);
    UnsignedOfLittleEndian(length, 4);
  }

  lemma CodeRoundTrip(kind: MessageType)
    ensures IsCode(Code(kind)) && KindOf(Code(kind)) == kind
  {
  }

  /** The wire's fields are those of the frame. */
  predicate Carries(wire: seq<Byte>, frame: Frame) {
    && |wire| == HEADER_SIZE + |frame.payload|
    && wire[..4] == MAGIC && Unsigned(wire[4..6]) == VERSION
    && wire[6] == Code(frame.kind) && wire[7] == frame.flags
    && DeclaredLength(wire) == |frame.payload| % 0x1_0000_0000
    && wire[12..|wire| - 4] == frame.payload
  }

  lemma EncodeIsIntact(frame: Frame)
    ensures Intact(Encode(frame))
  {
    IntactIffSealed(Encode(frame));
  }

  lemma EncodeCarries(frame: Frame)
    ensures Carries(Encode(frame), frame)
  {
    hide ChecksumField, Preamble, Unsigned;
    var wire := Encode(frame);
    var tail := ChecksumField(Preamble(frame) + frame.payload);
    PreambleFields(frame, frame.payload + tail);
    assert wire == Preamble(frame) + (frame.payload + tail);
  }

  lemma DecodeOfCarrier(wire: seq<Byte>, frame: Frame)
    requires Carries(wire, frame)
    ensures Decode(wire) == Accepted(frame) <==> Intact(wire) && |frame.payload| <= MAX_PAYLOAD
  {
    CodeRoundTrip(frame.kind);
    var n := |frame.payload|;
    if n <= MAX_PAYLOAD {
      assert DeclaredLength(wire) == n;
    } else {
      assert DeclaredLength(wire) > MAX_PAYLOAD || |wire| != HEADER_SIZE + DeclaredLength(wire);
    }
  }

  lemma AcceptedIsCarrier(wire: seq<Byte>, frame: Frame)
    requires Decode(wire) == Accepted(frame)
    ensures Carries(wire, frame) && Intact(wire) && |frame.payload| <= MAX_PAYLOAD
  {
    var n := DeclaredLength(wire);
    assert |wire| == HEADER_SIZE + n && n <= MAX_PAYLOAD;
    assert Intact(wire);
    assert IsCode(wire[6]);
    assert frame == Frame(KindOf(wire[6]), wire[7], wire[12..|wire| - 4]);
    assert |frame.payload| == n;
    assert n % 0x1_0000_0000 == n;
  }

  lemma CarrierPreamble(wire: seq<Byte>, frame: Frame)
    requires Carries(wire, frame)
    ensures wire[..12] == Preamble(frame)
  {
    LittleEndianOfUnsigned(wire[4..6]);
    LittleEndianOfUnsigned(wire[8..12]);
    assert wire[..12] == wire[..4] + wire[4..6] + [wire[6], wire[7]] + wire[8..12];
  }

  /** A frame survives the wire exactly when its payload is within the limit. */
  lemma DecodeOfEncode(frame: Frame)
    ensures Decode(Encode(frame)) == Accepted(frame) <==> |frame.payload| <= MAX_PAYLOAD
  {
    EncodeIsIntact(frame);
    EncodeCarries(frame);
    DecodeOfCarrier(Encode(frame), frame);
  }

  /** Decoding accepts nothing but encodings of frames within the limit. */
  lemma EncodeOfDecode(wire: seq<Byte>, frame: Frame)
    requires Decode(wire) == Accepted(frame)
    ensures Encode(frame) == wire && |frame.payload| <= MAX_PAYLOAD
  {
    AcceptedIsCarrier(wire, frame);
    CarrierPreamble(wire, frame);
    IntactIffSealed(wire);
    assert wire[..|wire| - 4] == wire[..12] + wire[12..|wire| - 4];
  }

  /** Overwriting any bytes within a window of four makes an accepted wire unacceptable. */
  lemma DamagedFrameIsRejected(frame: Frame, damaged: seq<Byte>, i: nat)
    requires BurstAt(Encode(frame), damaged, i)
    ensures Decode(damaged).Rejected?
  {
    IntactIffSealed(Encode(frame));
    BurstBreaksSeal(Encode(frame), damaged, i);
  }
}
