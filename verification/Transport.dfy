/** Framing over a byte stream that delivers and accepts arbitrarily small pieces. */
module Transport {
  import opened Bits
  import opened FrameProtocol

  datatype Received = Received(result: FrameResult, rest: seq<Byte>)

  /** What one receive takes from the stream: a fixed header, then as many bytes as it declares. */
  function Receive(stream: seq<Byte>): Received {
    if |stream| < HEADER_SIZE then Received(Rejected(TruncatedHeader), [])
    else if stream[..4] != MAGIC then Received(Rejected(BadMagic), stream[HEADER_SIZE..])
    else if Unsigned(stream[4..6]) != VERSION then Received(Rejected(UnsupportedVersion), stream[HEADER_SIZE..])
    else
      var length := DeclaredLength(stream);
      if length > MAX_PAYLOAD then Received(Rejected(AbsurdLength), stream[HEADER_SIZE..])
      else if |stream| < HEADER_SIZE + length then Received(Rejected(TruncatedPayload), [])
      else Received(Decode(stream[..HEADER_SIZE + length]), stream[HEADER_SIZE + length..])
  }

  datatype Drained = Drained(frames: seq<Frame>, rest: seq<Byte>)

  /** Receiving until a receive fails. */
  function Drain(stream: seq<Byte>): Drained
    decreases |stream|
  {
    var r := Receive(stream);
    if r.result.Rejected? || |r.rest| >= |stream| then Drained([], r.rest)
    else
      var more := Drain(r.rest);
      Drained([r.result.frame] + more.frames, more.rest)
  }

  class TcpConn {
    var inbox: seq<Byte>   // sent by the peer and not read yet; the stream ends after it
    var outbox: seq<Byte>  // handed to the network

    constructor ()
      ensures inbox == [] && outbox == []
    {
      inbox, outbox := [], [];
    }

    /** One `recv`: some non-empty prefix of what is there, or nothing at the end of the stream. */
    method RecvSome(limit: nat) returns (chunk: seq<Byte>)
      requires limit > 0
      modifies `inbox
      ensures old(inbox) == chunk + inbox
      ensures |chunk| <= limit
      ensures chunk == [] <==> old(inbox) == []
    {
      if inbox == [] { return []; }
      var r: nat :| 1 <= r <= limit && r <= |inbox|;
      chunk := inbox[..r];
      inbox := inbox[r..];
    }

    method RecvAll(n: nat) returns (ok: bool, bytes: seq<Byte>)
      modifies `inbox
      ensures ok <==> |old(inbox)| >= n
      ensures ok ==> bytes == old(inbox)[..n] && inbox == old(inbox)[n..]
      ensures !ok ==> inbox == []
    {
      bytes := [];
      while |bytes| < n
        invariant old(inbox) == bytes + inbox && |bytes| <= n
      {
        var chunk := RecvSome(n - |bytes|);
        if chunk == [] { return false, bytes; }
        bytes := bytes + chunk;
      }
      ok := true;
    }

    method RecvFrame() returns (r: FrameResult)
      modifies `inbox
      ensures Received(r, inbox) == Receive(old(inbox))
    {
      ghost var stream := inbox;
      var ok, header := RecvAll(HEADER_SIZE);
      if !ok { return Rejected(TruncatedHeader); }
      assert header[..4] == stream[..4] && header[4..6] == stream[4..6] && header[8..12] == stream[8..12];
      if header[..4] != MAGIC { return Rejected(BadMagic); }
      if Unsigned(header[4..6]) != VERSION { return Rejected(UnsupportedVersion); }
      var length := Unsigned(header[8..12]);
      if length > MAX_PAYLOAD { return Rejected(AbsurdLength); }
      var wire := header;
      if length > 0 {
        var more: seq<Byte>;
        ok, more := RecvAll(length);
        if !ok { return Rejected(TruncatedPayload); }
        wire := header + more;
      }
      assert wire == stream[..HEADER_SIZE + length];
      r := DecodeFrame(wire);
    }

    /** Sends in pieces; a failing `send` leaves a proper prefix behind. */
    method SendAll(wire: seq<Byte>) returns (ok: bool, ghost sent: nat)
      modifies `outbox
      ensures sent <= |wire| && outbox == old(outbox) + wire[..sent]
      ensures ok <==> sent == |wire|
    {
      sent := 0;
      var next := 0;
      while next < |wire|
        invariant sent == next <= |wire| && outbox == old(outbox) + wire[..next]
      {
        var r: nat :| r <= |wire| - next;
        if r == 0 { return false, next; }
        assert wire[..next + r] == wire[..next] + wire[next..next + r];
        outbox := outbox + wire[next..next + r];
        next := next + r;
        sent := next;
      }
      ok := true;
    }

    method SendFrame(frame: Frame) returns (ok: bool, ghost sent: nat)
      modifies `outbox
      ensures sent <= |Encode(frame)| && outbox == old(outbox) + Encode(frame)[..sent]
      ensures ok <==> sent == |Encode(frame)|
    {
      var wire := EncodeFrame(frame);
      ok, sent := SendAll(wire);
    }

    method ReceiveUntilFailure() returns (frames: seq<Frame>)
      modifies `inbox
      ensures Drained(frames, inbox) == Drain(old(inbox))
    {
      hide Receive, Drain;
      frames := [];
      assert [] + Drain(inbox).frames == Drain(inbox).frames;
      while true
        invariant Drain(old(inbox)) == Drained(frames + Drain(inbox).frames, Drain(inbox).rest)
        decreases |inbox|
      {
        ghost var before := inbox;
        var r := RecvFrame();
        DrainStep(before);
        if r.Rejected? {
          assert frames + [] == frames;
          return;
        }
        assert frames + ([r.frame] + Drain(inbox).frames) == (frames + [r.frame]) + Drain(inbox).frames;
        frames := frames + [r.frame];
      }
    }
  }

  lemma DrainStep(stream: seq<Byte>)
    ensures
      var r := Receive(stream);
      if r.result.Rejected? then Drain(stream) == Drained([], r.rest)
      else
        && |r.rest| < |stream|
        && Drain(stream) == Drained([r.result.frame] + Drain(r.rest).frames, Drain(r.rest).rest)
  {
  }

  // ---------------------------------------------------------------------
  // Frames put on the stream are the frames taken off it
  // ---------------------------------------------------------------------

  lemma ReceiveOfEncode(frame: Frame, rest: seq<Byte>)
    requires |frame.payload| <= MAX_PAYLOAD
    ensures Receive(Encode(frame) + rest) == Received(Accepted(frame), rest)
  {
    var wire := Encode(frame);
    var stream := wire + rest;
    EncodeCarries(frame);
    DecodeOfEncode(frame);
    assert stream[..4] == wire[..4] && stream[4..6] == wire[4..6] && stream[8..12] == wire[8..12];
    assert stream[..|wire|] == wire && stream[|wire|..] == rest;
  }

  /** A receive that succeeds has taken exactly one encoded frame off the front. */
  lemma EncodeOfReceive(stream: seq<Byte>)
    requires Receive(stream).result.Accepted?
    ensures stream == Encode(Receive(stream).result.frame) + Receive(stream).rest
    ensures |Receive(stream).result.frame.payload| <= MAX_PAYLOAD
  {
    var n := HEADER_SIZE + DeclaredLength(stream);
    EncodeOfDecode(stream[..n], Receive(stream).result.frame);
    assert stream == stream[..n] + stream[n..];
  }

  function EncodeAll(frames: seq<Frame>): seq<Byte> {
    if frames == [] then [] else Encode(frames[0]) + EncodeAll(frames[1..])
  }

  lemma EncodeAllCons(frame: Frame, frames: seq<Frame>)
    ensures EncodeAll([frame] + frames) == Encode(frame) + EncodeAll(frames)
  {
    assert ([frame] + frames)[1..] == frames;
  }

  lemma ConcatAssociates(a: seq<Byte>, b: seq<Byte>, c: seq<Byte>)
    ensures (a + b) + c == a + (b + c)
  {
  }

  lemma NothingIsRejected()
    ensures Receive([]) == Received(Rejected(TruncatedHeader), [])
  {
  }

  /** Any concatenation of frames is split back into the same frames, to the last byte. */
  lemma {:induction false} DrainOfEncodeAll(frames: seq<Frame>)
    requires forall f :: f in frames ==> |f.payload| <= MAX_PAYLOAD
    ensures Drain(EncodeAll(frames)) == Drained(frames, [])
  {
    hide Encode, Receive, Drain;
    if frames == [] {
      // Base case: nothing to show.
    } else {
      DrainOfEncodeAll(frames[1..]);
      ReceiveOfEncode(frames[0], EncodeAll(frames[1..]));
      assert [frames[0]] + frames[1..] == frames;
    }
    DrainStep(EncodeAll(frames));
    NothingIsRejected();
  }

  /** Whatever arrives, the frames reported are the ones encoded at the front of the stream. */
  lemma {:induction false} DrainedPrefix(stream: seq<Byte>) returns (tail: seq<Byte>)
    ensures stream == EncodeAll(Drain(stream).frames) + tail
    ensures Receive(tail).result.Rejected? && Receive(tail).rest == Drain(stream).rest
    decreases |stream|
  {
    if Receive(stream).result.Rejected? {
      tail := stream;
    } else {
      DrainStep(stream);
      EncodeOfReceive(stream);
      var r := Receive(stream);
      tail := DrainedPrefix(r.rest);
      EncodeAllCons(r.result.frame, Drain(r.rest).frames);
      ConcatAssociates(Encode(r.result.frame), EncodeAll(Drain(r.rest).frames), tail);
    }
  }
}
