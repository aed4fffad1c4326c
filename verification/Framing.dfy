/** Packet framing: a 4-byte big-endian length, at most 65536, and the payload (src/broker.rs, src/rpc.rs). */
module Framing {
  type Byte = b: int | 0 <= b < 256
  type Bytes = seq<Byte>

  const BUF_SIZE: nat := 65536

  datatype ReadError = UnexpectedEof | TooLong(len: nat)
  datatype Outcome<+T> = Ok(value: T) | Fail(error: ReadError)

  /** What a read leaves: its outcome and the bytes it has not consumed. */
  datatype Parsed = Packet(payload: Bytes, rest: Bytes) | Failed(error: ReadError)

  function BigEndian(n: nat): (bs: Bytes)
    requires n < 0x1_0000_0000
    ensures |bs| == 4
  {
    [n / 256 / 256 / 256, n / 256 / 256 % 256, n / 256 % 256, n % 256]
  }

  function FromBigEndian(bs: Bytes): (n: nat)
    requires |bs| == 4
    ensures n < 0x1_0000_0000
  {
    var b0: int, b1: int, b2: int, b3: int := bs[0], bs[1], bs[2], bs[3];
    ((b0 * 256 + b1) * 256 + b2) * 256 + b3
  }

  lemma LengthRoundTrip(n: nat)
    requires n < 0x1_0000_0000
    ensures FromBigEndian(BigEndian(n)) == n
  {
  }

  lemma BytesRoundTrip(bs: Bytes)
    requires |bs| == 4
    ensures BigEndian(FromBigEndian(bs)) == bs
  {
    var b0: int, b1: int, b2: int, b3: int := bs[0], bs[1], bs[2], bs[3];
    var n := FromBigEndian(bs);
    assert n / 256 == (b0 * 256 + b1) * 256 + b2;
    assert n / 256 / 256 == b0 * 256 + b1;
    assert n / 256 / 256 / 256 == b0;
  }

  /** One frame on the wire. */
  function Frame(payload: Bytes): Bytes
    requires |payload| <= BUF_SIZE
  {
    BigEndian(|payload|) + payload
  }

  function ParsePacket(bytes: Bytes): Parsed {
    if |bytes| < 4 then Failed(UnexpectedEof)
    else
      var len := FromBigEndian(bytes[..4]);
      if len > BUF_SIZE then Failed(TooLong(len))
      else if |bytes| - 4 < len then Failed(UnexpectedEof)
      else Packet(bytes[4..4 + len], bytes[4 + len..])
  }

  /** The bytes of a frame: the length in four bytes, most significant first, and the payload. */
  lemma FrameLayout(payload: Bytes)
    requires |payload| <= 65536
    ensures var n := |payload|;
            && |Frame(payload)| == 4 + n && Frame(payload)[4..] == payload
            && Frame(payload)[0] == n / 16777216 && Frame(payload)[1] == n / 65536 % 256
            && Frame(payload)[2] == n / 256 % 256 && Frame(payload)[3] == n % 256
  {
    var n := |payload|;
    assert n / 256 / 256 == n / 65536 && n / 256 / 256 / 256 == n / 16777216;
  }

  /** What is read from any bytes: most significant byte first, at most 65536 bytes, and what follows is left. */
  lemma PacketLayout(bytes: Bytes)
    ensures |bytes| < 4 ==> ParsePacket(bytes) == Failed(UnexpectedEof)
    ensures |bytes| >= 4 ==>
              var b0: int, b1: int, b2: int, b3: int := bytes[0], bytes[1], bytes[2], bytes[3];
              var n := b0 * 16777216 + b1 * 65536 + b2 * 256 + b3;
              ParsePacket(bytes) == if n > 65536 then Failed(TooLong(n))
                                    else if |bytes| < 4 + n then Failed(UnexpectedEof)
                                    else Packet(bytes[4..4 + n], bytes[4 + n..])
  {
  }

  // ---------- the code ----------

  /** The receiving end of a byte stream whose peer has written `data` and closed. */
  class Reader {
    const data: Bytes
    var pos: nat

    ghost predicate Valid()
      reads this
    {
      pos <= |data|
    }

    ghost function Rest(): Bytes
      reads this
      requires Valid()
    {
      data[pos..]
    }

    constructor (data: Bytes)
      ensures Valid() && Rest() == data
    {
      this.data, pos := data, 0;
    }

    /** `read_exact`: all the bytes asked for, or an error at the end of the stream. */
    method ReadExact(n: nat) returns (r: Outcome<Bytes>)
      requires Valid()
      modifies this
      ensures Valid()
      ensures r.Ok? <==> n <= |old(Rest())|
      ensures r.Ok? ==> r.value == old(Rest())[..n] && Rest() == old(Rest())[n..]
      ensures r.Fail? ==> r.error == UnexpectedEof
    {
      if n <= |data| - pos {
        r := Ok(data[pos..pos + n]);
        pos := pos + n;
      } else {
        r, pos := Fail(UnexpectedEof), |data|;
      }
    }

    method ReadPacket() returns (r: Outcome<Bytes>)
      requires Valid()
      modifies this
      ensures Valid()
      ensures match ParsePacket(old(Rest()))
              case Packet(payload, rest) => r == Ok(payload) && Rest() == rest
              case Failed(e) => r == Fail(e)
    {
      ghost var before := Rest();
      var header := ReadExact(4);
      if header.Fail? { return header; }
      var len := FromBigEndian(header.value);
      if len > BUF_SIZE {
        return Fail(TooLong(len));
      }
      r := ReadExact(len);
      if r.Ok? { assert before[4..][..len] == before[4..4 + len] && before[4..][len..] == before[4 + len..]; }
    }

    /** The packets of a whole stream, up to the error that ends the reader's loop. */
    method ReaderLoop() returns (packets: seq<Bytes>, error: ReadError)
      requires Valid()
      modifies this
      ensures packets == ReadAll(old(Rest())).packets && error == ReadAll(old(Rest())).error
    {
      ghost var all := ReadAll(Rest());
      packets := [];
      while true
        invariant Valid()
        invariant all.packets == packets + ReadAll(Rest()).packets && all.error == ReadAll(Rest()).error
        decreases |Rest()|
      {
        ReadNext(packets, Rest());
        var r := ReadPacket();
        if r.Fail? {
          return packets, r.error;
        }
        packets := packets + [r.value];
      }
    }
  }

  /** The sending end: everything written so far. */
  class Writer {
    var sent: Bytes

    constructor ()
      ensures sent == []
    {
      sent := [];
    }

    /** Writes one frame, or refuses an oversized payload and writes nothing. */
    method WritePacket(payload: Bytes) returns (ok: bool)
      modifies this
      ensures ok <==> |payload| <= 65536
      ensures sent == old(sent) + if ok then Frame(payload) else []
    {
      if |payload| > BUF_SIZE {
        return false;
      }
      sent := sent + BigEndian(|payload|);
      sent := sent + payload;
      return true;
    }

    /** The writer's loop over its channel: it ends at the first payload that cannot be written. */
    method WriterLoop(queue: seq<Bytes>)
      modifies this
      ensures sent == old(sent) + FrameAll(Fitting(queue))
    {
      assert queue[0..] == queue;
      for i := 0 to |queue|
        invariant old(sent) + FrameAll(Fitting(queue)) == sent + FrameAll(Fitting(queue[i..]))
      {
        FramesFollow(sent, queue, i);
        var ok := WritePacket(queue[i]);
        if !ok { return; }
      }
    }
  }

  // ---------- whole streams ----------

  predicate Fits(payloads: seq<Bytes>) {
    forall p | p in payloads :: |p| <= BUF_SIZE
  }

  function FrameAll(payloads: seq<Bytes>): Bytes
    requires Fits(payloads)
  {
    if payloads == [] then [] else Frame(payloads[0]) + FrameAll(payloads[1..])
  }

  /** The payloads before the first oversized one. */
  function Fitting(queue: seq<Bytes>): (fit: seq<Bytes>)
    ensures Fits(fit)
  {
    if queue == [] || |queue[0]| > BUF_SIZE then [] else [queue[0]] + Fitting(queue[1..])
  }

  lemma FramesFollow(sent: Bytes, queue: seq<Bytes>, i: nat)
    requires i < |queue|
    ensures sent + FrameAll(Fitting(queue[i..])) ==
            if |queue[i]| > BUF_SIZE then sent + [] else (sent + Frame(queue[i])) + FrameAll(Fitting(queue[i + 1..]))
  {
    FittingStep(queue, i);
    if |queue[i]| <= BUF_SIZE {
      var frame, later := Frame(queue[i]), FrameAll(Fitting(queue[i + 1..]));
      assert sent + (frame + later) == (sent + frame) + later;
    }
  }

  lemma FittingStep(queue: seq<Bytes>, i: nat)
    requires i < |queue|
    ensures FrameAll(Fitting(queue[i..])) ==
            if |queue[i]| > BUF_SIZE then [] else Frame(queue[i]) + FrameAll(Fitting(queue[i + 1..]))
  {
    assert queue[i..][1..] == queue[i + 1..];
    var rest := Fitting(queue[i + 1..]);
    assert ([queue[i]] + rest)[1..] == rest;
  }

  /** The packets of a stream, how many bytes they take, and what ends the stream. */
  datatype Reading = Reading(packets: seq<Bytes>, taken: nat, error: ReadError)

  function ReadAll(bytes: Bytes): Reading
    decreases |bytes|
  {
    match ParsePacket(bytes)
    case Failed(e) => Reading([], 0, e)
    case Packet(payload, rest) =>
      var r := ReadAll(rest);
      Reading([payload] + r.packets, 4 + |payload| + r.taken, r.error)
  }

  /** One turn of the reader's loop. */
  lemma ReadNext(packets: seq<Bytes>, bytes: Bytes)
    ensures match ParsePacket(bytes)
            case Failed(e) => packets + ReadAll(bytes).packets == packets && ReadAll(bytes).error == e
            case Packet(payload, rest) =>
              && packets + ReadAll(bytes).packets == packets + [payload] + ReadAll(rest).packets
              && ReadAll(bytes).error == ReadAll(rest).error && |rest| < |bytes|
  {
    var p := ParsePacket(bytes);
    if p.Packet? {
      var later := ReadAll(p.rest).packets;
      assert packets + ([p.payload] + later) == packets + [p.payload] + later;
    }
  }

  lemma ParsesFrame(payload: Bytes, rest: Bytes)
    requires |payload| <= BUF_SIZE
    ensures ParsePacket(Frame(payload) + rest) == Packet(payload, rest)
  {
    LengthRoundTrip(|payload|);
    var bytes := Frame(payload) + rest;
    assert bytes[..4] == BigEndian(|payload|);
    assert bytes[4..4 + |payload|] == payload && bytes[4 + |payload|..] == rest;
  }

  lemma {:induction false} ReadsFrame(payload: Bytes, rest: Bytes)
    requires |payload| <= BUF_SIZE
    ensures var r := ReadAll(rest);
            ReadAll(Frame(payload) + rest) == Reading([payload] + r.packets, 4 + |payload| + r.taken, r.error)
  {
    ParsesFrame(payload, rest);
  }

  /** A proper prefix of a frame is an incomplete packet. */
  lemma CutFrame(payload: Bytes, cut: nat)
    requires |payload| <= BUF_SIZE && cut < 4 + |payload|
    ensures ParsePacket(Frame(payload)[..cut]) == Failed(UnexpectedEof)
  {
    LengthRoundTrip(|payload|);
    if cut >= 4 { assert Frame(payload)[..cut][..4] == BigEndian(|payload|); }
  }

  /** The number of frames that lie wholly within the first `cut` bytes. */
  function Complete(payloads: seq<Bytes>, cut: nat): (n: nat)
    ensures n <= |payloads|
  {
    if payloads == [] || cut < 4 + |payloads[0]| then 0 else 1 + Complete(payloads[1..], cut - 4 - |payloads[0]|)
  }

  /**
   Reading a stream of frames that was cut off anywhere yields exactly the complete packets, then an end-of-file error.
   */
  lemma {:induction false} TruncatedStream(payloads: seq<Bytes>, cut: nat)
    requires Fits(payloads) && cut <= |FrameAll(payloads)|
    ensures var r := ReadAll(FrameAll(payloads)[..cut]);
            r.packets == payloads[..Complete(payloads, cut)] && r.error == UnexpectedEof
  {
    if payloads == [] {
      assert FrameAll(payloads)[..cut] == [];
    } else if cut < 4 + |payloads[0]| {
      TruncatedWithin(payloads, cut);
    } else {
      var rest, left := payloads[1..], cut - 4 - |payloads[0]|;
      TruncatedFirst(payloads, cut);
      TruncatedStream(rest, left);
      FirstAndRest(payloads, rest, Complete(rest, left));
    }
  }

  lemma FirstAndRest(payloads: seq<Bytes>, rest: seq<Bytes>, n: nat)
    requires payloads != [] && rest == payloads[1..] && n <= |rest|
    ensures [payloads[0]] + rest[..n] == payloads[..n + 1]
  {
  }

  lemma TruncatedWithin(payloads: seq<Bytes>, cut: nat)
    requires Fits(payloads) && payloads != [] && cut < 4 + |payloads[0]| && cut <= |FrameAll(payloads)|
    ensures ReadAll(FrameAll(payloads)[..cut]) == Reading([], 0, UnexpectedEof)
  {
    assert FrameAll(payloads)[..cut] == Frame(payloads[0])[..cut];
    CutFrame(payloads[0], cut);
  }

  lemma CutAfterFrame(payloads: seq<Bytes>, cut: nat)
    requires Fits(payloads) && payloads != [] && 4 + |payloads[0]| <= cut <= |FrameAll(payloads)|
    ensures cut - 4 - |payloads[0]| <= |FrameAll(payloads[1..])|
    ensures FrameAll(payloads)[..cut] == Frame(payloads[0]) + FrameAll(payloads[1..])[..cut - 4 - |payloads[0]|]
  {
  }

  lemma TruncatedFirst(payloads: seq<Bytes>, cut: nat)
    requires Fits(payloads) && payloads != [] && 4 + |payloads[0]| <= cut <= |FrameAll(payloads)|
    ensures var r, left := ReadAll(FrameAll(payloads)[..cut]), cut - 4 - |payloads[0]|;
            && left <= |FrameAll(payloads[1..])|
            && var q := ReadAll(FrameAll(payloads[1..])[..left]);
               r.packets == [payloads[0]] + q.packets && r.error == q.error
  {
    CutAfterFrame(payloads, cut);
    ReadsFrame(payloads[0], FrameAll(payloads[1..])[..cut - 4 - |payloads[0]|]);
  }

  lemma {:induction false} WholeStream(payloads: seq<Bytes>)
    requires Fits(payloads)
    ensures Complete(payloads, |FrameAll(payloads)|) == |payloads|
  {
    if payloads != [] { WholeStream(payloads[1..]); }
  }

  /** Every list of payloads that fit comes back from its frames. */
  lemma FramesRoundTrip(payloads: seq<Bytes>)
    requires Fits(payloads)
    ensures ReadAll(FrameAll(payloads)).packets == payloads
  {
    TruncatedStream(payloads, |FrameAll(payloads)|);
    WholeStream(payloads);
    assert FrameAll(payloads)[..|FrameAll(payloads)|] == FrameAll(payloads);
    assert payloads[..|payloads|] == payloads;
  }

  lemma Reframes(bytes: Bytes)
    requires ParsePacket(bytes).Packet?
    ensures var p := ParsePacket(bytes);
            |p.payload| <= BUF_SIZE && bytes == Frame(p.payload) + p.rest && |p.rest| < |bytes|
  {
    BytesRoundTrip(bytes[..4]);
    var p := ParsePacket(bytes);
    assert bytes == bytes[..4] + p.payload + p.rest;
  }

  /** The packets read from `bytes` are those of its first `r.taken` bytes, and what follows is no packet. */
  ghost predicate Reproduces(r: Reading, bytes: Bytes) {
    && Fits(r.packets) && r.taken <= |bytes|
    && FrameAll(r.packets) == bytes[..r.taken]
    && ParsePacket(bytes[r.taken..]) == Failed(r.error)
  }

  /** Re-writing the packets read from any byte stream reproduces the bytes they were read from. */
  lemma {:induction false} Rewrite(bytes: Bytes)
    ensures Reproduces(ReadAll(bytes), bytes)
    decreases |bytes|
  {
    var p := ParsePacket(bytes);
    if p.Failed? {
      assert bytes[0..] == bytes && bytes[..0] == [];
    } else {
      Reframes(bytes);
      Rewrite(p.rest);
      var r := ReadAll(p.rest);
      RewriteFrame(p.payload, p.rest, r.taken, r.packets);
      ReadsFrame(p.payload, p.rest);
    }
  }

  lemma {:induction false} RewriteFrame(payload: Bytes, rest: Bytes, taken: nat, packets: seq<Bytes>)
    requires |payload| <= BUF_SIZE && taken <= |rest| && Fits(packets) && FrameAll(packets) == rest[..taken]
    ensures var bytes, all := Frame(payload) + rest, 4 + |payload| + taken;
            && Fits([payload] + packets)
            && FrameAll([payload] + packets) == bytes[..all]
            && bytes[all..] == rest[taken..]
  {
    assert ([payload] + packets)[1..] == packets;
    assert (Frame(payload) + rest)[..4 + |payload| + taken] == Frame(payload) + rest[..taken];
  }
}
