/** Binary framing and the incremental frame decoder. */
module Framing {
  import opened Basics
  import opened Codec
  import opened ByteStream
  import opened Crc
  import opened RegisterBits
  import opened Border

  const FRAME_MAGIC: u32 := 0x47464C41
  const MAX_PAYLOAD: u32 := 16 * 1024 * 1024
  const PROTOCOL_VERSION: u16 := 1
  const HEADER: nat := 11
  const TRAILER: nat := 4

  newtype MessageType = x: int | 1 <= x <= 17 witness 1 {
    static const HELLO: MessageType := 1
    static const REGISTER: MessageType := 2
    static const REGISTER_ACK: MessageType := 3
    static const HEARTBEAT: MessageType := 4
    static const DEVICE_SNAPSHOT: MessageType := 5
    static const HEALTH_REPORT: MessageType := 6
    static const CAPABILITY_REPORT: MessageType := 7
    static const DRAIN: MessageType := 8
    static const UNDRAIN: MessageType := 9
    static const QUARANTINE: MessageType := 10
    static const CLEAR_QUARANTINE: MessageType := 11
    static const SNAPSHOT_REQUEST: MessageType := 12
    static const SNAPSHOT_RESPONSE: MessageType := 13
    static const ACK: MessageType := 14
    static const ERROR: MessageType := 15
    static const EPOCH_ROLL: MessageType := 16
    static const SAVE: MessageType := 17
  }

  predicate ValidMessageType(code: u8) { 1 <= code <= 17 }

  datatype Frame = Frame(kind: MessageType, payload: Bytes)

  datatype FrameError = BadMagic | UnknownVersion | InvalidMessageType | OversizedPayload | CrcMismatch

  // ---- The format ----

  function FrameBody(kind: MessageType, payload: Bytes): Bytes {
    PutU32(FRAME_MAGIC, PutU16(PROTOCOL_VERSION, PutU8(kind as u8, PutU32(|payload| % 0x1_0000_0000, payload))))
  }

  function EncodedFrame(f: Frame): Bytes {
    var body := FrameBody(f.kind, f.payload);
    body + PutU32(Crc32(body), [])
  }

  method EncodeFrameBody(kind: MessageType, payload: Bytes) returns (body: Bytes)
    ensures body == FrameBody(kind, payload)
  {
    hide PutU32, PutU16, PutU8;
    var w := new ByteWriter();
    w.U32(FRAME_MAGIC);
    w.U16(PROTOCOL_VERSION);
    w.U8(kind as u8);
    w.U32(|payload| % 0x1_0000_0000);
    w.Raw(payload);
    body := w.buf;
    assert payload + [] == payload;
    Whole(body, FrameBody(kind, payload));
  }

  method EncodeFrame(kind: MessageType, payload: Bytes) returns (out: Bytes)
    ensures out == EncodedFrame(Frame(kind, payload))
  {
    hide PutU32, Crc32, FrameBody;
    var body := EncodeFrameBody(kind, payload);
    var crc := ComputeCrc32(body);
    var c := new ByteWriter();
    c.U32(crc);
    Whole(c.buf, PutU32(crc, []));
    out := body + c.buf;
  }

  /** The four header fields in front of buf. */
  datatype Header = Header(magic: u32, version: u16, kind: u8, length: u32)

  function GetHeader(buf: Bytes): Parsed<Header> {
    var (magic, s) :- GetU32(buf);
    var (version, s) :- GetU16(s);
    var (kind, s) :- GetU8(s);
    var (length, s) :- GetU32(s);
    Got(Header(magic, version, kind, length), s)
  }

  datatype Parse = NeedMore | Ready(frame: Frame, consumed: nat) | Bad(error: FrameError)

  /** What the front of the buffered bytes is: an unfinished frame, a frame, or garbage. */
  function ParseFrame(buf: Bytes): (p: Parse)
    ensures p.Ready? ==> HEADER + TRAILER <= p.consumed <= |buf|
  {
    if |buf| < HEADER + TRAILER then NeedMore else
      var h := GetHeader(buf).value;
      if h.magic != FRAME_MAGIC then Bad(BadMagic) else
      if h.version != PROTOCOL_VERSION then Bad(UnknownVersion) else
      if !ValidMessageType(h.kind) then Bad(InvalidMessageType) else
      if h.length > MAX_PAYLOAD then Bad(OversizedPayload) else
        var total := HEADER + h.length + TRAILER;
        if |buf| < total then NeedMore else
        if Crc32(buf[..total - TRAILER]) != GetU32(buf[total - TRAILER..total]).value then Bad(CrcMismatch) else
          Ready(Frame(h.kind as MessageType, buf[HEADER..HEADER + h.length]), total)
  }

  datatype FeedResult = MoreNeeded | FrameReady(frame: Frame) | FrameFailed(error: FrameError)

  method ReadHeader(buf: Bytes) returns (h: Header)
    requires |buf| >= HEADER
    ensures h == GetHeader(buf).value
  {
    HeaderThere(buf);
    hide GetU32, GetU16, GetU8;
    var head := new ByteReader(buf);
    var ok, magic := head.U32();
    var version, kind, length;
    ok, version := head.U16();
    ok, kind := head.U8();
    ok, length := head.U32();
    h := Header(magic, version, kind, length);
  }

  method ReadTrailer(s: Bytes) returns (crc: u32)
    requires |s| == TRAILER
    ensures crc == GetU32(s).value
  {
    var trailer := new ByteReader(s);
    var ok;
    ok, crc := trailer.U32();
  }

  class FrameDecoder {
    var buf: Bytes

    constructor ()
      ensures buf == []
    {
      buf := [];
    }

    method Feed(data: Bytes) returns (r: FeedResult)
      modifies this
      ensures match ParseFrame(old(buf) + data)
              case NeedMore => r == MoreNeeded && buf == old(buf) + data
              case Bad(e) => r == FrameFailed(e) && buf == old(buf) + data
              case Ready(f, n) => r == FrameReady(f) && buf == (old(buf) + data)[n..]
    {
      hide GetHeader, GetU32, Crc32;
      buf := buf + data;
      if |buf| < HEADER + TRAILER {
        return MoreNeeded;
      }
      var h := ReadHeader(buf);
      if h.magic != FRAME_MAGIC {
        return FrameFailed(BadMagic);
      }
      if h.version != PROTOCOL_VERSION {
        return FrameFailed(UnknownVersion);
      }
      if !ValidMessageType(h.kind) {
        return FrameFailed(InvalidMessageType);
      }
      if h.length > MAX_PAYLOAD {
        return FrameFailed(OversizedPayload);
      }
      var total := HEADER + h.length + TRAILER;
      if |buf| < total {
        return MoreNeeded;
      }
      var stored := ReadTrailer(buf[total - TRAILER..total]);
      var computed := ComputeCrc32(buf[..total - TRAILER]);
      if computed != stored {
        return FrameFailed(CrcMismatch);
      }
      r := FrameReady(Frame(h.kind as MessageType, buf[HEADER..HEADER + h.length]));
      buf := buf[total..];
    }
  }

  // ---- More bytes never change what the first ones are ----

  lemma HeaderThere(buf: Bytes)
    requires |buf| >= HEADER
    ensures GetHeader(buf).Got? && GetHeader(buf).rest == buf[HEADER..]
    ensures GetHeader(buf).value.length == Val(buf[7..HEADER])
  {
    var s, t, u := buf[4..], buf[6..], buf[7..];
    assert GetU32(buf).Got? && GetU32(buf).rest == s;
    assert GetU16(s).Got? && GetU16(s).rest == t;
    assert GetU8(t).Got? && GetU8(t).rest == u;
    assert u[..4] == buf[7..HEADER] && u[4..] == buf[HEADER..];
    assert GetU32(u) == Got(Val(u[..4]), u[4..]);
    hide GetU32, GetU16, GetU8;
  }

  lemma ExtendHeader(buf: Bytes, more: Bytes)
    requires |buf| >= HEADER
    ensures GetHeader(buf).Got? && GetHeader(buf).rest == buf[HEADER..]
    ensures GetHeader(buf + more) == GetHeader(buf).Before(more)
  {
    HeaderThere(buf);
    hide GetU32, GetU16, GetU8;
    var s := SkipU32(buf, more);
    s := SkipU16(s, more);
    s := SkipU8(s, more);
    s := SkipU32(s, more);
  }

  lemma ParseExtend(buf: Bytes, more: Bytes)
    requires !ParseFrame(buf).NeedMore?
    ensures ParseFrame(buf + more) == ParseFrame(buf)
  {
    ExtendHeader(buf, more);
    var h := GetHeader(buf).value;
    var total := HEADER + h.length + TRAILER;
    if total <= |buf| {
      assert (buf + more)[..total - TRAILER] == buf[..total - TRAILER];
      assert (buf + more)[total - TRAILER..total] == buf[total - TRAILER..total];
      assert (buf + more)[HEADER..HEADER + h.length] == buf[HEADER..HEADER + h.length];
    }
  }

  // ---- Draining ----

  /** The frames taken, the bytes left over, and the error that ended the stream if there was one. */
  datatype Drained = Drained(frames: seq<Frame>, rest: Bytes, error: Option<FrameError>)

  /** Parsing buf once, frame after frame. */
  function ParseStream(buf: Bytes): Drained
    decreases |buf|
  {
    match ParseFrame(buf)
    case NeedMore => Drained([], buf, None)
    case Bad(e) => Drained([], buf, Some(e))
    case Ready(f, n) =>
      var d := ParseStream(buf[n..]);
      d.(frames := [f] + d.frames)
  }

  /** One chunk arrives: it is fed and the decoder drained; a failed stream takes no more. */
  function Arrive(d: Drained, chunk: Bytes): Drained {
    if d.error.Some? then d else
      var e := ParseStream(d.rest + chunk);
      Drained(d.frames + e.frames, e.rest, e.error)
  }

  function ArriveAll(d: Drained, chunks: seq<Bytes>): Drained
    decreases chunks
  {
    if chunks == [] then d else ArriveAll(Arrive(d, chunks[0]), chunks[1..])
  }

  function Flatten(chunks: seq<Bytes>): Bytes {
    if chunks == [] then [] else chunks[0] + Flatten(chunks[1..])
  }

  const FRESH: Drained := Drained([], [], None)

  /** The same frames and the same end; without an error also the same unread bytes. */
  predicate Agree(d: Drained, e: Drained) {
    && d.frames == e.frames
    && d.error == e.error
    && (d.error.None? ==> d.rest == e.rest)
  }

  lemma {:induction false} ParseStreamExtend(buf: Bytes, more: Bytes)
    ensures Agree(ParseStream(buf + more), Arrive(ParseStream(buf), more))
    decreases |buf|
  {
    hide ParseFrame;
    match ParseFrame(buf)
    case NeedMore =>
    case Bad(e) =>
      ParseExtend(buf, more);
    case Ready(f, n) =>
      ParseExtend(buf, more);
      assert (buf + more)[n..] == buf[n..] + more;
      ParseStreamExtend(buf[n..], more);
      var d := ParseStream(buf[n..]);
      if d.error.None? {
        assert [f] + (d.frames + ParseStream(d.rest + more).frames) == ([f] + d.frames) + ParseStream(d.rest + more).frames;
      }
  }

  lemma {:induction false} ArriveAllAgrees(buf: Bytes, d: Drained, chunks: seq<Bytes>)
    requires Agree(ParseStream(buf), d)
    ensures Agree(ParseStream(buf + Flatten(chunks)), ArriveAll(d, chunks))
    decreases chunks
  {
    hide ParseFrame, ParseStream;
    if chunks == [] {
      assert buf + Flatten(chunks) == buf;
    } else {
      ParseStreamExtend(buf, chunks[0]);
      ArriveAllAgrees(buf + chunks[0], Arrive(d, chunks[0]), chunks[1..]);
      assert buf + Flatten(chunks) == (buf + chunks[0]) + Flatten(chunks[1..]);
    }
  }

  /** However a stream is cut into chunks, the decoder sees the frames and the first error of the whole stream. */
  lemma ChunkingInvariant(chunks: seq<Bytes>)
    ensures Agree(ArriveAll(FRESH, chunks), ParseStream(Flatten(chunks)))
  {
    assert ParseStream([]) == FRESH;
    ArriveAllAgrees([], FRESH, chunks);
    assert [] + Flatten(chunks) == Flatten(chunks);
  }

  // ---- Encoded frames come back ----

  lemma FrameBodyShape(kind: MessageType, payload: Bytes, rest: Bytes)
    ensures FrameBody(kind, payload) + rest == PutU32(FRAME_MAGIC, PutU16(PROTOCOL_VERSION,
              PutU8(kind as u8, PutU32(|payload| % 0x1_0000_0000, payload + rest))))
    ensures |FrameBody(kind, payload)| == HEADER + |payload|
  {
    hide PutU32, PutU16, PutU8;
    var length := |payload| % 0x1_0000_0000;
    var p := PutU32(length, payload);
    AppendU32(length, payload, rest);
    var q := PutU8(kind as u8, p);
    AppendU8(kind as u8, p, rest);
    var r := PutU16(PROTOCOL_VERSION, q);
    AppendU16(PROTOCOL_VERSION, q, rest);
    AppendU32(FRAME_MAGIC, r, rest);
  }

  lemma EncodedHeader(f: Frame, rest: Bytes)
    ensures GetHeader(EncodedFrame(f) + rest).Got?
    ensures GetHeader(EncodedFrame(f) + rest).value
            == Header(FRAME_MAGIC, PROTOCOL_VERSION, f.kind as u8, |f.payload| % 0x1_0000_0000)
  {
    hide GetU32, GetU16, GetU8, PutU32, PutU16, PutU8, Crc32;
    var body := FrameBody(f.kind, f.payload);
    var crc := PutU32(Crc32(body), []);
    FrameBodyShape(f.kind, f.payload, crc + rest);
    assert EncodedFrame(f) + rest == body + (crc + rest);
  }

  /** Where the parts of an encoded frame are. */
  lemma EncodedParts(f: Frame, rest: Bytes)
    ensures var enc := EncodedFrame(f) + rest; var n := HEADER + |f.payload|;
            && |EncodedFrame(f)| == n + TRAILER
            && enc[..n] == FrameBody(f.kind, f.payload)
            && enc[n..n + TRAILER] == PutU32(Crc32(FrameBody(f.kind, f.payload)), [])
            && enc[HEADER..n] == f.payload
  {
    var body := FrameBody(f.kind, f.payload);
    FrameBodyShape(f.kind, f.payload, []);
    HeaderThere(body);
    assert body + [] == body && f.payload + [] == f.payload;
    hide GetU32, GetU16, GetU8, PutU32, PutU16, PutU8, Crc32, FrameBody;
    assert body[HEADER..] == f.payload;
    var crc := PutU32(Crc32(body), []);
    assert |crc| == TRAILER by { AppendU32(Crc32(body), [], []); }
    var enc := (body + crc) + rest;
    assert enc[..|body|] == body;
    assert enc[|body|..|body| + TRAILER] == crc;
    assert enc[HEADER..|body|] == body[HEADER..];
  }

  /** A frame within the payload bound is read back, whatever follows it; a longer one is refused. */
  lemma EncodedFrameParses(f: Frame, rest: Bytes)
    requires |f.payload| < 0x1_0000_0000
    ensures ParseFrame(EncodedFrame(f) + rest)
            == if |f.payload| <= MAX_PAYLOAD then Ready(f, |EncodedFrame(f)|) else Bad(OversizedPayload)
  {
    hide GetHeader, GetU32, PutU32, Crc32, FrameBody, EncodedFrame;
    EncodedHeader(f, rest);
    EncodedParts(f, rest);
  }

  function EncodedFrames(fs: seq<Frame>): Bytes {
    if fs == [] then [] else EncodedFrame(fs[0]) + EncodedFrames(fs[1..])
  }

  predicate Fits(f: Frame) { |f.payload| <= MAX_PAYLOAD }

  lemma ParseOneMore(f: Frame, tail: Bytes)
    requires |f.payload| < 0x1_0000_0000
    ensures ParseStream(EncodedFrame(f) + tail)
            == if |f.payload| <= MAX_PAYLOAD then ParseStream(tail).(frames := [f] + ParseStream(tail).frames)
               else Drained([], EncodedFrame(f) + tail, Some(OversizedPayload))
  {
    hide ParseFrame, EncodedFrame;
    EncodedFrameParses(f, tail);
    assert (EncodedFrame(f) + tail)[|EncodedFrame(f)|..] == tail;
  }

  /** Encoded frames are parsed exactly up to the first that is too long, which fails the stream. */
  lemma {:induction false} EncodedFramesParse(fs: seq<Frame>)
    requires forall f :: f in fs ==> |f.payload| < 0x1_0000_0000
    ensures var n := Leading(fs, Fits);
            ParseStream(EncodedFrames(fs))
            == Drained(fs[..n], EncodedFrames(fs[n..]), if n == |fs| then None else Some(OversizedPayload))
  {
    hide ParseStream, EncodedFrames, EncodedFrame, Leading;
    if fs == [] {
      NoFrames();
    } else {
      var n := Leading(fs, Fits);
      FrontStep(fs);
      ParseOneMore(fs[0], EncodedFrames(fs[1..]));
      if n == 0 {
        assert fs[..0] == [] && fs[0..] == fs;
      } else {
        EncodedFramesParse(fs[1..]);
        assert [fs[0]] + fs[1..][..n - 1] == fs[..n];
        assert fs[1..][n - 1..] == fs[n..];
      }
    }
  }

  lemma NoFrames()
    ensures Leading([], Fits) == 0 && EncodedFrames([]) == [] && ParseStream([]) == Drained([], [], None)
  {
    assert ParseFrame([]) == NeedMore;
    hide ParseFrame;
  }

  lemma FrontStep(fs: seq<Frame>)
    requires fs != []
    ensures Leading(fs, Fits) == if Fits(fs[0]) then 1 + Leading(fs[1..], Fits) else 0
    ensures EncodedFrames(fs) == EncodedFrame(fs[0]) + EncodedFrames(fs[1..])
  {
    hide EncodedFrame;
  }

  /** So they are received, however the stream is cut into chunks; with nothing left over when none is too long. */
  lemma FramesReceived(fs: seq<Frame>, chunks: seq<Bytes>)
    requires forall f :: f in fs ==> |f.payload| < 0x1_0000_0000
    requires Flatten(chunks) == EncodedFrames(fs)
    ensures var n := Leading(fs, Fits);
            var d := ArriveAll(FRESH, chunks);
            && d.frames == fs[..n] && d.error == (if n == |fs| then None else Some(OversizedPayload))
            && (n == |fs| ==> d.rest == [])
  {
    hide ParseStream, Arrive;
    ChunkingInvariant(chunks);
    EncodedFramesParse(fs);
  }

  /** Unless the stream failed, what stays buffered is shorter than one largest frame and cannot yet be parsed. */
  lemma {:induction false} LeavesPartialFrame(buf: Bytes)
    requires ParseStream(buf).error.None?
    ensures |ParseStream(buf).rest| < HEADER + MAX_PAYLOAD + TRAILER
    ensures ParseFrame(ParseStream(buf).rest).NeedMore?
    decreases |buf|
  {
    if ParseFrame(buf).Ready? {
      LeavesPartialFrame(buf[ParseFrame(buf).consumed..]);
    }
  }

  /** Magic, version and kind are ones the decoder accepts. */
  predicate Proper(h: Header) { h.magic == FRAME_MAGIC && h.version == PROTOCOL_VERSION && ValidMessageType(h.kind) }

  /** Bytes of the right length for their header are a frame exactly when header and checksum are good. */
  lemma WholeFrame(g: Bytes)
    requires |g| >= HEADER + TRAILER && GetHeader(g).value.length == |g| - HEADER - TRAILER <= MAX_PAYLOAD
    ensures ParseFrame(g).Ready? <==> Proper(GetHeader(g).value) && Sealed(g, |g| - TRAILER)
    ensures !ParseFrame(g).Ready? ==> ParseFrame(g).Bad?
  {
    hide GetHeader, GetU32, Crc32;
    var n := |g| - TRAILER;
    assert g[n..n + TRAILER] == g[n..];
  }

  /** A frame damaged within four consecutive bytes, its length field apart, is refused, unless the damage is of the one
    * pattern across the border of payload and checksum that the checksum does not see.
    */
  lemma DamagedFrameRejected(f: Frame, g: Bytes, k: nat)
    requires |f.payload| <= MAX_PAYLOAD
    requires k + 4 <= |EncodedFrame(f)| && DifferWithin(EncodedFrame(f), g, k) && g != EncodedFrame(f)
    requires g[7..HEADER] == EncodedFrame(f)[7..HEADER]
    ensures |EncodedFrame(f)| == HEADER + |f.payload| + TRAILER
    ensures Slips(EncodedFrame(f), g, HEADER + |f.payload|) ==> ParseFrame(g).Ready?
    ensures !Slips(EncodedFrame(f), g, HEADER + |f.payload|) ==> ParseFrame(g).Bad?
  {
    var enc := EncodedFrame(f);
    assert |g| == |enc|;
    hide *;
    var n := HEADER + |f.payload|;
    FrameSealed(f);
    DamagedLength(f, g);
    WholeFrame(g);
    BurstExact(enc, g, k, n);
    if Slips(enc, g, n) {
      SlippedHeader(enc, g, n);
    }
  }

  lemma FrameSealed(f: Frame)
    requires |f.payload| <= MAX_PAYLOAD
    ensures var enc := EncodedFrame(f); var n := HEADER + |f.payload|;
            |enc| == n + TRAILER && Sealed(enc, n) && Proper(GetHeader(enc).value)
  {
    hide GetU32, Crc32, GetHeader, FrameBody, EncodedFrame, PutU32;
    var enc := EncodedFrame(f);
    EncodedParts(f, []);
    EncodedHeader(f, []);
    assert enc + [] == enc;
    var n := HEADER + |f.payload|;
    assert enc[n..n + TRAILER] == enc[n..];
    var body := FrameBody(f.kind, f.payload);
    assert GetU32(PutU32(Crc32(body), [])) == Got(Crc32(body), []);
  }

  /** The pattern leaves the header alone when it leaves the length field alone. */
  lemma SlippedHeader(enc: Bytes, g: Bytes, n: nat)
    requires n >= HEADER && |enc| == |g| == n + TRAILER && Slips(enc, g, n) && g[7..HEADER] == enc[7..HEADER]
    ensures GetHeader(g).value == GetHeader(enc).value
  {
    hide XorByte, GetHeader;
    NoDifference(enc[n - 2], g[n - 2]);
    forall i | 7 <= i < HEADER ensures enc[i] == g[i] {
      assert enc[i] == enc[7..HEADER][i - 7] && g[i] == g[7..HEADER][i - 7];
    }
    assert n >= HEADER + 2;
    assert enc[..HEADER] == enc[..n - 2][..HEADER] && g[..HEADER] == g[..n - 2][..HEADER];
    ExtendHeader(enc[..HEADER], enc[HEADER..]);
    ExtendHeader(g[..HEADER], g[HEADER..]);
    assert enc == enc[..HEADER] + enc[HEADER..] && g == g[..HEADER] + g[HEADER..];
  }

  lemma DamagedLength(f: Frame, g: Bytes)
    requires |g| == |EncodedFrame(f)| && |f.payload| <= MAX_PAYLOAD
    requires g[7..HEADER] == EncodedFrame(f)[7..HEADER]
    ensures GetHeader(g).value.length == |f.payload|
  {
    hide GetU32, Crc32, FrameBody, EncodedFrame, PutU32;
    var enc := EncodedFrame(f);
    EncodedHeader(f, []);
    EncodedParts(f, []);
    assert enc + [] == enc;
    HeaderThere(enc);
    HeaderThere(g);
  }
}
