/** The bytes of frames, messages and store images, offset by offset: what a reader takes, and nothing else, and why not. */
module Layout {
  import opened Basics
  import opened Codec
  import opened Crc
  import opened Framing
  import M = Message
  import FleetStore
  import SnapshotCodec
  import Persistence

  // ---- Numbers and texts ----

  /** The first n bytes of a text, or all of a shorter one. */
  function Shortened(t: Text, n: nat): Text { if |t| <= n then t else t[..n] }

  /** A text behind its length. */
  function Long(t: Text): Bytes { Big(|t|, 4) + t }

  lemma BigOfVal(b: Bytes)
    ensures Big(Val(b), |b|) == b
  {
    ValBound(b);
    ValBig(Val(b), |b|);
    ValInjective(Big(Val(b), |b|), b);
  }

  lemma NumberForm(s: Bytes, n: nat, v: nat, r: Bytes)
    ensures GetBig(s, n) == Got(v, r) <==> v < Pow256(n) && s == Big(v, n) + r
  {
    if |s| >= n && GetBig(s, n) == Got(v, r) {
      BigOfVal(s[..n]);
      assert s == s[..n] + s[n..];
    }
    if v < Pow256(n) && s == Big(v, n) + r {
      GetPutBig(v, n, r);
    }
  }

  lemma U32Form(s: Bytes, v: u32, r: Bytes)
    ensures GetU32(s) == Got(v, r) <==> s == Big(v, 4) + r
  {
    Widths();
    NumberForm(s, 4, v, r);
  }

  lemma U64Form(s: Bytes, v: u64, r: Bytes)
    ensures GetU64(s) == Got(v, r) <==> s == Big(v, 8) + r
  {
    Widths();
    NumberForm(s, 8, v, r);
  }

  lemma BytesForm(s: Bytes, max: u32, t: Text, r: Bytes)
    ensures GetBytes(s, max) == Got(t, r) <==> |t| <= max && s == Long(t) + r
  {
    hide GetU32, Big;
    if |t| <= max {
      U32Form(s, |t|, t + r);
      assert Big(|t|, 4) + (t + r) == Long(t) + r;
      assert (t + r)[..|t|] == t && (t + r)[|t|..] == r;
    }
    var n := GetU32(s);
    if n.Got? && n.value <= max && n.value <= |n.rest| {
      var u := n.rest[..n.value];
      assert n.rest == u + n.rest[n.value..];
    }
  }

  lemma TextForm(s: Bytes, max: u32, t: Text, r: Bytes)
    ensures GetText(s, max) == Got(t, r) <==> |t| <= max && s == Long(t) + r
  {
    hide GetBytes, Long;
    BytesForm(s, max, t, r);
  }

  lemma ValSnoc(b: Bytes, x: u8)
    ensures Val(b + [x]) == Val(b) * 256 + x
  {
    assert (b + [x])[..|b|] == b;
  }

  lemma Two(b: Bytes, x0: u8, x1: u8)
    requires |b| == 2
    ensures Val(b) == x0 * 256 + x1 <==> b == [x0, x1]
  {
    hide Val;
    Spelling(x0, x1);
    if Val(b) == Val([x0, x1]) {
      ValInjective(b, [x0, x1]);
    }
  }

  lemma Spelling(x0: u8, x1: u8)
    ensures Val([x0, x1]) == x0 * 256 + x1
  {
    ValSnoc([], x0);
    ValSnoc([x0], x1);
    assert [] + [x0] == [x0] && [x0] + [x1] == [x0, x1];
  }

  lemma Four(b: Bytes, x0: u8, x1: u8, x2: u8, x3: u8)
    requires |b| == 4
    ensures Val(b) == ((x0 * 256 + x1) * 256 + x2) * 256 + x3 <==> b == [x0, x1, x2, x3]
  {
    hide Val;
    Spelling(x0, x1);
    ValSnoc([x0, x1], x2);
    ValSnoc([x0, x1, x2], x3);
    assert [x0, x1] + [x2] == [x0, x1, x2] && [x0, x1, x2] + [x3] == [x0, x1, x2, x3];
    if Val(b) == Val([x0, x1, x2, x3]) {
      ValInjective(b, [x0, x1, x2, x3]);
    }
  }

  // ---- Frames ----

  /** The part of a frame that its checksum covers. */
  function FrameFront(kind: MessageType, payload: Bytes): Bytes {
    [0x47, 0x46, 0x4C, 0x41, 0, 1, kind as u8] + (Big(|payload| % 0x1_0000_0000, 4) + payload)
  }

  lemma HeaderReads(b: Bytes)
    requires |b| >= 11
    ensures GetHeader(b).Got?
    ensures var h := GetHeader(b).value;
            h.magic == Val(b[..4]) && h.version == Val(b[4..6]) && h.kind == b[6] && h.length == Val(b[7..11])
  {
    assert b[4..][..2] == b[4..6] && b[4..][2..] == b[6..];
    assert b[6..][0] == b[6] && b[6..][1..] == b[7..];
    assert b[7..][..4] == b[7..11] && b[7..][4..] == b[11..];
    hide Val;
  }

  /** What is wrong with the front of a buffer, by its bytes alone: the first of these in this order. */
  function FaultOf(b: Bytes): Option<FrameError>
    requires |b| >= 15
  {
    if b[..4] != [0x47, 0x46, 0x4C, 0x41] then Some(BadMagic)
    else if b[4..6] != [0, 1] then Some(UnknownVersion)
    else if b[6] == 0 || b[6] > 17 then Some(InvalidMessageType)
    else if Val(b[7..11]) > 16777216 then Some(OversizedPayload)
    else if |b| >= 15 + Val(b[7..11])
            && Big(Crc32(b[..11 + Val(b[7..11])]), 4) != b[11 + Val(b[7..11])..15 + Val(b[7..11])] then Some(CrcMismatch)
    else None
  }

  lemma HeaderFault(b: Bytes)
    requires |b| >= 15
    ensures var h := GetHeader(b).value;
            && GetHeader(b).Got?
            && (h.magic == FRAME_MAGIC <==> b[..4] == [0x47, 0x46, 0x4C, 0x41])
            && (h.version == PROTOCOL_VERSION <==> b[4..6] == [0, 1])
            && h.kind == b[6] && h.length == Val(b[7..11])
  {
    hide Val, GetHeader;
    HeaderReads(b);
    Four(b[..4], 0x47, 0x46, 0x4C, 0x41);
    Two(b[4..6], 0, 1);
  }

  lemma SumFits(b: Bytes, n: nat)
    requires n + 4 <= |b|
    ensures Crc32(b[..n]) == GetU32(b[n..n + 4]).value <==> Big(Crc32(b[..n]), 4) == b[n..n + 4]
  {
    hide Crc32;
    var c, s := Crc32(b[..n]), b[n..n + 4];
    U32Form(s, c, []);
    assert Big(c, 4) + [] == Big(c, 4);
    assert GetU32(s).Got? && GetU32(s).rest == [] by { assert s[4..] == []; }
  }

  /** What the decoder says of a buffer, byte by byte. */
  lemma FrameFaults(b: Bytes)
    ensures |b| < 15 ==> ParseFrame(b) == NeedMore
    ensures |b| >= 15 ==>
              match FaultOf(b)
              case Some(e) => ParseFrame(b) == Bad(e)
              case None =>
                var n := Val(b[7..11]);
                ParseFrame(b) == if |b| < 15 + n then NeedMore else Ready(Frame(b[6] as MessageType, b[11..11 + n]), 15 + n)
  {
    hide Val, GetHeader, Crc32, GetU32, Big;
    if |b| >= 15 {
      HeaderFault(b);
      var n := Val(b[7..11]);
      if |b| >= 15 + n {
        SumFits(b, 11 + n);
      }
    }
  }

  lemma BodyWritten(kind: MessageType, payload: Bytes)
    ensures FrameBody(kind, payload) == FrameFront(kind, payload)
  {
    hide Big;
    BigBytes();
    var s := [kind as u8] + (Big(|payload| % 0x1_0000_0000, 4) + payload);
    assert Big(0x47464C41, 4) + (Big(1, 2) + s) == FrameFront(kind, payload);
  }

  /** A frame is its header, its payload and the checksum of both. */
  lemma FrameWritten(f: Frame)
    ensures var front := FrameFront(f.kind, f.payload); EncodedFrame(f) == front + Big(Crc32(front), 4)
  {
    hide Crc32, Big, FrameBody, FrameFront;
    BodyWritten(f.kind, f.payload);
    assert Big(Crc32(FrameFront(f.kind, f.payload)), 4) + [] == Big(Crc32(FrameFront(f.kind, f.payload)), 4);
  }

  lemma BigBytes()
    ensures Big(0x47464C41, 4) == [0x47, 0x46, 0x4C, 0x41] && Big(1, 2) == [0, 1]
    ensures Big(0x47464C45, 4) == [0x47, 0x46, 0x4C, 0x45] && Big(1, 4) == [0, 0, 0, 1]
  {
  }

  /** A frame is taken off the front of a buffer exactly when its bytes are there, whole, and it is no longer than 16 MiB. */
  lemma FrameTaken(b: Bytes, f: Frame, n: nat)
    ensures var front := FrameFront(f.kind, f.payload);
            ParseFrame(b) == Ready(f, n)
            <==> n == 15 + |f.payload| <= |b| && |f.payload| <= 16777216 && b[..n] == front + Big(Crc32(front), 4)
  {
    hide Crc32, ParseFrame, FrameFront, Big, Val;
    FrameFaults(b);
    var front := FrameFront(f.kind, f.payload);
    if ParseFrame(b) == Ready(f, n) {
      FrontOf(b, f);
      assert b[..n] == b[..n - 4] + b[n - 4..n];
    }
    if n == 15 + |f.payload| <= |b| && |f.payload| <= 16777216 && b[..n] == front + Big(Crc32(front), 4) {
      FrontParts(f.kind, f.payload);
      assert b[..n - 4] == b[..n][..n - 4] == front;
      assert b[..4] == front[..4] && b[4..6] == front[4..6] && b[7..11] == front[7..11] && b[11..n - 4] == front[11..];
      assert b[n - 4..n] == b[..n][n - 4..] == Big(Crc32(front), 4);
    }
  }

  lemma FrontParts(kind: MessageType, payload: Bytes)
    requires |payload| <= 16777216
    ensures var front := FrameFront(kind, payload);
            && |front| == 11 + |payload| && front[..4] == [0x47, 0x46, 0x4C, 0x41] && front[4..6] == [0, 1]
            && front[6] == kind as u8 && Val(front[7..11]) == |payload| && front[11..] == payload
  {
    hide Big, Val;
    Widths();
    ValBig(|payload|, 4);
    var front := FrameFront(kind, payload);
    assert front[7..11] == Big(|payload|, 4);
  }

  /** The bytes before the checksum of a frame that is taken are its front. */
  lemma FrontOf(b: Bytes, f: Frame)
    requires |b| >= 15 && FaultOf(b) == None && |b| >= 15 + Val(b[7..11])
    requires f == Frame(b[6] as MessageType, b[11..11 + Val(b[7..11])])
    ensures b[..11 + |f.payload|] == FrameFront(f.kind, f.payload)
  {
    hide Crc32, Big, Val;
    BigOfVal(b[7..11]);
    var n := |f.payload|;
    assert b[..11 + n] == b[..4] + (b[4..6] + ([b[6]] + (b[7..11] + b[11..11 + n])));
  }

  // ---- Messages ----

  /** The twelve numbers between the kind and the flag. */
  function Twelve(m: M.Message, r: Bytes): Bytes {
    Big(m.coordinator, 8) + (Big(m.epoch, 8) + (Big(m.workerBoot, 8) + (Big(m.worker, 8)
    + (Big(m.node, 8) + (Big(m.agent, 8) + (Big(m.registrationGeneration, 8) + (Big(m.observationGeneration, 8)
    + (Big(m.healthGeneration, 8) + (Big(m.deviceGeneration, 8) + (Big(m.capabilityGeneration, 8)
    + (Big(m.requestId, 8) + r)))))))))))
  }

  lemma EnvelopeThere(m: M.Message, r: Bytes)
    ensures M.GetEnvelope(m.kind, Twelve(m, r)) == Got(m.(ok := true, reason := [], payload := []), r)
  {
    hide Twelve, M.GetEnvelope;
    EnvelopeWritten(m, r);
  }

  lemma Front8(s: Bytes) returns (r: Bytes)
    requires GetU64(s).Got?
    ensures r == GetU64(s).rest && s == Big(GetU64(s).value, 8) + r
  {
    hide Big, GetU64;
    r := GetU64(s).rest;
    U64Form(s, GetU64(s).value, r);
  }

  lemma EnvelopeRead(kind: MessageType, s: Bytes)
    requires M.GetEnvelope(kind, s).Got?
    ensures var e := M.GetEnvelope(kind, s); e.value.kind == kind && s == Twelve(e.value, e.rest)
  {
    hide Big, GetU64;
    var r := Front8(s);
    r := Front8(r);
    r := Front8(r);
    r := Front8(r);
    r := Front8(r);
    r := Front8(r);
    r := Front8(r);
    r := Front8(r);
    r := Front8(r);
    r := Front8(r);
    r := Front8(r);
    r := Front8(r);
  }

  lemma TwelveLong(m: M.Message, r: Bytes)
    ensures |Twelve(m, r)| == 96 + |r| && Twelve(m, r)[96..] == r
  {
    hide Big;
    assert Twelve(m, r)[96..] == r by {
      var a := Big(m.requestId, 8) + r;
      assert a[8..] == r;
      var b := Big(m.deviceGeneration, 8) + (Big(m.capabilityGeneration, 8) + a);
      assert b[16..] == a;
      var c := Big(m.registrationGeneration, 8) + (Big(m.observationGeneration, 8) + (Big(m.healthGeneration, 8) + b));
      assert c[24..] == b;
      var d := Big(m.worker, 8) + (Big(m.node, 8) + (Big(m.agent, 8) + c));
      assert d[24..] == c;
      var e := Big(m.coordinator, 8) + (Big(m.epoch, 8) + (Big(m.workerBoot, 8) + d));
      assert e[24..] == d;
    }
  }

  /** The bytes of a message, with the given byte for its flag: a byte, twelve numbers of eight bytes, a byte, two texts. */
  function MessageBytes(m: M.Message, flag: u8): Bytes {
    [m.kind as u8] + Twelve(m, [flag] + (Long(m.reason) + Long(m.payload)))
  }

  lemma FlagAt(m: M.Message, flag: u8)
    ensures |MessageBytes(m, flag)| > 97 && MessageBytes(m, flag)[97] == flag
    ensures MessageBytes(m, flag)[0] == m.kind as u8
  {
    hide Twelve, Long;
    var r := [flag] + (Long(m.reason) + Long(m.payload));
    TwelveLong(m, r);
    assert MessageBytes(m, flag)[97] == Twelve(m, r)[96] == Twelve(m, r)[96..][0];
  }

  lemma MessageRead(data: Bytes)
    requires M.Decoded(data).Success?
    ensures var m := M.Decoded(data).value;
            && |data| > 97 && data == MessageBytes(m, data[97]) && (m.ok <==> data[97] != 0)
            && |m.reason| <= 4096 && |m.payload| <= 0x7FFF_FFFF
  {
    hide M.GetEnvelope, GetText, GetBytes, Twelve, Long;
    var m := M.Decoded(data).value;
    var kind := data[0] as MessageType;
    var e := M.GetEnvelope(kind, data[1..]);
    EnvelopeRead(kind, data[1..]);
    var flag := e.rest[0];
    var reason := GetText(e.rest[1..], 4096);
    TextForm(e.rest[1..], 4096, reason.value, reason.rest);
    var payload := GetBytes(reason.rest, 0x7FFF_FFFF);
    BytesForm(reason.rest, 0x7FFF_FFFF, payload.value, []);
    assert Long(payload.value) + [] == Long(payload.value);
    assert data == [data[0]] + data[1..] && e.rest == [flag] + e.rest[1..];
    SameTwelve(e.value, m, e.rest);
    FlagAt(m, flag);
  }

  lemma SameTwelve(l: M.Message, m: M.Message, r: Bytes)
    requires m == l.(ok := m.ok, reason := m.reason, payload := m.payload)
    ensures Twelve(l, r) == Twelve(m, r)
  {
    hide Big;
  }

  lemma MessageThere(m: M.Message, flag: u8)
    requires (m.ok <==> flag != 0) && |m.reason| <= 4096 && |m.payload| <= 0x7FFF_FFFF
    ensures M.Decoded(MessageBytes(m, flag)) == Success(m)
  {
    hide M.GetEnvelope, GetText, GetBytes, Twelve, Long;
    var data := MessageBytes(m, flag);
    var r := [flag] + (Long(m.reason) + Long(m.payload));
    assert data[0] == m.kind as u8 && data[1..] == Twelve(m, r);
    EnvelopeThere(m, r);
    assert r[0] == flag && r[1..] == Long(m.reason) + Long(m.payload);
    TextForm(r[1..], 4096, m.reason, Long(m.payload));
    assert Long(m.payload) + [] == Long(m.payload);
    BytesForm(Long(m.payload), 0x7FFF_FFFF, m.payload, []);
  }

  /** Data is taken for a message exactly when its bytes are those of the message, with any byte but zero for a flag that is set;
    * the reason takes up to 4096 bytes.
    */
  lemma MessageTaken(data: Bytes, m: M.Message)
    ensures M.Decoded(data) == Success(m)
            <==> && |data| > 97 && data == MessageBytes(m, data[97]) && (m.ok <==> data[97] != 0)
                 && |m.reason| <= 4096 && |m.payload| <= 0x7FFF_FFFF
  {
    hide M.Decoded, MessageBytes;
    if M.Decoded(data).Success? {
      MessageRead(data);
    }
    if && |data| > 97 && data == MessageBytes(m, data[97]) && (m.ok <==> data[97] != 0)
       && |m.reason| <= 4096 && |m.payload| <= 0x7FFF_FFFF {
      MessageThere(m, data[97]);
    }
  }

  lemma TextWritten(t: Text, max: u32, r: Bytes)
    ensures PutText(t, max, r) == Long(Shortened(t, max)) + r
  {
    hide Big;
    var c := Clip(t, max);
    assert Big(|c|, 4) + (c + r) == Long(c) + r;
  }

  lemma BlobWritten(b: Bytes)
    requires |b| < 0x1_0000_0000
    ensures PutBlob(b, []) == Long(b)
  {
    hide Big;
    assert b + [] == b;
  }

  /** A message is written with a byte of 1 for a flag that is set, and with up to 65535 bytes of its reason. */
  lemma MessageWritten(m: M.Message)
    requires |m.payload| < 0x1_0000_0000
    ensures M.PutMessage(m, []) == MessageBytes(m.(reason := Shortened(m.reason, 65535)), if m.ok then 1 else 0)
  {
    hide Long, PutText, PutBlob, Twelve, M.PutEnvelope;
    TextWritten(m.reason, 65535, PutBlob(m.payload, []));
    BlobWritten(m.payload);
    var n := m.(reason := Shortened(m.reason, 65535));
    var r := [if m.ok then 1 else 0] + (Long(n.reason) + Long(m.payload));
    SameTwelve(n, m, r);
    EnvelopeWritten(m, r);
  }

  lemma EnvelopeWritten(m: M.Message, r: Bytes)
    ensures M.PutEnvelope(m, r) == Twelve(m, r)
  {
    hide Big;
  }

  // ---- Store images ----

  /** The part of an image that its checksum covers. */
  function ImageFront(body: Bytes): Bytes {
    [0x47, 0x46, 0x4C, 0x45, 0, 0, 0, 1] + (Big(|body| % 0x1_0000_0000_0000_0000, 8) + body)
  }

  lemma ImageHeaderReads(b: Bytes)
    requires |b| >= 16
    ensures Persistence.GetHeader(b).Got?
    ensures var h := Persistence.GetHeader(b).value;
            h.magic == Val(b[..4]) && h.version == Val(b[4..8]) && h.length == Val(b[8..16])
  {
    assert b[4..][..4] == b[4..8] && b[4..][4..] == b[8..];
    assert b[8..][..8] == b[8..16];
    hide Val;
  }

  lemma ImageHeaderFault(b: Bytes)
    requires |b| >= 16
    ensures Persistence.GetHeader(b).Got?
    ensures var h := Persistence.GetHeader(b).value;
            && (h.magic == Persistence.STORE_MAGIC <==> b[..4] == [0x47, 0x46, 0x4C, 0x45])
            && (h.version == Persistence.SCHEMA_VERSION <==> b[4..8] == [0, 0, 0, 1])
            && h.length == Val(b[8..16])
  {
    hide Val, Persistence.GetHeader;
    ImageHeaderReads(b);
    Four(b[..4], 0x47, 0x46, 0x4C, 0x45);
    Four(b[4..8], 0, 0, 0, 1);
  }

  /** Why an image is refused before its payload is decoded, by its bytes alone: the first of these in this order. */
  function ImageFault(b: Bytes): Option<Status> {
    if |b| < 20 then Some(Truncated)
    else if b[..4] != [0x47, 0x46, 0x4C, 0x45] then Some(Corrupt)
    else if b[4..8] != [0, 0, 0, 1] then Some(VersionMismatch)
    else if Val(b[8..16]) > 0x8000_0000 then Some(OutOfBounds)
    else if |b| != 20 + Val(b[8..16]) then Some(Truncated)
    else if Big(Crc32(b[..|b| - 4]), 4) != b[|b| - 4..] then Some(Corrupt)
    else None
  }

  /** What the loader says of an image, byte by byte. */
  lemma ImageFaults(b: Bytes)
    ensures match ImageFault(b)
            case Some(why) => Persistence.Inspect(b) == Failure(why)
            case None => |b| >= 20 && Persistence.Inspect(b) == Success(b[16..|b| - 4])
  {
    hide Val, Persistence.GetHeader, Crc32, GetU32, Big;
    if |b| >= 20 {
      ImageHeaderFault(b);
      if |b| == 20 + Val(b[8..16]) {
        SumFits(b, |b| - 4);
        assert b[|b| - 4..] == b[|b| - 4..|b| - 4 + 4];
      }
    }
  }

  lemma CheckedWritten(body: Bytes)
    ensures Persistence.Checked(body) == ImageFront(body)
  {
    hide Big;
    BigBytes();
    var r := Big(|body| % 0x1_0000_0000_0000_0000, 8) + body;
    assert Big(0x47464C45, 4) + (Big(1, 4) + r) == ImageFront(body);
  }

  /** A store image is its header, the snapshot's payload and the checksum of both. */
  lemma ImageWritten(s: FleetStore.Snapshot)
    ensures var front := ImageFront(SnapshotCodec.PutSnapshot(s, [])); Persistence.Image(s) == front + Big(Crc32(front), 4)
  {
    hide Crc32, Big, SnapshotCodec.PutSnapshot, Persistence.Checked, ImageFront;
    var body := SnapshotCodec.PutSnapshot(s, []);
    CheckedWritten(body);
    assert Big(Crc32(ImageFront(body)), 4) + [] == Big(Crc32(ImageFront(body)), 4);
  }
}
