/** Control messages and their encoding. */
module Message {
  import opened Basics
  import opened Codec
  import opened ByteStream
  import opened Framing
  import opened Records

  datatype Message = Message(
    kind: MessageType, coordinator: u64, epoch: u64, workerBoot: u64, worker: u64, node: u64, agent: u64,
    registrationGeneration: u64, observationGeneration: u64, healthGeneration: u64, deviceGeneration: u64,
    capabilityGeneration: u64, requestId: u64, ok: bool, reason: Text, payload: Bytes)

  /** The longest reason the writer lets through, and the longest the reader takes. */
  const REASON_WRITTEN: u32 := 65535
  const REASON_READ: u32 := 4096

  // ---- The format ----

  function PutMessage(m: Message, rest: Bytes): Bytes {
    PutU8(m.kind as u8, PutEnvelope(m, PutU8(Flag(m.ok), PutText(m.reason, REASON_WRITTEN, PutBlob(m.payload, rest)))))
  }

  function PutEnvelope(m: Message, rest: Bytes): (r: Bytes)
    ensures GetEnvelope(m.kind, r) == Got(m.(ok := true, reason := [], payload := []), rest)
  {
    PutU64(m.coordinator, PutU64(m.epoch, PutU64(m.workerBoot, PutU64(m.worker, PutU64(m.node, PutU64(m.agent,
      PutU64(m.registrationGeneration, PutU64(m.observationGeneration, PutU64(m.healthGeneration,
        PutU64(m.deviceGeneration, PutU64(m.capabilityGeneration, PutU64(m.requestId, rest))))))))))))
  }

  function GetEnvelope(kind: MessageType, s: Bytes): Parsed<Message> {
    var (coordinator, s) :- GetU64(s);
    var (epoch, s) :- GetU64(s);
    var (workerBoot, s) :- GetU64(s);
    var (worker, s) :- GetU64(s);
    var (node, s) :- GetU64(s);
    var (agent, s) :- GetU64(s);
    var (registrationGeneration, s) :- GetU64(s);
    var (observationGeneration, s) :- GetU64(s);
    var (healthGeneration, s) :- GetU64(s);
    var (deviceGeneration, s) :- GetU64(s);
    var (capabilityGeneration, s) :- GetU64(s);
    var (requestId, s) :- GetU64(s);
    Got(Message(kind, coordinator, epoch, workerBoot, worker, node, agent, registrationGeneration,
                observationGeneration, healthGeneration, deviceGeneration, capabilityGeneration, requestId,
                true, [], []), s)
  }

  function GetMessage(s: Bytes): Parsed<Message> {
    var (code, s) :- GetU8(s);
    if !ValidMessageType(code) then Fail(InvalidEnum) else
      var (m, s) :- GetEnvelope(code as MessageType, s).Or(Truncated);
      var (ok, s) :- GetU8(s);
      var (reason, s) :- GetText(s, REASON_READ);
      var (payload, s) :- GetBytes(s, MAX_BLOB).Or(Truncated);
      Got(m.(ok := ok != 0, reason := reason, payload := payload), s)
  }

  function Decoded(data: Bytes): Result<Message> { Entire(GetMessage(data)) }

  // ---- Writing and reading ----

  method EncodeMessage(m: Message) returns (data: Bytes)
    ensures data == PutMessage(m, [])
  {
    hide PutU8, PutU64, PutText, PutBlob;
    var w := new ByteWriter();
    w.U8(m.kind as u8);
    w.U64(m.coordinator);
    w.U64(m.epoch);
    w.U64(m.workerBoot);
    w.U64(m.worker);
    w.U64(m.node);
    w.U64(m.agent);
    w.U64(m.registrationGeneration);
    w.U64(m.observationGeneration);
    w.U64(m.healthGeneration);
    w.U64(m.deviceGeneration);
    w.U64(m.capabilityGeneration);
    w.U64(m.requestId);
    w.U8(Flag(m.ok));
    w.Text(m.reason, REASON_WRITTEN);
    w.Blob(m.payload);
    data := w.buf;
    Whole(data, PutMessage(m, []));
  }

  method ReadEnvelope(r: ByteReader, kind: MessageType) returns (ok: bool, m: Message)
    requires r.Valid()
    modifies r`pos
    ensures r.Took(GetEnvelope(kind, old(r.Rest())), ok, m)
  {
    hide GetU64;
    m := Message(kind, 0, 0, 0, 0, 0, 0, 0, 0, 0, 0, 0, 0, true, [], []);
    var v;
    ok, v := r.U64();
    if !ok { return; }
    m := m.(coordinator := v);
    ok, v := r.U64();
    if !ok { return; }
    m := m.(epoch := v);
    ok, v := r.U64();
    if !ok { return; }
    m := m.(workerBoot := v);
    ok, v := r.U64();
    if !ok { return; }
    m := m.(worker := v);
    ok, v := r.U64();
    if !ok { return; }
    m := m.(node := v);
    ok, v := r.U64();
    if !ok { return; }
    m := m.(agent := v);
    ok, v := r.U64();
    if !ok { return; }
    m := m.(registrationGeneration := v);
    ok, v := r.U64();
    if !ok { return; }
    m := m.(observationGeneration := v);
    ok, v := r.U64();
    if !ok { return; }
    m := m.(healthGeneration := v);
    ok, v := r.U64();
    if !ok { return; }
    m := m.(deviceGeneration := v);
    ok, v := r.U64();
    if !ok { return; }
    m := m.(capabilityGeneration := v);
    ok, v := r.U64();
    if !ok { return; }
    m := m.(requestId := v);
  }

  method DecodeMessage(data: Bytes) returns (r: Result<Message>)
    ensures r == Decoded(data)
  {
    hide GetU8, GetEnvelope, GetBytes;
    TruncatedCount();
    var s := new ByteReader(data);
    var ok, code := s.U8();
    if !ok {
      return Failure(Truncated);
    }
    if !ValidMessageType(code) {
      return Failure(InvalidEnum);
    }
    var m;
    ok, m := ReadEnvelope(s, code as MessageType);
    if !ok {
      return Failure(Truncated);
    }
    var b;
    ok, b := s.U8();
    if !ok {
      return Failure(Truncated);
    }
    m := m.(ok := b != 0);
    var reason;
    ok, reason := s.Text(REASON_READ);
    if !ok {
      return Failure(Truncated);
    }
    m := m.(reason := reason);
    var payload := s.Bytes(MAX_BLOB);
    if payload.Failure? {
      return Failure(Truncated);
    }
    m := m.(payload := payload.value);
    var done := s.Done();
    r := if done then Success(m) else Failure(Malformed);
  }

  // ---- What comes back ----

  /** A message is decoded to itself exactly when its reason and its payload are within the reader's bounds. */
  lemma MessageRoundTrip(m: Message)
    ensures |m.reason| <= REASON_READ && |m.payload| <= MAX_BLOB ==> Decoded(PutMessage(m, [])) == Success(m)
    ensures |m.reason| > REASON_READ || |m.payload| > MAX_BLOB ==> Decoded(PutMessage(m, [])).Failure?
  {
    hide PutU8, PutEnvelope, PutText, PutBlob, GetU8, GetEnvelope, GetText, GetBytes;
    var blob := PutBlob(m.payload, []);
    BlobBack(m.payload, []);
    ReasonBack(m.reason, blob);
  }

  /** A blob comes back when it is short enough; otherwise it is refused, or cut short with bytes left over. */
  lemma BlobBack(b: Bytes, rest: Bytes)
    ensures |b| <= MAX_BLOB ==> GetBytes(PutBlob(b, rest), MAX_BLOB) == Got(b, rest)
    ensures |b| > MAX_BLOB ==> GetBytes(PutBlob(b, rest), MAX_BLOB).Fail? || GetBytes(PutBlob(b, rest), MAX_BLOB).rest != []
  {
    var n := |b| % 0x1_0000_0000;
    assert (b + rest)[..|b|] == b && (b + rest)[|b|..] == rest;
  }

  /** The writer passes reasons the reader does not take: those fail. */
  lemma ReasonBack(t: Text, rest: Bytes)
    ensures |t| <= REASON_READ ==> GetText(PutText(t, REASON_WRITTEN, rest), REASON_READ) == Got(t, rest)
    ensures |t| > REASON_READ ==> GetText(PutText(t, REASON_WRITTEN, rest), REASON_READ) == Fail(Truncated)
  {
    var c := Clip(t, REASON_WRITTEN);
    assert (c + rest)[..|c|] == c && (c + rest)[|c|..] == rest;
    assert GetU32(PutText(t, REASON_WRITTEN, rest)) == Got(|c|, c + rest);
    hide PutU32, GetU32;
  }

  lemma ExtendEnvelope(kind: MessageType, s: Bytes, e: Bytes) returns (r: Bytes)
    requires GetEnvelope(kind, s).Got?
    ensures r == GetEnvelope(kind, s).rest && GetEnvelope(kind, s + e) == Got(GetEnvelope(kind, s).value, r + e)
  {
    hide GetU64;
    r := s;
    r := SkipU64(r, e);
    r := SkipU64(r, e);
    r := SkipU64(r, e);
    r := SkipU64(r, e);
    r := SkipU64(r, e);
    r := SkipU64(r, e);
    r := SkipU64(r, e);
    r := SkipU64(r, e);
    r := SkipU64(r, e);
    r := SkipU64(r, e);
    r := SkipU64(r, e);
    r := SkipU64(r, e);
  }

  lemma MessageExtends()
    ensures Extends(GetMessage)
  {
    forall s: Bytes, e: Bytes | GetMessage(s).Got? ensures GetMessage(s + e) == GetMessage(s).Before(e) {
      hide GetU8, GetEnvelope, GetText, GetBytes;
      var r := SkipU8(s, e);
      r := ExtendEnvelope(GetU8(s).value as MessageType, r, e);
      r := SkipU8(r, e);
      r := SkipText(r, REASON_READ, e);
      r := SkipBytes(r, MAX_BLOB, e);
    }
  }

  /** No encoded message is accepted with anything cut off its end or added to it. */
  lemma MessagePrefixFree(m: Message, data: Bytes)
    requires |m.reason| <= REASON_READ && |m.payload| <= MAX_BLOB
    requires data != PutMessage(m, []) && (data <= PutMessage(m, []) || PutMessage(m, []) <= data)
    ensures Decoded(data).Failure?
  {
    MessageRoundTrip(m);
    MessageExtends();
    hide PutMessage, GetMessage;
    NeitherShorterNorLonger(GetMessage, PutMessage(m, []), data);
  }
}
