/** The coordinator's side of a connection: bytes to frames, frames to messages, messages to calls on the store. */
module Coordinator {
  import opened Basics
  import opened Codec
  import opened Identity
  import opened Device
  import opened Pipeline
  import opened Fleet
  import opened FleetStore
  import opened Framing
  import opened Message
  import M = Message
  import RegistrationCodec
  import ObservationCodec
  import opened Agent

  const DEFAULT_POLICY: Policy := Policy(24 * 60 * 60 * 1000, [], ComputeCapability(0, 0), 0, true, [])

  // ---- Administrative payloads ----

  const TARGET: u32 := 1024

  function GetIdentityTarget(s: Bytes): Parsed<Text> { GetText(s, TARGET) }

  function GetDrainTarget(s: Bytes): Parsed<(Text, DrainState)> {
    var (identity, s) :- GetText(s, TARGET);
    var (level, s) :- GetU8(s);
    if level as DrainState > DrainState.DRAINED then Fail(InvalidEnum) else Got((identity, level as DrainState), s)
  }

  /** The device, and the quarantine applied to it at the given time and epoch. */
  function GetQuarantine(s: Bytes, at: Timestamp, epoch: u64): Parsed<(Text, QuarantineRecord)> {
    var (identity, s) :- GetText(s, TARGET);
    var (reason, s) :- GetText(s, 512);
    var (source, s) :- GetText(s, 128);
    var (generation, s) :- GetU64(s);
    Got((identity, QuarantineRecord(reason, source, generation, at, 0, epoch)), s)
  }

  // ---- Dispatch ----

  function Granted<T>(r: Result<T>, f: T -> Op): Option<Op> {
    match r
    case Failure(_) => None
    case Success(x) => Some(f(x))
  }

  predicate IsReport(k: MessageType) {
    k == MessageType.DEVICE_SNAPSHOT || k == MessageType.HEALTH_REPORT || k == MessageType.CAPABILITY_REPORT
  }

  /** The call on the store that a message asks for, if it asks for one. */
  function OpOf(epoch: u64, m: M.Message, now: Timestamp): Option<Op> {
    if m.kind == MessageType.REGISTER then
      Granted(RegistrationCodec.Decoded(m.payload), (reg: Registration) => Op.Register(reg, now))
    else if m.kind == MessageType.HEARTBEAT then
      if m.workerBoot != 0 || m.worker != 0 then Some(Op.Heartbeat(m.worker, m.workerBoot, m.epoch, now)) else None
    else if IsReport(m.kind) then
      Granted(ObservationCodec.DecodedBatch(m.payload),
              (obs: seq<Observation>) => Op.Ingest(m.worker, obs, DEFAULT_POLICY, now))
    else if m.kind == MessageType.DRAIN || m.kind == MessageType.UNDRAIN then
      Granted(Entire(GetDrainTarget(m.payload)), (t: (Text, DrainState)) => Op.SetDrain(t.0, t.1, now))
    else if m.kind == MessageType.QUARANTINE then
      Granted(Entire(GetQuarantine(m.payload, now, epoch)), (t: (Text, QuarantineRecord)) => Op.SetQuarantine(t.0, t.1, now))
    else if m.kind == MessageType.CLEAR_QUARANTINE then
      Granted(Entire(GetIdentityTarget(m.payload)), (k: Text) => Op.ClearQuarantine(k, epoch, now))
    else if m.kind == MessageType.EPOCH_ROLL then Some(Op.RollEpoch(m.epoch))
    else None
  }

  function Dispatched(s: State, m: M.Message, now: Timestamp): State {
    match OpOf(s.epoch, m, now)
    case None => s
    case Some(op) => Step(s, op)
  }

  /** Carries out one call. */
  method Call(store: FleetStateStore, op: Op)
    modifies store
    ensures store.Abs() == Step(old(store.Abs()), op)
  {
    hide PlanOf, ApplyAll;
    match op
    case RollEpoch(e) => var r := store.RollEpoch(e);
    case Register(reg, now) => var r := store.RegisterWorker(reg, now);
    case MarkLost(w) => store.MarkWorkerLost(w);
    case Ingest(w, obs, policy, now) => var r := store.IngestSnapshot(w, obs, policy, now);
    case Heartbeat(w, boot, epoch, now) => var r := store.Heartbeat(w, boot, epoch, now);
    case SetDrain(k, to, now) => var r := store.SetDrain(k, to, now);
    case SetQuarantine(k, q, now) => var r := store.SetQuarantine(k, q, now);
    case ClearQuarantine(k, epoch, now) => var r := store.ClearQuarantine(k, epoch, now);
  }

  method Dispatch(store: FleetStateStore, m: M.Message, now: Timestamp)
    modifies store
    ensures store.Abs() == Dispatched(old(store.Abs()), m, now)
  {
    hide Step, RegistrationCodec.Decoded, ObservationCodec.DecodedBatch, GetDrainTarget, GetQuarantine, GetIdentityTarget;
    if m.kind == MessageType.REGISTER {
      var reg := RegistrationCodec.DecodeRegistration(m.payload);
      if reg.Success? {
        Call(store, Op.Register(reg.value, now));
      }
    } else if m.kind == MessageType.HEARTBEAT {
      if m.workerBoot != 0 || m.worker != 0 {
        Call(store, Op.Heartbeat(m.worker, m.workerBoot, m.epoch, now));
      }
    } else if IsReport(m.kind) {
      var obs := ObservationCodec.DecodeBatch(m.payload);
      if obs.Success? {
        Call(store, Op.Ingest(m.worker, obs.value, DEFAULT_POLICY, now));
      }
    } else if m.kind == MessageType.DRAIN || m.kind == MessageType.UNDRAIN {
      var t := Entire(GetDrainTarget(m.payload));
      if t.Success? {
        Call(store, Op.SetDrain(t.value.0, t.value.1, now));
      }
    } else if m.kind == MessageType.QUARANTINE {
      var t := Entire(GetQuarantine(m.payload, now, store.epoch));
      if t.Success? {
        Call(store, Op.SetQuarantine(t.value.0, t.value.1, now));
      }
    } else if m.kind == MessageType.CLEAR_QUARANTINE {
      var t := Entire(GetIdentityTarget(m.payload));
      if t.Success? {
        Call(store, Op.ClearQuarantine(t.value, store.epoch, now));
      }
    } else if m.kind == MessageType.EPOCH_ROLL {
      Call(store, Op.RollEpoch(m.epoch));
    }
  }

  // ---- A connection ----

  /** What a connection has come to: the store, the worker registered on it, the messages handled, and whether it was
    * dropped for a malformed one.
    */
  datatype Session = Session(store: State, bound: Option<u64>, handled: nat, dropped: bool)

  function Handle(c: Session, f: Frame, clock: nat -> Timestamp): Session {
    if c.dropped then c else
      match M.Decoded(f.payload)
      case Failure(_) => c.(dropped := true)
      case Success(m) =>
        Session(Dispatched(c.store, m, clock(c.handled)),
                if m.kind == MessageType.REGISTER then Some(m.worker) else c.bound, c.handled + 1, false)
  }

  function HandleAll(c: Session, fs: seq<Frame>, clock: nat -> Timestamp): Session
    decreases fs
  {
    if fs == [] then c else HandleAll(Handle(c, fs[0], clock), fs[1..], clock)
  }

  function Opened(s: State): Session { Session(s, None, 0, false) }

  /** The store after a connection that ended in c has closed. */
  function Closed(c: Session): State {
    match c.bound
    case None => c.store
    case Some(w) => Step(c.store, MarkLost(w))
  }

  /** The store after a connection has carried stream and closed. A connection dropped for a malformed message or frame
    * marks nobody lost.
    */
  function Served(s: State, stream: Bytes, clock: nat -> Timestamp): State {
    var d := ParseStream(stream);
    var c := HandleAll(Opened(s), d.frames, clock);
    if c.dropped || d.error.Some? then c.store else Closed(c)
  }

  /** What is still to come from a decoder that has just answered r. */
  function Ahead(r: FeedResult, buf: Bytes): Drained {
    match r
    case MoreNeeded => Drained([], buf, None)
    case FrameFailed(e) => Drained([], buf, Some(e))
    case FrameReady(f) =>
      var d := ParseStream(buf);
      d.(frames := [f] + d.frames)
  }

  lemma {:induction false} HandleConcat(c: Session, a: seq<Frame>, b: seq<Frame>, clock: nat -> Timestamp)
    ensures HandleAll(c, a + b, clock) == HandleAll(HandleAll(c, a, clock), b, clock)
    decreases a
  {
    hide Handle;
    if a == [] {
      assert a + b == b;
    } else {
      assert (a + b)[0] == a[0] && (a + b)[1..] == a[1..] + b;
      HandleConcat(Handle(c, a[0], clock), a[1..], b, clock);
    }
  }

  lemma {:induction false} DroppedStays(c: Session, fs: seq<Frame>, clock: nat -> Timestamp)
    requires c.dropped
    ensures HandleAll(c, fs, clock) == c
    decreases fs
  {
    if fs != [] {
      assert Handle(c, fs[0], clock) == c;
      DroppedStays(c, fs[1..], clock);
    }
  }

  lemma HandleOne(c: Session, f: Frame, clock: nat -> Timestamp)
    ensures HandleAll(c, [f], clock) == Handle(c, f, clock)
  {
    hide Handle;
    assert [f][1..] == [];
  }

  lemma {:induction false} ArriveConcat(d: Drained, a: seq<Bytes>, b: seq<Bytes>)
    ensures ArriveAll(d, a + b) == ArriveAll(ArriveAll(d, a), b)
    decreases a
  {
    hide Arrive;
    if a == [] {
      assert a + b == b;
    } else {
      assert (a + b)[0] == a[0] && (a + b)[1..] == a[1..] + b;
      ArriveConcat(Arrive(d, a[0]), a[1..], b);
    }
  }

  lemma {:induction false} ArriveExtends(d: Drained, chunks: seq<Bytes>)
    ensures d.frames <= ArriveAll(d, chunks).frames
    ensures d.error.Some? ==> ArriveAll(d, chunks) == d
    decreases chunks
  {
    hide ParseStream;
    if chunks != [] {
      ArriveExtends(Arrive(d, chunks[0]), chunks[1..]);
    }
  }

  lemma ArriveSnoc(d: Drained, a: seq<Bytes>, chunk: Bytes)
    ensures ArriveAll(d, a + [chunk]) == Arrive(ArriveAll(d, a), chunk)
  {
    hide Arrive;
    ArriveConcat(d, a, [chunk]);
    var none: seq<Bytes> := [];
    assert [chunk][1..] == none;
    var e := ArriveAll(d, a);
    assert ArriveAll(Arrive(e, chunk), none) == Arrive(e, chunk);
  }

  lemma ArriveOne(chunks: seq<Bytes>, j: nat)
    requires j < |chunks|
    ensures ArriveAll(FRESH, chunks[..j + 1]) == Arrive(ArriveAll(FRESH, chunks[..j]), chunks[j])
    ensures ArriveAll(FRESH, chunks) == ArriveAll(ArriveAll(FRESH, chunks[..j + 1]), chunks[j + 1..])
  {
    hide Arrive, ArriveAll;
    assert chunks[..j + 1] == chunks[..j] + [chunks[j]];
    ArriveSnoc(FRESH, chunks[..j], chunks[j]);
    assert chunks == chunks[..j + 1] + chunks[j + 1..];
    ArriveConcat(FRESH, chunks[..j + 1], chunks[j + 1..]);
  }

  /** A malformed message ends the matter: whatever else the stream holds, the store stays as it is. */
  lemma ServedDropped(s: State, chunks: seq<Bytes>, j: nat, known: seq<Frame>, c: Session, clock: nat -> Timestamp)
    requires j < |chunks| && known <= ArriveAll(FRESH, chunks[..j + 1]).frames
    requires c == HandleAll(Opened(s), known, clock) && c.dropped
    ensures Served(s, Flatten(chunks), clock) == c.store
  {
    hide ParseStream, Arrive, HandleAll, Step;
    ArriveOne(chunks, j);
    ArriveExtends(ArriveAll(FRESH, chunks[..j + 1]), chunks[j + 1..]);
    var all := ArriveAll(FRESH, chunks).frames;
    ChunkingInvariant(chunks);
    assert known <= all;
    assert all == known + all[|known|..];
    HandleConcat(Opened(s), known, all[|known|..], clock);
    DroppedStays(c, all[|known|..], clock);
  }

  /** A malformed frame ends it too. */
  lemma ServedFailed(s: State, chunks: seq<Bytes>, j: nat, c: Session, clock: nat -> Timestamp)
    requires j < |chunks| && ArriveAll(FRESH, chunks[..j + 1]).error.Some?
    requires c == HandleAll(Opened(s), ArriveAll(FRESH, chunks[..j + 1]).frames, clock)
    ensures Served(s, Flatten(chunks), clock) == c.store
  {
    hide ParseStream, Arrive, HandleAll, Step;
    ArriveOne(chunks, j);
    ArriveExtends(ArriveAll(FRESH, chunks[..j + 1]), chunks[j + 1..]);
    ChunkingInvariant(chunks);
  }

  /** One frame more. */
  lemma OneMore(c: Session, done: seq<Frame>, f: Frame, s: State, clock: nat -> Timestamp)
    requires c == HandleAll(Opened(s), done, clock)
    ensures Handle(c, f, clock) == HandleAll(Opened(s), done + [f], clock)
  {
    hide HandleAll, Handle;
    HandleConcat(Opened(s), done, [f], clock);
    HandleOne(c, f, clock);
  }

  /** Feeds a chunk; what the decoder then holds is what draining would find. */
  method FeedChunk(dec: FrameDecoder, chunk: Bytes) returns (r: FeedResult)
    modifies dec
    ensures Ahead(r, dec.buf) == ParseStream(old(dec.buf) + chunk)
    ensures |dec.buf| <= |old(dec.buf)| + |chunk| && (r.FrameReady? ==> |dec.buf| < |old(dec.buf)| + |chunk|)
  {
    hide ParseFrame;
    r := dec.Feed(chunk);
  }

  /** Serves one connection from its first bytes to its end; the clock gives the time of each message handled. */
  method HandleConnection(store: FleetStateStore, chunks: seq<Bytes>, clock: nat -> Timestamp)
    modifies store
    ensures store.Abs() == Served(old(store.Abs()), Flatten(chunks), clock)
  {
    hide ParseStream, Arrive, ArriveAll, Flatten, HandleAll, Step, M.Decoded, Dispatched, Served;
    ghost var s := store.Abs();
    var dec := new FrameDecoder();
    var worker: u64, bound, handled := 0, false, 0;
    StartOfService(s, clock);
    for j := 0 to |chunks|
      invariant fresh(dec)
      invariant ArriveAll(FRESH, chunks[..j]).error == None
      invariant dec.buf == ArriveAll(FRESH, chunks[..j]).rest
      invariant Session(store.Abs(), if bound then Some(worker) else None, handled, false)
                == HandleAll(Opened(s), ArriveAll(FRESH, chunks[..j]).frames, clock)
    {
      ghost var d := ArriveAll(FRESH, chunks[..j]);
      ghost var e := ParseStream(d.rest + chunks[j]);
      ArriveOne(chunks, j);
      Arrived(d, chunks[j]);
      ghost var done := d.frames;
      var r := FeedChunk(dec, chunks[j]);
      while r.FrameReady?
        invariant fresh(dec)
        invariant d.frames + e.frames == done + Ahead(r, dec.buf).frames
        invariant e.rest == Ahead(r, dec.buf).rest && e.error == Ahead(r, dec.buf).error
        invariant Session(store.Abs(), if bound then Some(worker) else None, handled, false)
                  == HandleAll(Opened(s), done, clock)
        decreases |dec.buf|, r.FrameReady?
      {
        ghost var c := HandleAll(Opened(s), done, clock);
        OneMore(c, done, r.frame, s, clock);
        assert done + ([r.frame] + ParseStream(dec.buf).frames) == (done + [r.frame]) + ParseStream(dec.buf).frames;
        var m := DecodeMessage(r.frame.payload);
        if m.Failure? {
          ServedDropped(s, chunks, j, done + [r.frame], Handle(c, r.frame, clock), clock);
          return;
        }
        Dispatch(store, m.value, clock(handled));
        handled := handled + 1;
        if m.value.kind == MessageType.REGISTER {
          worker := m.value.worker;
          bound := true;
        }
        done := done + [r.frame];
        assert dec.buf + [] == dec.buf;
        r := FeedChunk(dec, []);
      }
      assert done + [] == done;
      if r.FrameFailed? {
        ServedFailed(s, chunks, j, HandleAll(Opened(s), done, clock), clock);
        return;
      }
    }
    assert chunks[..|chunks|] == chunks;
    EndOfService(s, chunks, clock);
    if bound {
      store.MarkWorkerLost(worker);
    }
  }

  lemma StartOfService(s: State, clock: nat -> Timestamp)
    ensures forall chunks: seq<Bytes> :: ArriveAll(FRESH, chunks[..0]) == FRESH
    ensures HandleAll(Opened(s), [], clock) == Opened(s)
  {
  }

  lemma Arrived(d: Drained, chunk: Bytes)
    requires d.error.None?
    ensures var e := ParseStream(d.rest + chunk); Arrive(d, chunk) == Drained(d.frames + e.frames, e.rest, e.error)
  {
  }

  lemma EndOfService(s: State, chunks: seq<Bytes>, clock: nat -> Timestamp)
    requires ArriveAll(FRESH, chunks).error.None?
    ensures var c := HandleAll(Opened(s), ArriveAll(FRESH, chunks).frames, clock);
            !c.dropped ==> Served(s, Flatten(chunks), clock) == Closed(c)
  {
    hide ParseStream, Arrive, HandleAll, Step;
    ChunkingInvariant(chunks);
  }

  // ---- Whole conversations ----

  /** The session after messages, each dispatched in turn. */
  function Converse(c: Session, ms: seq<M.Message>, clock: nat -> Timestamp): Session
    decreases ms
  {
    if ms == [] then c else
      Converse(Session(Dispatched(c.store, ms[0], clock(c.handled)),
                       if ms[0].kind == MessageType.REGISTER then Some(ms[0].worker) else c.bound, c.handled + 1, false),
               ms[1..], clock)
  }

  /** A message that can be sent: its reason is within the reader's bound and it fits a frame. */
  predicate Carried(m: M.Message) { |m.reason| <= REASON_READ && |PutMessage(m, [])| <= MAX_PAYLOAD }

  /** A message whose length can be written in the 32 bits a frame has for it. */
  predicate Framable(m: M.Message) { |PutMessage(m, [])| < 0x1_0000_0000 }

  lemma {:induction false} FramesConverse(c: Session, ms: seq<M.Message>, clock: nat -> Timestamp)
    requires !c.dropped && forall m :: m in ms ==> Carried(m)
    ensures HandleAll(c, MapSeq(FrameOf, ms), clock) == Converse(c, ms, clock)
    decreases ms
  {
    hide PutMessage, M.Decoded, Dispatched;
    var fs := MapSeq(FrameOf, ms);
    if ms == [] {
      assert fs == [];
    } else {
      assert fs[1..] == MapSeq(FrameOf, ms[1..]);
      assert Carried(ms[0]) && forall m :: m in ms[1..] ==> m in ms;
      PayloadWithin(ms[0]);
      MessageRoundTrip(ms[0]);
      FramesConverse(Handle(c, fs[0], clock), ms[1..], clock);
    }
  }

  /** A message that fits a frame but cannot be sent ends the conversation; so does whatever follows it, unheard. */
  lemma DroppedThere(c: Session, ms: seq<M.Message>, k: nat, clock: nat -> Timestamp)
    requires !c.dropped && Leading(ms, Carried) < k <= |ms|
    requires |PutMessage(ms[Leading(ms, Carried)], [])| <= MAX_PAYLOAD
    ensures HandleAll(c, MapSeq(FrameOf, ms)[..k], clock) == Converse(c, ms[..Leading(ms, Carried)], clock).(dropped := true)
  {
    hide PutMessage, M.Decoded, Dispatched, HandleAll, Converse;
    var n, fs := Leading(ms, Carried), MapSeq(FrameOf, ms);
    var d := Converse(c, ms[..n], clock);
    assert fs[..n] == MapSeq(FrameOf, ms[..n]);
    FramesConverse(c, ms[..n], clock);
    NeverDropped(c, ms[..n], clock);
    MessageRoundTrip(ms[n]);
    assert Handle(d, fs[n], clock) == d.(dropped := true);
    assert fs[..k] == fs[..n] + ([fs[n]] + fs[n + 1..k]);
    HandleConcat(c, fs[..n], [fs[n]] + fs[n + 1..k], clock);
    HandleConcat(d, [fs[n]], fs[n + 1..k], clock);
    HandleOne(d, fs[n], clock);
    DroppedStays(d.(dropped := true), fs[n + 1..k], clock);
  }

  predicate AllCarried(ms: seq<M.Message>) { Leading(ms, Carried) == |ms| }

  /** The session after those messages that come before the first that cannot be sent. */
  function Heard(s: State, ms: seq<M.Message>, clock: nat -> Timestamp): Session {
    Converse(Opened(s), ms[..Leading(ms, Carried)], clock)
  }

  /** The store when a connection ends, at its close or by being dropped. */
  function Ended(c: Session, closed: bool): State { if closed then Closed(c) else c.store }

  /** End to end: messages encoded, framed, cut into any chunks and served do to the store exactly what dispatching
    * them one after another does, up to the first that cannot be sent. When there is none, closing then marks the worker
    * registered last on the connection lost; otherwise the connection is dropped and nobody is.
    */
  lemma ConversationServed(s: State, ms: seq<M.Message>, chunks: seq<Bytes>, clock: nat -> Timestamp)
    requires forall m :: m in ms ==> Framable(m)
    requires Flatten(chunks) == EncodedFrames(MapSeq(FrameOf, ms))
    ensures Served(s, Flatten(chunks), clock) == Ended(Heard(s, ms, clock), AllCarried(ms))
  {
    hide *;
    OpenedFresh(s);
    var n := Leading(ms, Carried);
    var e := Converse(Opened(s), ms[..n], clock);
    var k, frames := FramesHeard(ms);
    HandledThrough(Opened(s), ms, k, clock);
    var c := HandleAll(Opened(s), frames, clock);
    ServedAs(s, Flatten(chunks), frames, k < |ms|, c, clock);
    SameClosing(c, e);
    HeardMeans(s, ms, clock);
  }

  lemma HeardMeans(s: State, ms: seq<M.Message>, clock: nat -> Timestamp)
    ensures Heard(s, ms, clock) == Converse(Opened(s), ms[..Leading(ms, Carried)], clock)
    ensures AllCarried(ms) <==> Leading(ms, Carried) == |ms|
    ensures forall c, closed :: Ended(c, closed) == if closed then Closed(c) else c.store
  {
    hide Converse, Closed, Leading, Carried;
  }

  lemma OpenedFresh(s: State)
    ensures !Opened(s).dropped
  {
  }

  lemma SameClosing(c: Session, d: Session)
    requires c.store == d.store && c.bound == d.bound
    ensures Closed(c) == Closed(d)
  {
    hide Step;
  }

  lemma HandledThrough(c: Session, ms: seq<M.Message>, k: nat, clock: nat -> Timestamp)
    requires !c.dropped
    requires var n := Leading(ms, Carried); n <= k <= |ms| && (n < k ==> |PutMessage(ms[n], [])| <= MAX_PAYLOAD)
    ensures var n := Leading(ms, Carried);
            HandleAll(c, MapSeq(FrameOf, ms)[..k], clock) == Converse(c, ms[..n], clock).(dropped := n < k)
  {
    hide *;
    var n := Leading(ms, Carried);
    if n < k {
      DroppedThere(c, ms, k, clock);
    } else {
      assert MapSeq(FrameOf, ms)[..n] == MapSeq(FrameOf, ms[..n]);
      FramesConverse(c, ms[..n], clock);
      NeverDropped(c, ms[..n], clock);
    }
  }

  /** What is heard of messages: no fewer than come before the first that cannot be sent. */
  lemma FramesHeard(ms: seq<M.Message>) returns (k: nat, frames: seq<Frame>)
    requires forall m :: m in ms ==> Framable(m)
    ensures Leading(ms, Carried) <= k <= |ms| && frames == MapSeq(FrameOf, ms)[..k]
    ensures Leading(ms, Carried) < k ==> |PutMessage(ms[Leading(ms, Carried)], [])| <= MAX_PAYLOAD
    ensures var d := ParseStream(EncodedFrames(MapSeq(FrameOf, ms))); d.frames == frames && (d.error.Some? <==> k < |ms|)
  {
    hide *;
    var fs := MapSeq(FrameOf, ms);
    FramesStop(ms);
    EncodedFramesParse(fs);
    k := Leading(fs, Fits);
    frames := fs[..k];
  }

  /** A stream fails no earlier than at the first message that cannot be sent. */
  lemma FramesStop(ms: seq<M.Message>)
    requires forall m :: m in ms ==> Framable(m)
    ensures var fs := MapSeq(FrameOf, ms);
            var n, k := Leading(ms, Carried), Leading(fs, Fits);
            && (forall f :: f in fs ==> |f.payload| < 0x1_0000_0000) && n <= k
            && (n < k ==> |PutMessage(ms[n], [])| <= MAX_PAYLOAD)
  {
    hide PutMessage, Leading, Framable, Carried, FrameOf, Fits;
    var fs := MapSeq(FrameOf, ms);
    forall f | f in fs ensures |f.payload| < 0x1_0000_0000 {
      var i :| 0 <= i < |fs| && fs[i] == f;
      assert ms[i] in ms;
      FramedLength(ms[i]);
    }
    var n, k := Leading(ms, Carried), Leading(fs, Fits);
    if k < |fs| {
      FramedLength(ms[k]);
    }
    if n < k {
      FramedLength(ms[n]);
    }
  }

  lemma ServedAs(s: State, stream: Bytes, frames: seq<Frame>, failed: bool, c: Session, clock: nat -> Timestamp)
    requires var d := ParseStream(stream); d.frames == frames && (d.error.Some? <==> failed)
    requires c == HandleAll(Opened(s), frames, clock)
    ensures Served(s, stream, clock) == if c.dropped || failed then c.store else Closed(c)
  {
    hide ParseStream, HandleAll, Closed;
  }

  lemma FramedLength(m: M.Message)
    ensures Framable(m) ==> |FrameOf(m).payload| < 0x1_0000_0000
    ensures Carried(m) ==> Fits(FrameOf(m))
    ensures Fits(FrameOf(m)) <==> |PutMessage(m, [])| <= MAX_PAYLOAD
  {
    hide PutMessage;
  }

  lemma {:induction false} NeverDropped(c: Session, ms: seq<M.Message>, clock: nat -> Timestamp)
    requires !c.dropped
    ensures !Converse(c, ms, clock).dropped
    decreases ms
  {
    hide Dispatched;
    if ms != [] {
      NeverDropped(Session(Dispatched(c.store, ms[0], clock(c.handled)),
                           if ms[0].kind == MessageType.REGISTER then Some(ms[0].worker) else c.bound, c.handled + 1, false),
                   ms[1..], clock);
    }
  }

  /** What an agent's published batch asks of the store: to ingest its observations, clipped, under its own name. */
  lemma BatchIngested(a: AgentState, batch: seq<Observation>, epoch: u64, now: Timestamp)
    requires Sendable(a, batch)
    ensures OpOf(epoch, SnapshotMessage(a, batch), now)
            == Some(Op.Ingest(a.worker, MapSeq(ObservationCodec.Clipped, batch), DEFAULT_POLICY, now))
  {
    hide PutMessage, ObservationCodec.DecodedBatch, ObservationCodec.PutBatch, M.Decoded, ObservationCodec.Clipped,
         RegistrationCodec.Decoded;
    BatchArrives(a, batch);
  }
}
