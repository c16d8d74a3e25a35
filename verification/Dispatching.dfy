/** What each message makes of the store, by its fields and the bytes of its payload. */
module Dispatching {
  import opened Basics
  import opened Codec
  import opened Identity
  import opened Device
  import opened Pipeline
  import opened Fleet
  import opened FleetRuns
  import opened FleetFencing
  import opened FleetBatch
  import opened Framing
  import opened Message
  import opened Layout
  import opened Agent
  import opened Effects
  import opened Sweeping
  import opened Coordinator
  import M = Message
  import RegistrationCodec
  import ObservationCodec

  // ---- Administrative payloads, byte by byte ----

  predicate DrainRequest(p: Bytes, k: Text, level: u8) { |k| <= 1024 && level <= 2 && p == Long(k) + [level] }

  predicate QuarantineRequest(p: Bytes, k: Text, reason: Text, source: Text, generation: u64) {
    |k| <= 1024 && |reason| <= 512 && |source| <= 128 && p == Long(k) + (Long(reason) + (Long(source) + Big(generation, 8)))
  }

  predicate ClearRequest(p: Bytes, k: Text) { |k| <= 1024 && p == Long(k) }

  lemma DrainForm(p: Bytes, k: Text, level: u8)
    ensures DrainRequest(p, k, level) <==> level <= 2 && Entire(GetDrainTarget(p)) == Success((k, level as DrainState))
  {
    hide GetText, Long;
    TextForm(p, TARGET, k, [level]);
    var t := GetText(p, TARGET);
    if t.Got? {
      TextForm(p, TARGET, t.value, t.rest);
      assert t.rest != [] && t.rest[1..] == [] ==> t.rest == [t.rest[0]];
    }
  }

  lemma DrainLevel(p: Bytes)
    ensures Entire(GetDrainTarget(p)).Success? ==> Entire(GetDrainTarget(p)).value.1 <= DrainState.DRAINED
  {
    hide GetText;
  }

  lemma ClearForm(p: Bytes, k: Text)
    ensures ClearRequest(p, k) <==> Entire(GetIdentityTarget(p)) == Success(k)
  {
    hide GetText, Long;
    TextForm(p, TARGET, k, []);
    assert Long(k) + [] == Long(k);
  }

  lemma QuarantineForm(p: Bytes, at: Timestamp, epoch: u64, k: Text, reason: Text, source: Text, generation: u64)
    ensures QuarantineRequest(p, k, reason, source, generation)
            <==> Entire(GetQuarantine(p, at, epoch)) == Success((k, QuarantineRecord(reason, source, generation, at, 0, epoch)))
  {
    hide GetText, GetU64, Long, Big;
    var b2 := Long(source) + Big(generation, 8);
    var b1 := Long(reason) + b2;
    TextForm(p, TARGET, k, b1);
    TextForm(b1, 512, reason, b2);
    TextForm(b2, 128, source, Big(generation, 8));
    assert Big(generation, 8) + [] == Big(generation, 8);
    U64Form(Big(generation, 8), generation, []);
    var t := GetText(p, TARGET);
    if t.Got? {
      TextForm(p, TARGET, t.value, t.rest);
      var u := GetText(t.rest, 512);
      if u.Got? {
        TextForm(t.rest, 512, u.value, u.rest);
        var v := GetText(u.rest, 128);
        if v.Got? {
          TextForm(u.rest, 128, v.value, v.rest);
          var w := GetU64(v.rest);
          if w.Got? {
            U64Form(v.rest, w.value, w.rest);
            assert w.rest == [] ==> Big(w.value, 8) + w.rest == Big(w.value, 8);
          }
        }
      }
    }
  }

  // ---- One message ----

  predicate Silent(k: MessageType) {
    && k != MessageType.REGISTER && k != MessageType.HEARTBEAT && k != MessageType.DEVICE_SNAPSHOT
    && k != MessageType.HEALTH_REPORT && k != MessageType.CAPABILITY_REPORT && k != MessageType.DRAIN
    && k != MessageType.UNDRAIN && k != MessageType.QUARANTINE && k != MessageType.CLEAR_QUARANTINE
    && k != MessageType.EPOCH_ROLL
  }

  /** Greetings, requests for the state, saves, answers and errors leave the store as it is. */
  lemma OthersSilent(s: State, m: M.Message, now: Timestamp)
    requires Silent(m.kind)
    ensures Dispatched(s, m, now) == s
  {
    hide Step, PlanOf, GetDrainTarget, GetQuarantine, GetIdentityTarget, RegistrationCodec.Decoded,
         ObservationCodec.DecodedBatch;
  }

  /** A heartbeat counts only under the epoch and the boot that the message itself carries; one that names neither a worker nor
    * a boot leaves the store as it is.
    */
  lemma HeartbeatMessage(s: State, m: M.Message, now: Timestamp)
    requires m.kind == MessageType.HEARTBEAT
    ensures if m.worker == 0 && m.workerBoot == 0 then Dispatched(s, m, now) == s
            else Beats(s, Dispatched(s, m, now), m.worker, m.workerBoot, m.epoch, now)
  {
    hide Step, PlanOf, Beats;
    HeartbeatEffect(s, m.worker, m.workerBoot, m.epoch, now);
  }

  lemma EpochMessage(s: State, m: M.Message, now: Timestamp)
    requires m.kind == MessageType.EPOCH_ROLL
    ensures Rolls(s, Dispatched(s, m, now), m.epoch)
  {
    hide Step, PlanOf, Rolls;
    RollEffect(s, m.epoch);
  }

  /** Either drain message takes the device and the level from its payload; any other payload leaves the store as it is. */
  lemma DrainMessage(s: State, m: M.Message, now: Timestamp, k: Text, level: u8)
    requires m.kind == MessageType.DRAIN || m.kind == MessageType.UNDRAIN
    ensures DrainRequest(m.payload, k, level) ==> Drains(s, Dispatched(s, m, now), k, level as DrainState, now)
    ensures (exists j, l :: DrainRequest(m.payload, j, l)) || Dispatched(s, m, now) == s
  {
    hide Step, PlanOf, Drains, DrainRequest, GetDrainTarget;
    DrainForm(m.payload, k, level);
    if DrainRequest(m.payload, k, level) {
      DrainEffect(s, k, level as DrainState, now);
    }
    var t := Entire(GetDrainTarget(m.payload));
    if t.Success? {
      DrainLevel(m.payload);
      DrainForm(m.payload, t.value.0, t.value.1 as u8);
    }
  }

  /** A quarantine message takes the device, the reason, the source and the generation from its payload, and the time and the
    * authority from the coordinator.
    */
  lemma QuarantineMessage(s: State, m: M.Message, now: Timestamp, k: Text, reason: Text, source: Text, generation: u64)
    requires m.kind == MessageType.QUARANTINE
    ensures QuarantineRequest(m.payload, k, reason, source, generation)
            ==> Quarantines(s, Dispatched(s, m, now), k, QuarantineRecord(reason, source, generation, now, 0, s.epoch), now)
    ensures (exists j, r, o, g :: QuarantineRequest(m.payload, j, r, o, g)) || Dispatched(s, m, now) == s
  {
    hide *;
    QuarantineAsked(s, m, now);
    QuarantineForm(m.payload, now, s.epoch, k, reason, source, generation);
    QuarantineEffect(s, k, QuarantineRecord(reason, source, generation, now, 0, s.epoch), now);
  }

  lemma QuarantineAsked(s: State, m: M.Message, now: Timestamp)
    requires m.kind == MessageType.QUARANTINE
    ensures match Entire(GetQuarantine(m.payload, now, s.epoch))
            case Success(t) =>
              && Dispatched(s, m, now) == Step(s, SetQuarantine(t.0, t.1, now))
              && QuarantineRequest(m.payload, t.0, t.1.reason, t.1.source, t.1.generation)
            case Failure(_) => Dispatched(s, m, now) == s
  {
    hide Step, QuarantineRequest, GetQuarantine;
    var t := Entire(GetQuarantine(m.payload, now, s.epoch));
    if t.Success? {
      var q := t.value.1;
      QuarantineStamp(m.payload, now, s.epoch);
      QuarantineForm(m.payload, now, s.epoch, t.value.0, q.reason, q.source, q.generation);
    }
  }

  lemma QuarantineStamp(p: Bytes, at: Timestamp, epoch: u64)
    ensures var t := Entire(GetQuarantine(p, at, epoch));
            t.Success? ==> t.value.1.at == at && t.value.1.deviceId == 0 && t.value.1.authority == epoch
  {
    hide GetText, GetU64;
  }

  /** A clearance takes the device from its payload, and the epoch from the coordinator. */
  lemma ClearMessage(s: State, m: M.Message, now: Timestamp, k: Text)
    requires m.kind == MessageType.CLEAR_QUARANTINE
    ensures ClearRequest(m.payload, k) ==> Clears(s, Dispatched(s, m, now), k, s.epoch, now)
    ensures (exists j :: ClearRequest(m.payload, j)) || Dispatched(s, m, now) == s
  {
    hide Step, PlanOf, Clears, ClearRequest, GetIdentityTarget;
    ClearForm(m.payload, k);
    ClearEffect(s, k, s.epoch, now);
    var t := Entire(GetIdentityTarget(m.payload));
    if t.Success? {
      ClearForm(m.payload, t.value);
    }
  }

  /** A registration asks for what its payload says; a malformed one leaves the store as it is. */
  lemma RegistrationMessage(s: State, m: M.Message, now: Timestamp)
    requires m.kind == MessageType.REGISTER
    ensures match RegistrationCodec.Decoded(m.payload)
            case Success(reg) => Registers(s, Dispatched(s, m, now), reg, now)
            case Failure(_) => Dispatched(s, m, now) == s
  {
    hide Step, PlanOf, Registers, RegistrationCodec.Decoded;
    var r := RegistrationCodec.Decoded(m.payload);
    if r.Success? {
      RegisterEffect(s, r.value, now);
    }
  }

  /** The three kinds of report are taken alike, in the name of the worker in the message, with a threshold of one day and no
    * requirements; a malformed one leaves the store as it is.
    */
  lemma ReportMessage(s: State, m: M.Message, now: Timestamp)
    requires Report(m.kind)
    ensures match ObservationCodec.DecodedBatch(m.payload)
            case Success(obs) =>
              Dispatched(s, m, now)
              == Step(s, Ingest(m.worker, obs, Policy(86400000, [], ComputeCapability(0, 0), 0, true, []), now))
            case Failure(_) => Dispatched(s, m, now) == s
  {
    hide Step, ObservationCodec.DecodedBatch, RegistrationCodec.Decoded, GetDrainTarget, GetQuarantine, GetIdentityTarget;
  }

  predicate Report(k: MessageType) {
    k == MessageType.DEVICE_SNAPSHOT || k == MessageType.HEALTH_REPORT || k == MessageType.CAPABILITY_REPORT
  }

  // ---- Fencing by the epoch ----

  /** The worker's authority: its incarnation, its registration, and whether it is fenced or lost. */
  predicate SameAuthority(s: State, t: State, w: u64) {
    && (w in t.workers <==> w in s.workers)
    && (w in s.workers ==>
          && t.workers[w].boot == s.workers[w].boot
          && t.workers[w].registrationGeneration == s.workers[w].registrationGeneration
          && t.workers[w].registeredEpoch == s.workers[w].registeredEpoch
          && t.workers[w].fenced == s.workers[w].fenced && t.workers[w].lost == s.workers[w].lost)
  }

  /** The message gives worker w authority at the epoch of s: its registration, or a heartbeat of its recorded boot. */
  predicate Empowers(s: State, m: M.Message, w: u64) {
    || (m.kind == MessageType.REGISTER
        && var reg := RegistrationCodec.Decoded(m.payload); reg.Success? && reg.value.worker == w && reg.value.epoch == s.epoch)
    || (m.kind == MessageType.HEARTBEAT && m.worker == w && m.epoch == s.epoch
        && w in s.workers && s.workers[w].boot == m.workerBoot)
  }

  /** What was accepted is in the message's report, and carries the epoch of s and the recorded boot of an unfenced worker. */
  predicate FromReport(s: State, m: M.Message, a: Acceptance) {
    && Report(m.kind)
    && (var obs := ObservationCodec.DecodedBatch(m.payload); obs.Success? && a.evidence in obs.value)
    && a.worker == m.worker && a.worker in s.workers && !s.workers[a.worker].fenced && !s.workers[a.worker].lost
    && a.evidence.epoch == s.epoch && a.evidence.workerBoot == s.workers[a.worker].boot
  }

  /** What a message may do to the workers' authority, to the epoch and to what was accepted. */
  predicate Fenced(s: State, t: State, m: M.Message) {
    && (forall w :: SameAuthority(s, t, w) || Empowers(s, m, w))
    && s.accepts <= t.accepts
    && (forall i :: |s.accepts| <= i < |t.accepts| ==> FromReport(s, m, t.accepts[i]))
    && (t.epoch == s.epoch || (m.kind == MessageType.EPOCH_ROLL && t.epoch == m.epoch > s.epoch))
  }

  lemma NothingFenced(s: State, t: State, m: M.Message)
    requires t.workers == s.workers && t.accepts == s.accepts
    requires t.epoch == s.epoch || (m.kind == MessageType.EPOCH_ROLL && t.epoch == m.epoch > s.epoch)
    ensures Fenced(s, t, m)
  {
    hide Empowers, FromReport;
  }

  lemma HeartbeatFenced(s: State, m: M.Message, now: Timestamp)
    requires m.kind == MessageType.HEARTBEAT
    ensures Fenced(s, Dispatched(s, m, now), m)
  {
    hide Dispatched, FromReport;
    HeartbeatMessage(s, m, now);
  }

  lemma RegistrationFenced(s: State, m: M.Message, now: Timestamp)
    requires m.kind == MessageType.REGISTER
    ensures Fenced(s, Dispatched(s, m, now), m)
  {
    hide Dispatched, FromReport, RegistrationCodec.Decoded, Newly;
    RegistrationMessage(s, m, now);
    var r := RegistrationCodec.Decoded(m.payload);
    if r.Success? {
      var t := Dispatched(s, m, now);
      forall w ensures SameAuthority(s, t, w) || Empowers(s, m, w) {
        if w == r.value.worker && r.value.epoch == s.epoch {
          assert Empowers(s, m, w);
        }
      }
    }
  }

  lemma IngestFenced(s: State, m: M.Message, obs: seq<Observation>, policy: Policy, now: Timestamp)
    requires Report(m.kind) && ObservationCodec.DecodedBatch(m.payload) == Success(obs)
    ensures Fenced(s, Step(s, Ingest(m.worker, obs, policy, now)), m)
  {
    hide Step, ObservationCodec.DecodedBatch, Sweeping.Succeeds, CanonicalKey, Empowers;
    var op := Ingest(m.worker, obs, policy, now);
    var t := Step(s, op);
    var added := IngestWorkers(s, m.worker, obs, policy, now);
    StepAuthority(s, op);
    forall i | |s.accepts| <= i < |t.accepts| ensures FromReport(s, m, t.accepts[i]) {
      assert UnderAuthority(s, t.accepts[i], op);
    }
    IngestEpoch(s, op);
  }

  lemma IngestEpoch(s: State, op: Op)
    requires op.Ingest?
    ensures Step(s, op).epoch == s.epoch
  {
    var p := (t: State) => t.epoch == s.epoch;
    forall t, a | p(t) && Enabled(t, a) && From(op, a) ensures p(Next(t, a)) {
      assert !a.Roll?;
      hide Next, Enabled, From;
      NextEmits(t, a);
    }
    hide Step, Next, Enabled, From, PlanOf;
    StepKeeps(s, op, p);
  }

  lemma ReportFenced(s: State, m: M.Message, now: Timestamp)
    requires Report(m.kind)
    ensures Fenced(s, Dispatched(s, m, now), m)
  {
    hide Dispatched, Step, ObservationCodec.DecodedBatch, Fenced;
    ReportMessage(s, m, now);
    var r := ObservationCodec.DecodedBatch(m.payload);
    if r.Success? {
      IngestFenced(s, m, r.value, Policy(86400000, [], ComputeCapability(0, 0), 0, true, []), now);
    } else {
      NothingFenced(s, s, m);
    }
  }

  lemma OthersFenced(s: State, m: M.Message, now: Timestamp)
    requires m.kind != MessageType.HEARTBEAT && m.kind != MessageType.REGISTER && !Report(m.kind)
    ensures Fenced(s, Dispatched(s, m, now), m)
  {
    hide Fenced, Dispatched, Step, PlanOf, Restated, Logged, Long, QuarantineRequest, ClearRequest;
    var t := Dispatched(s, m, now);
    if m.kind == MessageType.EPOCH_ROLL {
      EpochMessage(s, m, now);
    } else if m.kind == MessageType.DRAIN || m.kind == MessageType.UNDRAIN {
      DrainMessage(s, m, now, [], 0);
      if k: Text, level: u8 :| DrainRequest(m.payload, k, level) {
        DrainMessage(s, m, now, k, level);
        DrainsApart(s, t, k, level, now);
      }
    } else if m.kind == MessageType.QUARANTINE {
      QuarantineMessage(s, m, now, [], [], [], 0);
      if k: Text, r: Text, o: Text, g: u64 :| QuarantineRequest(m.payload, k, r, o, g) {
        QuarantineMessage(s, m, now, k, r, o, g);
      }
    } else if m.kind == MessageType.CLEAR_QUARANTINE {
      ClearMessage(s, m, now, []);
      if k: Text :| ClearRequest(m.payload, k) {
        ClearMessage(s, m, now, k);
      }
    } else {
      OthersSilent(s, m, now);
    }
    NothingFenced(s, t, m);
  }

  lemma DrainsApart(s: State, t: State, k: Text, level: u8, now: Timestamp)
    requires level <= 2 && Drains(s, t, k, level as DrainState, now)
    ensures t.workers == s.workers && t.accepts == s.accepts && t.epoch == s.epoch
  {
    hide Restated, Logged, Ascii;
  }

  /** Over all messages, in any state: authority comes only from a registration or a heartbeat that carries the current epoch,
    * evidence is accepted only when it carries the current epoch and the recorded boot, and the epoch only moves forward.
    */
  lemma EpochFences(s: State, m: M.Message, now: Timestamp)
    ensures Fenced(s, Dispatched(s, m, now), m)
  {
    hide Fenced, Dispatched;
    if m.kind == MessageType.HEARTBEAT {
      HeartbeatFenced(s, m, now);
    } else if m.kind == MessageType.REGISTER {
      RegistrationFenced(s, m, now);
    } else if Report(m.kind) {
      ReportFenced(s, m, now);
    } else {
      OthersFenced(s, m, now);
    }
  }

  /** The message carries another epoch than that of s, where its kind of message carries one. */
  predicate ForeignEpoch(s: State, m: M.Message) {
    || (m.kind == MessageType.HEARTBEAT && m.epoch != s.epoch)
    || (m.kind == MessageType.REGISTER
        && var reg := RegistrationCodec.Decoded(m.payload); reg.Success? && reg.value.epoch != s.epoch)
    || (Report(m.kind)
        && var obs := ObservationCodec.DecodedBatch(m.payload);
           obs.Success? && obs.value != [] && obs.value[0].epoch != s.epoch)
  }

  /** A registration, heartbeat or report that carries another epoch changes nothing at all. */
  lemma ForeignEpochRefused(s: State, m: M.Message, now: Timestamp)
    requires ForeignEpoch(s, m)
    ensures Dispatched(s, m, now) == s
  {
    hide Dispatched, RegistrationCodec.Decoded, ObservationCodec.DecodedBatch, Step, Admits, Reaffirms;
    if m.kind == MessageType.HEARTBEAT {
      HeartbeatMessage(s, m, now);
    } else if m.kind == MessageType.REGISTER {
      RegistrationMessage(s, m, now);
    } else {
      ReportMessage(s, m, now);
      var obs := ObservationCodec.DecodedBatch(m.payload).value;
      ForeignBatch(s, m.worker, obs, Policy(86400000, [], ComputeCapability(0, 0), 0, true, []), now);
    }
  }

  lemma ForeignBatch(s: State, w: u64, obs: seq<Observation>, policy: Policy, now: Timestamp)
    requires obs != [] && obs[0].epoch != s.epoch
    ensures Step(s, Ingest(w, obs, policy, now)) == s
  {
    hide CanonicalKey, Next, SweepActions, AppliedTo;
  }

  // ---- An agent's registration ----

  /** The registration that an agent makes for the given devices, with its texts cut. */
  predicate Offers(a: AgentState, keys: seq<Text>, reg: Registration) {
    && reg.worker == a.worker && reg.boot == a.boot && reg.node == a.node && reg.epoch == a.epoch
    && reg.registrationGeneration == a.registrationGeneration && reg.osPlatform == Shortened(a.osPlatform, 128)
    && reg.agentVersion == Version(1, 0, 0) && reg.protocolVersion == 1 && reg.driverVersion == []
    && |reg.devices| == |keys| && (forall i :: 0 <= i < |keys| ==> reg.devices[i] == Shortened(keys[i], 256))
    && reg.capabilities == [Ascii("cuda"), Ascii("synthetic")]
  }

  /** An agent registers under its own authority, with the devices it names. */
  lemma AgentRegisters(s: State, a: AgentState, keys: seq<Text>, now: Timestamp) returns (reg: Registration)
    requires |keys| <= 4096
    ensures Offers(a, keys, reg) && Registers(s, Dispatched(s, RegisterMessage(a, keys), now), reg, now)
  {
    hide *;
    reg := RegistrationCodec.Clipped(RegistrationOf(a, keys));
    RegistrationArrives(a, keys);
    RegistrationOffers(a, keys);
    RegistrationMessage(s, RegisterMessage(a, keys), now);
  }

  lemma RegistrationArrives(a: AgentState, keys: seq<Text>)
    requires |keys| <= 4096
    ensures var m := RegisterMessage(a, keys);
            && m.kind == MessageType.REGISTER
            && RegistrationCodec.Decoded(m.payload) == Success(RegistrationCodec.Clipped(RegistrationOf(a, keys)))
  {
    hide RegistrationCodec.Decoded, RegistrationCodec.PutRegistration, RegistrationCodec.Clipped, Ascii;
    RegistrationCodec.RegistrationRoundTrip(RegistrationOf(a, keys));
  }

  lemma RegistrationOffers(a: AgentState, keys: seq<Text>)
    ensures Offers(a, keys, RegistrationCodec.Clipped(RegistrationOf(a, keys)))
  {
    ShortNames();
    hide Ascii;
  }

  lemma ShortNames()
    ensures |Ascii("cuda")| == 4 && |Ascii("synthetic")| == 9
  {
    hide Ascii;
  }

  // ---- The end of a connection ----

  /** The store after messages dispatched one after another, of which n have gone before. */
  function DispatchAll(s: State, ms: seq<M.Message>, clock: nat -> Timestamp, n: nat): State
    decreases ms
  {
    if ms == [] then s else DispatchAll(Dispatched(s, ms[0], clock(n)), ms[1..], clock, n + 1)
  }

  /** The worker of the last registration among the messages. */
  function LastJoining(ms: seq<M.Message>): Option<u64> {
    if ms == [] then None
    else if LastJoining(ms[1..]).Some? then LastJoining(ms[1..])
    else if ms[0].kind == MessageType.REGISTER then Some(ms[0].worker)
    else None
  }

  lemma {:induction false} ConverseIs(c: Session, ms: seq<M.Message>, clock: nat -> Timestamp)
    ensures var d := Converse(c, ms, clock);
            && d.store == DispatchAll(c.store, ms, clock, c.handled)
            && d.bound == if LastJoining(ms).Some? then LastJoining(ms) else c.bound
    decreases ms
  {
    hide Dispatched;
    if ms != [] {
      ConverseIs(Session(Dispatched(c.store, ms[0], clock(c.handled)),
                         if ms[0].kind == MessageType.REGISTER then Some(ms[0].worker) else c.bound, c.handled + 1, false),
                 ms[1..], clock);
    }
  }

  /** A connection that ends in order, however its bytes were cut: each message has had its effect in turn, and then the worker
    * registered last on it is lost.
    */
  lemma ConnectionEnds(s: State, ms: seq<M.Message>, chunks: seq<Bytes>, clock: nat -> Timestamp, k: Text)
    requires forall m :: m in ms ==> Framable(m)
    requires forall m :: m in ms ==> Carried(m)
    requires Flatten(chunks) == EncodedFrames(MapSeq(FrameOf, ms))
    ensures var last, t := DispatchAll(s, ms, clock, 0), Served(s, Flatten(chunks), clock);
            match LastJoining(ms) case None => t == last case Some(w) => Loses(last, t, w, k)
  {
    hide *;
    ConversationServed(s, ms, chunks, clock);
    HeardMeans(s, ms, clock);
    AllOfThem(ms);
    assert ms[..|ms|] == ms;
    ConverseIs(Opened(s), ms, clock);
    var c := Converse(Opened(s), ms, clock);
    AtTheStart(s);
    if LastJoining(ms).Some? {
      LossEffect(c.store, LastJoining(ms).value, k);
    }
    ClosedMeans(c);
  }

  lemma {:induction false} AllOfThem(ms: seq<M.Message>)
    requires forall m :: m in ms ==> Carried(m)
    ensures Leading(ms, Carried) == |ms|
  {
    hide Carried;
  }

  lemma AtTheStart(s: State)
    ensures Opened(s).store == s && Opened(s).bound == None && Opened(s).handled == 0
  {
  }

  lemma ClosedMeans(c: Session)
    ensures Closed(c) == match c.bound case None => c.store case Some(w) => Step(c.store, MarkLost(w))
  {
    hide Step;
  }
}
