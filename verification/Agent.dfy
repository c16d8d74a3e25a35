/** The worker agent's publishing side: its counters, the batches it builds, the frames it sends. */
module Agent {
  import opened Basics
  import opened Codec
  import opened Identity
  import opened Device
  import opened Fleet
  import opened Framing
  import opened Message
  import M = Message
  import RegistrationCodec
  import ObservationCodec

  /** What a backend found out about one device. */
  datatype Probe = Probe(
    identity: DeviceIdentity, enumerated: bool, present: bool, driverRuntimeOk: bool, cudaInitOk: bool,
    totalMemory: u64, usedMemory: u64, freeMemory: u64, temperature: Option<u64>, power: Option<u64>,
    memoryAllocOk: bool, h2dOk: bool, kernelExecOk: bool, syncOk: bool, d2hOk: bool, verifyOk: bool,
    coreValidationOk: bool, validationDetail: Text, capabilities: seq<Capability>)

  /** One enumerated device: its ordinal, the time it was probed, and the probe if there was one. */
  datatype Probing = Probing(ordinal: u32, at: Timestamp, probe: Option<Probe>)

  datatype Metadata = Metadata(
    deviceId: u64, observationGeneration: u64, healthGeneration: u64, observedAt: Timestamp, workerBoot: u64,
    worker: u64, node: u64, epoch: u64, deviceGeneration: u64)

  /** What an agent keeps between messages. */
  datatype AgentState = AgentState(
    worker: u64, boot: u64, node: u64, osPlatform: Text, epoch: u64, registrationGeneration: u64,
    observationGeneration: u64, healthGeneration: u64, deviceGeneration: u64)

  function Normalize(p: Probe, m: Metadata): Observation {
    Observation(m.deviceId, m.observationGeneration, m.healthGeneration, m.observedAt, m.workerBoot, m.worker, m.node,
                m.epoch, m.deviceGeneration, if p.present then HealthState.UNKNOWN else HealthState.OFFLINE, [],
                p.totalMemory, p.usedMemory, p.freeMemory, p.temperature, p.power, p.capabilities, p.coreValidationOk,
                p.validationDetail, p.enumerated, p.present, p.driverRuntimeOk, p.cudaInitOk, p.memoryAllocOk, p.h2dOk,
                p.kernelExecOk, p.syncOk, p.d2hOk, p.verifyOk, p.identity)
  }

  function MetadataOf(a: AgentState, d: Probing): Metadata {
    Metadata(d.ordinal + 1, a.observationGeneration, a.healthGeneration, d.at, a.boot, a.worker, a.node, a.epoch,
             a.deviceGeneration)
  }

  /** The observations of the devices that could be probed, in order. */
  function BatchOf(a: AgentState, ds: seq<Probing>): seq<Observation> {
    if ds == [] then [] else
      var rest := BatchOf(a, ds[..|ds| - 1]);
      var d := ds[|ds| - 1];
      if d.probe.None? then rest else rest + [Normalize(d.probe.value, MetadataOf(a, d))]
  }

  const NO_MESSAGE: M.Message := M.Message(MessageType.HELLO, 0, 0, 0, 0, 0, 0, 0, 0, 0, 0, 0, 0, true, [], [])

  function SnapshotMessage(a: AgentState, batch: seq<Observation>): M.Message {
    NO_MESSAGE.(kind := MessageType.DEVICE_SNAPSHOT, worker := a.worker, workerBoot := a.boot, epoch := a.epoch,
                payload := ObservationCodec.PutBatch(batch, []))
  }

  function FrameOf(m: M.Message): Frame { Frame(m.kind, PutMessage(m, [])) }

  /** The agent after publishing: the generations of the next batch. */
  function Published(a: AgentState): AgentState {
    a.(observationGeneration := NextGeneration(a.observationGeneration),
       deviceGeneration := NextGeneration(a.deviceGeneration))
  }

  function RegistrationOf(a: AgentState, devices: seq<Text>): Registration {
    Registration(a.node, a.worker, a.boot, Version(1, 0, 0), PROTOCOL_VERSION, a.osPlatform, [], 0, 0, devices,
                 [Ascii("cuda"), Ascii("synthetic")], a.registrationGeneration, a.epoch)
  }

  function RegisterMessage(a: AgentState, devices: seq<Text>): M.Message {
    NO_MESSAGE.(kind := MessageType.REGISTER, worker := a.worker, workerBoot := a.boot, epoch := a.epoch,
                payload := RegistrationCodec.PutRegistration(RegistrationOf(a, devices), []))
  }

  class WorkerAgent {
    const worker: u64
    const boot: u64
    const node: u64
    const osPlatform: Text
    var lastKnownEpoch: u64
    var registrationGeneration: u64
    var observationGeneration: u64
    var healthGeneration: u64
    var deviceGeneration: u64

    function Abs(): AgentState
      reads this
    {
      AgentState(worker, boot, node, osPlatform, lastKnownEpoch, registrationGeneration, observationGeneration,
                 healthGeneration, deviceGeneration)
    }

    constructor (worker: u64, boot: u64, node: u64, osPlatform: Text)
      ensures Abs() == AgentState(worker, boot, node, osPlatform, 0, 1, 1, 1, 1)
    {
      this.worker := worker;
      this.boot := boot;
      this.node := node;
      this.osPlatform := osPlatform;
      lastKnownEpoch := 0;
      registrationGeneration := 1;
      observationGeneration := 1;
      healthGeneration := 1;
      deviceGeneration := 1;
    }

    /** Learns the coordinator's epoch from its acknowledgement, and builds the registration to send. */
    method BeginRegistration(epoch: u64, keys: seq<Text>) returns (sent: Bytes)
      modifies this
      ensures Abs() == old(Abs()).(epoch := epoch)
      ensures sent == EncodedFrame(FrameOf(RegisterMessage(Abs(), keys)))
    {
      hide EncodedFrame, PutMessage, RegistrationCodec.PutRegistration, RegistrationOf;
      lastKnownEpoch := epoch;
      var body := RegistrationCodec.EncodeRegistration(RegistrationOf(Abs(), keys));
      var m := NO_MESSAGE.(kind := MessageType.REGISTER, worker := worker, workerBoot := boot, epoch := lastKnownEpoch,
                           payload := body);
      var payload := EncodeMessage(m);
      sent := EncodeFrame(m.kind, payload);
    }

    /** Completes a registration: only an acknowledged one uses up its generation. */
    method EndRegistration(acknowledged: bool)
      modifies this
      ensures Abs() == if acknowledged
                       then old(Abs()).(registrationGeneration := NextGeneration(old(registrationGeneration)))
                       else old(Abs())
    {
      if acknowledged {
        registrationGeneration := NextGeneration(registrationGeneration);
      }
    }

    /** Publishes what the backend enumerated; nothing is sent, and no generation used up, for an empty batch. */
    method PublishSnapshot(enumerated: Option<seq<Probing>>) returns (sent: Option<Bytes>)
      modifies this
      ensures var batch := if enumerated.Some? then BatchOf(old(Abs()), enumerated.value) else [];
              && Abs() == (if batch == [] then old(Abs()) else Published(old(Abs())))
              && sent == if batch == [] then None else Some(EncodedFrame(FrameOf(SnapshotMessage(old(Abs()), batch))))
    {
      hide EncodedFrame, PutMessage, ObservationCodec.PutBatch;
      if enumerated.None? {
        return None;
      }
      var batch := BuildBatch(enumerated.value);
      if batch == [] {
        return None;
      }
      var payload := ObservationCodec.EncodeBatch(batch);
      var m := NO_MESSAGE.(kind := MessageType.DEVICE_SNAPSHOT, worker := worker, workerBoot := boot,
                           epoch := lastKnownEpoch, payload := payload);
      var body := EncodeMessage(m);
      var frame := EncodeFrame(m.kind, body);
      sent := Some(frame);
      observationGeneration := NextGeneration(observationGeneration);
      deviceGeneration := NextGeneration(deviceGeneration);
    }

    method BuildBatch(ds: seq<Probing>) returns (batch: seq<Observation>)
      ensures batch == BatchOf(Abs(), ds)
    {
      batch := [];
      for i := 0 to |ds|
        invariant batch == BatchOf(Abs(), ds[..i])
      {
        assert ds[..i + 1][..i] == ds[..i];
        if ds[i].probe.Some? {
          var m := Metadata(ds[i].ordinal + 1, observationGeneration, healthGeneration, ds[i].at, boot, worker, node,
                            lastKnownEpoch, deviceGeneration);
          batch := batch + [Normalize(ds[i].probe.value, m)];
        }
      }
      assert ds[..|ds|] == ds;
    }
  }

  // ---- What a batch carries ----

  /** The observation carries the agent's current authority and generations. */
  predicate CarriesAuthority(a: AgentState, o: Observation) {
    && o.worker == a.worker && o.workerBoot == a.boot && o.epoch == a.epoch
    && o.observationGeneration == a.observationGeneration && o.deviceGeneration == a.deviceGeneration
    && o.healthGeneration == a.healthGeneration
  }

  lemma {:induction false} BatchCarriesAuthority(a: AgentState, ds: seq<Probing>)
    ensures forall o :: o in BatchOf(a, ds) ==> CarriesAuthority(a, o)
  {
    if ds != [] {
      BatchCarriesAuthority(a, ds[..|ds| - 1]);
    }
  }

  // ---- From the agent's frames to the coordinator's observations ----

  /** A batch small enough for one frame, and for the observation codec. */
  predicate Sendable(a: AgentState, batch: seq<Observation>) {
    && |batch| <= 4096
    && (forall o :: o in batch ==> ObservationCodec.WithinCapabilities(o))
    && |PutMessage(SnapshotMessage(a, batch), [])| <= MAX_PAYLOAD
  }

  /** A sendable batch is decoded, at the other end of its frame, to its clipped observations. */
  lemma BatchArrives(a: AgentState, batch: seq<Observation>)
    requires Sendable(a, batch)
    ensures var m := SnapshotMessage(a, batch);
            && M.Decoded(FrameOf(m).payload) == Success(m)
            && ObservationCodec.DecodedBatch(m.payload) == Success(MapSeq(ObservationCodec.Clipped, batch))
  {
    hide PutMessage, ObservationCodec.PutBatch, ObservationCodec.Clipped, GetMessage, ObservationCodec.GetBatch;
    var m := SnapshotMessage(a, batch);
    PayloadWithin(m);
    MessageRoundTrip(m);
    ObservationCodec.BatchRoundTrip(batch);
  }

  /** A message that fits a frame has a payload that fits too. */
  lemma PayloadWithin(m: M.Message)
    requires |PutMessage(m, [])| <= MAX_PAYLOAD
    ensures |m.payload| <= MAX_PAYLOAD
  {
    hide PutU8, PutU64, PutText, PutU32;
    var p := PutBlob(m.payload, []);
    assert |p| >= |m.payload| by { AppendU32(|m.payload| % 0x1_0000_0000, m.payload + [], []); }
    var t := PutText(m.reason, REASON_WRITTEN, p);
    assert |t| >= |p| by { TextLonger(m.reason, p); }
    AppendU8(Flag(m.ok), t, []);
    var e := PutU8(Flag(m.ok), t);
    EnvelopeLonger(m, e);
    AppendU8(m.kind as u8, PutEnvelope(m, e), []);
  }

  lemma TextLonger(t: Text, rest: Bytes)
    ensures |PutText(t, REASON_WRITTEN, rest)| >= |rest|
  {
    hide PutU32;
    var c := Clip(t, REASON_WRITTEN);
    AppendU32(|c|, c + rest, []);
  }

  lemma EnvelopeLonger(m: M.Message, rest: Bytes)
    ensures |PutEnvelope(m, rest)| >= |rest|
  {
    hide PutU64;
    var e := PutU64(m.requestId, rest);
    AppendU64(m.requestId, rest, []);
    AppendU64(m.capabilityGeneration, e, []);
    e := PutU64(m.capabilityGeneration, e);
    AppendU64(m.deviceGeneration, e, []);
    e := PutU64(m.deviceGeneration, e);
    AppendU64(m.healthGeneration, e, []);
    e := PutU64(m.healthGeneration, e);
    AppendU64(m.observationGeneration, e, []);
    e := PutU64(m.observationGeneration, e);
    AppendU64(m.registrationGeneration, e, []);
    e := PutU64(m.registrationGeneration, e);
    AppendU64(m.agent, e, []);
    e := PutU64(m.agent, e);
    AppendU64(m.node, e, []);
    e := PutU64(m.node, e);
    AppendU64(m.worker, e, []);
    e := PutU64(m.worker, e);
    AppendU64(m.workerBoot, e, []);
    e := PutU64(m.workerBoot, e);
    AppendU64(m.epoch, e, []);
    e := PutU64(m.epoch, e);
    AppendU64(m.coordinator, e, []);
  }
}
