/** From what a backend found out about a device to what the coordinator decides about it. */
module Probing {
  import opened Basics
  import opened Codec
  import opened Identity
  import opened Device
  import opened Pipeline
  import opened Fleet
  import opened FleetBatch
  import opened Framing
  import opened Layout
  import opened Agent
  import opened Coordinator
  import opened Channel
  import opened Evidence
  import Records
  import ObservationCodec

  // ---- What a probe says ----

  /** The identity with its texts cut as they are on the wire. */
  function Carried(id: DeviceIdentity): DeviceIdentity {
    id.(vendorName := Shortened(id.vendorName, 128), uuid := Shortened(id.uuid, 128), architecture := Shortened(id.architecture, 64),
        driverVersion := Shortened(id.driverVersion, 128))
  }

  predicate CarriedCapability(c: Capability, from: Capability) {
    c == from.(name := Shortened(from.name, 128), value := Shortened(from.value, 256), description := Shortened(from.description, 256))
  }

  predicate CarriedCapabilities(cs: seq<Capability>, from: seq<Capability>) {
    |cs| == |from| && forall i :: 0 <= i < |cs| ==> CarriedCapability(cs[i], from[i])
  }

  /** The device holds what the probe found, under the generations of the agent that took it. */
  predicate Portrays(d: DeviceState, a: AgentState, ordinal: u32, at: Timestamp, p: Probe) {
    && d.deviceId == ordinal + 1 && d.generation == a.deviceGeneration && d.workerBoot == a.boot
    && d.observationGeneration == a.observationGeneration && d.healthGeneration == a.healthGeneration
    && d.identity == Carried(p.identity) && d.present == p.present
    && d.totalMemory == p.totalMemory && d.usedMemory == p.usedMemory && d.freeMemory == p.freeMemory
    && d.temperature == p.temperature && d.power == p.power && CarriedCapabilities(d.capabilities, p.capabilities)
    && d.coreValidationOk == p.coreValidationOk && d.validationDetail == Shortened(p.validationDetail, 4096)
    && d.lastObservedAt == at
  }

  /** Every step that the coordinator insists on has succeeded. */
  predicate Proven(p: Probe) {
    && p.present && p.driverRuntimeOk && p.cudaInitOk
    && p.memoryAllocOk && p.kernelExecOk && p.syncOk && p.d2hOk && p.verifyOk
  }

  /** The probe was taken at a set time, at most a day ago, and not before what the coordinator held of the device. */
  predicate InTime(held: Option<DeviceState>, at: Timestamp, now: Timestamp) {
    && at != 0 && now - at <= 86400000
    && (held.Some? && held.value.lastObservedAt != 0 ==> held.value.lastObservedAt <= at)
  }

  /** Nobody has drained or quarantined the device. */
  predicate InService(held: Option<DeviceState>) {
    held.Some? ==> held.value.drain == DrainState.ACTIVE && !held.value.quarantined
  }

  /** d is the verdict on the probe of a device that was held so before: what the probe says is stored, the device is healthy
    * exactly when the probe is in time and every step in it succeeded, and eligible exactly when it is besides in service.
    */
  predicate Decided(held: Option<DeviceState>, d: DeviceState, a: AgentState, ordinal: u32, at: Timestamp, p: Probe, now: Timestamp) {
    && Portrays(d, a, ordinal, at, p)
    && d.isFresh == InTime(held, at, now)
    && (d.health == HealthState.HEALTHY <==> InTime(held, at, now) && Proven(p))
    && (d.eligibility == Eligibility.ELIGIBLE <==> InTime(held, at, now) && Proven(p) && InService(held))
    && (d.health == HealthState.LOST <==> !p.present && held.Some? && held.value.present)
  }

  // ---- The observation of a probe ----

  /** How many of the first n devices could be probed: the place in the batch of the one after them. */
  function Place(ds: seq<Probing>, n: nat): nat
    requires n <= |ds|
  {
    if n == 0 then 0 else Place(ds, n - 1) + if ds[n - 1].probe.Some? then 1 else 0
  }

  predicate Depicts(o: Observation, a: AgentState, ordinal: u32, at: Timestamp, p: Probe) {
    && o.deviceId == ordinal + 1 && o.deviceGeneration == a.deviceGeneration && o.workerBoot == a.boot
    && o.observationGeneration == a.observationGeneration && o.healthGeneration == a.healthGeneration && o.observedAt == at
    && o.present == p.present && o.driverRuntimeOk == p.driverRuntimeOk && o.cudaInitOk == p.cudaInitOk
    && o.memoryAllocOk == p.memoryAllocOk && o.kernelExecOk == p.kernelExecOk && o.syncOk == p.syncOk
    && o.d2hOk == p.d2hOk && o.verifyOk == p.verifyOk
    && o.totalMemory == p.totalMemory && o.usedMemory == p.usedMemory && o.freeMemory == p.freeMemory
    && o.temperature == p.temperature && o.power == p.power && o.coreValidationOk == p.coreValidationOk
  }

  /** The observation is the probe's with its texts whole. */
  predicate DepictsWhole(o: Observation, a: AgentState, ordinal: u32, at: Timestamp, p: Probe) {
    && Depicts(o, a, ordinal, at, p)
    && o.identity == p.identity && o.capabilities == p.capabilities && o.validationDetail == p.validationDetail
  }

  /** The observation is the probe's with its texts cut. */
  predicate DepictsCut(o: Observation, a: AgentState, ordinal: u32, at: Timestamp, p: Probe) {
    && Depicts(o, a, ordinal, at, p)
    && o.identity == Carried(p.identity) && CarriedCapabilities(o.capabilities, p.capabilities)
    && o.validationDetail == Shortened(p.validationDetail, 4096)
  }

  /** Every device that could be probed has its observation in the batch, in its place. */
  lemma {:induction false} ProbePlaced(a: AgentState, ds: seq<Probing>, j: nat)
    requires j < |ds| && ds[j].probe.Some?
    ensures Place(ds, j) < |BatchOf(a, ds)|
    ensures DepictsWhole(BatchOf(a, ds)[Place(ds, j)], a, ds[j].ordinal, ds[j].at, ds[j].probe.value)
    decreases |ds|
  {
    var n := |ds| - 1;
    if j < n {
      ProbePlaced(a, ds[..n], j);
      PlaceWithin(ds, n, j);
    } else {
      PlaceIsLength(a, ds[..n]);
      PlaceWithin(ds, n, n);
    }
  }

  lemma {:induction false} PlaceWithin(ds: seq<Probing>, n: nat, j: nat)
    requires j <= n <= |ds|
    ensures Place(ds[..n], j) == Place(ds, j)
  {
    if j > 0 {
      PlaceWithin(ds, n, j - 1);
    }
  }

  lemma {:induction false} PlaceIsLength(a: AgentState, ds: seq<Probing>)
    ensures |BatchOf(a, ds)| == Place(ds, |ds|)
  {
    hide Normalize;
    if ds != [] {
      var n := |ds| - 1;
      PlaceIsLength(a, ds[..n]);
      PlaceWithin(ds, n, n);
    }
  }

  lemma CarriedIs(id: DeviceIdentity)
    ensures Records.ClipIdentity(id) == Carried(id)
  {
  }

  lemma CapabilitiesCarried(cs: seq<Capability>)
    ensures CarriedCapabilities(Records.ClipCapabilities(cs), cs)
  {
  }

  lemma ClippedDepicts(o: Observation, a: AgentState, ordinal: u32, at: Timestamp, p: Probe)
    requires DepictsWhole(o, a, ordinal, at, p)
    ensures DepictsCut(ObservationCodec.Clipped(o), a, ordinal, at, p)
  {
    hide Carried, CarriedCapabilities, Records.ClipIdentity, Records.ClipCapabilities;
    CarriedIs(o.identity);
    CapabilitiesCarried(o.capabilities);
  }

  lemma ArrivesPlaced(a: AgentState, ds: seq<Probing>, j: nat)
    requires j < |ds| && ds[j].probe.Some?
    ensures Place(ds, j) < |BatchOf(a, ds)| == |Arriving(BatchOf(a, ds))|
    ensures DepictsCut(Arriving(BatchOf(a, ds))[Place(ds, j)], a, ds[j].ordinal, ds[j].at, ds[j].probe.value)
  {
    hide BatchOf, DepictsWhole, DepictsCut, ObservationCodec.Clipped;
    ProbePlaced(a, ds, j);
    ClippedDepicts(BatchOf(a, ds)[Place(ds, j)], a, ds[j].ordinal, ds[j].at, ds[j].probe.value);
  }

  // ---- The verdict ----

  function Before(held: Option<DeviceState>): DeviceState { if held.Some? then held.value else BLANK }

  lemma UpdatedDecides(held: Option<DeviceState>, d: DeviceState, o: Observation, a: AgentState, ordinal: u32, at: Timestamp,
                       p: Probe, now: Timestamp)
    requires DepictsCut(o, a, ordinal, at, p) && Updated(Before(held), d, o, DEFAULT_POLICY, now)
    ensures Decided(held, d, a, ordinal, at, p, now)
  {
    hide Carried, CarriedCapabilities, Shortened, Words;
  }

  lemma RenewedUpdates(held: Option<DeviceState>, o: Observation, now: Timestamp, epoch: u64)
    ensures Updated(Before(held), Renewed(held, o, DEFAULT_POLICY, now, epoch), o, DEFAULT_POLICY, now)
  {
    hide Updated, ApplyObservation;
    ApplyUpdates(Before(held), o, DEFAULT_POLICY, now, epoch);
  }

  lemma HeadDecides(v: World, now: Timestamp, a: AgentState, ds: seq<Probing>, j: nat)
    requires InStep(v) && v.queue != [] && v.open && v.handled < |v.sent|
    requires v.sent[v.handled] == BatchOf(a, ds) && Sendable(v.agent, BatchOf(a, ds))
    requires j < |ds| && ds[j].probe.Some?
    ensures var p, t := ds[j].probe.value, Advance(v, Deliver(now)).store;
            var k := CanonicalKey(Carried(p.identity));
            k in t.devices && Decided(Lookup(v.store, k), t.devices[k], a, ds[j].ordinal, ds[j].at, p, now)
  {
    hide *;
    ArrivesPlaced(a, ds, j);
    var o := Arriving(BatchOf(a, ds))[Place(ds, j)];
    var p, k := ds[j].probe.value, CanonicalKey(Carried(ds[j].probe.value.identity));
    DepictedKey(o, a, ds[j].ordinal, ds[j].at, p);
    DeliveredNotSwept(v, now, Place(ds, j));
    var held := Lookup(v.store, k);
    var t := Advance(v, Deliver(now)).store;
    Known(t, k);
    RenewedUpdates(held, o, now, v.store.epoch);
    UpdatedDecides(held, t.devices[k], o, a, ds[j].ordinal, ds[j].at, p, now);
  }

  lemma DepictedKey(o: Observation, a: AgentState, ordinal: u32, at: Timestamp, p: Probe)
    requires DepictsCut(o, a, ordinal, at, p)
    ensures Key(o) == CanonicalKey(Carried(p.identity))
  {
    hide CanonicalKey, Carried, Depicts, CarriedCapabilities;
  }

  lemma Known(t: State, k: Text)
    ensures Lookup(t, k).Some? ==> k in t.devices && t.devices[k] == Lookup(t, k).value
  {
  }

  lemma {:induction false} SentKept(v: World, es: seq<Event>)
    ensures v.sent <= AdvanceAll(v, es).sent
    decreases es
  {
    hide BatchOf, FrameFor, Answered, Step;
    if es != [] {
      SentKept(Advance(v, es[0]), es[1..]);
    }
  }

  lemma SentLast(v: World, ds: seq<Probing>)
    requires BatchOf(v.agent, ds) != []
    ensures Advance(v, Publish(ds)).sent == v.sent + [BatchOf(v.agent, ds)]
  {
    hide BatchOf, FrameFor;
  }

  /** From the probe to the verdict. A batch is published by parties in step, anything allowed happens until it is at the head of
    * the queue, and it is delivered: then each device of it that could be probed is decided by its probe.
    */
  lemma ProbeDecides(v: World, ds: seq<Probing>, es: seq<Event>, now: Timestamp, j: nat)
    requires InStep(v) && Settled(v) && Allowed(v, Publish(ds)) && AllowedRun(Advance(v, Publish(ds)), es)
    requires j < |ds| && ds[j].probe.Some?
    requires var u := AdvanceAll(Advance(v, Publish(ds)), es);
             u.open && u.queue != [] && u.handled == |v.sent| && Sendable(u.agent, BatchOf(v.agent, ds))
    ensures var u := AdvanceAll(Advance(v, Publish(ds)), es);
            var p, t := ds[j].probe.value, Advance(u, Deliver(now)).store;
            var k := CanonicalKey(Carried(p.identity));
            k in t.devices && Decided(Lookup(u.store, k), t.devices[k], v.agent, ds[j].ordinal, ds[j].at, p, now)
  {
    hide *;
    ProbePlaced(v.agent, ds, j);
    var w := Advance(v, Publish(ds));
    SentLast(v, ds);
    SentKept(w, es);
    AdvanceKeeps(v, Publish(ds));
    EverySendableIsAccepted(w, es);
    HeadDecides(AdvanceAll(w, es), now, v.agent, ds, j);
  }
}
