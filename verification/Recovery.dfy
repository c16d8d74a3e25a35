/** Recovery: what a coordinator restores after loading an image it saved. */
module Recovery {
  import opened Basics
  import opened Codec
  import opened Identity
  import opened Device
  import opened Pipeline
  import opened Records
  import opened Fleet
  import opened FleetRuns
  import opened FleetFencing
  import opened FleetReplay
  import opened FleetStore
  import ObservationCodec
  import opened StateCodec
  import opened SnapshotCodec
  import opened Sizes
  import opened Persistence

  /** The state restored from an image. */
  function Recover(image: Bytes): Result<State> {
    match Loaded(image)
    case Failure(why) => Failure(why)
    case Success(t) => Success(Restored(t))
  }

  /** The snapshot of s can be saved and loaded. */
  predicate Savable(s: State) {
    Countable(SnapshotOf(s)) && InBounds(SnapshotOf(s)) && |PutSnapshot(SnapshotOf(s), [])| <= 0x8000_0000
  }

  /** The state a saved s is recovered to. */
  function After(s: State): State
    requires DistinctClips(s.devices)
  {
    Restored(Clipped(SnapshotOf(s)))
  }

  lemma RecoverSaved(s: State)
    requires Savable(s)
    ensures DistinctClips(s.devices) && Recover(Image(SnapshotOf(s))) == Success(After(s))
  {
    hide PutSnapshot, Image, Loaded, Countable, Clipped, WorkersFit, DeviceFits;
    LoadSave(SnapshotOf(s));
  }

  /** A recovered device: held back, and otherwise as it was, with its texts cut. */
  predicate HeldBack(d: DeviceState, e: DeviceState) {
    && !e.isFresh && e.eligibility != Eligibility.ELIGIBLE
    && e == d.(
         isFresh := false,
         eligibility := if d.quarantined then Eligibility.QUARANTINED
                        else if d.drain != DrainState.ACTIVE then Eligibility.DRAINING else Eligibility.STALE,
         reasons := if d.quarantined || d.drain != DrainState.ACTIVE then d.reasons else [Reason.STALE_OBSERVATION],
         quarantine := d.quarantine.(reason := Clip(d.quarantine.reason, 512), source := Clip(d.quarantine.source, 128)),
         identity := ClipIdentity(d.identity), healthExplanation := Clip(d.healthExplanation, 4096),
         capabilities := ClipCapabilities(d.capabilities), validationDetail := Clip(d.validationDetail, 4096))
  }

  lemma RecoveredDevice(d: DeviceState)
    ensures HeldBack(d, Recovered(ClipDevice(d)))
  {
    hide Clip, ClipIdentity, ClipCapabilities;
  }

  /** A recovered worker: the same incarnation, with the same fence and its texts cut. */
  predicate SameIncarnation(v: WorkerRecord, w: WorkerRecord) {
    w == v.(worker := w.worker, osPlatform := Clip(v.osPlatform, 128), driverVersion := Clip(v.driverVersion, 128),
            devices := ClipTexts(v.devices, 256), capabilities := ClipTexts(v.capabilities, 128))
  }

  lemma ClippedWorker(e: (u64, WorkerRecord))
    ensures SameIncarnation(e.1, ClipWorker(e).1) && ClipWorker(e).1.worker == e.0
  {
    hide Clip, ClipTexts;
  }

  /** A change as it is after recovery: the same, with its texts cut. */
  predicate SameChange(c: ChangeRecord, d: ChangeRecord) {
    && d.kind == c.kind && d.deviceId == c.deviceId && d.at == c.at && d.generation == c.generation && d.epoch == c.epoch
    && d.detail == Clip(c.detail, 512) && d.from == Clip(c.from, 128) && d.to == Clip(c.to, 128)
  }

  lemma RecoveredRest(s: State)
    requires DistinctClips(s.devices)
    ensures var r := After(s);
            && r.nodeGeneration == s.nodeGeneration && r.nodes.Keys == s.nodes.Keys
            && (forall n :: n in s.nodes ==> r.nodes[n] == s.nodes[n].(node := n))
            && |r.log| == |s.log| && (forall i :: 0 <= i < |s.log| ==> SameChange(s.log[i], r.log[i]))
  {
    hide Clip, ClipDevices, ClipWorkers, RecoverAll, AccountingOf, DistinctClips;
  }

  /** Recovery leaves no device fresh or eligible, and keeps administration, generations, incarnations, fences, nodes and
    * the change log.
    */
  lemma RecoverySafe(s: State)
    requires DistinctClips(s.devices)
    ensures var r := After(s);
            && r.coordinator == s.coordinator && r.epoch == s.epoch && r.fleetGeneration == s.fleetGeneration
            && r.acceptedCount == 0
            && |r.devices| == |s.devices|
            && (forall k :: k in s.devices ==>
                  Clip(k, KEY) in r.devices && HeldBack(s.devices[k], r.devices[Clip(k, KEY)]))
            && (forall c :: c in r.devices ==> exists k :: k in s.devices && c == Clip(k, KEY))
            && r.workers.Keys == s.workers.Keys
            && (forall w :: w in s.workers ==> SameIncarnation(s.workers[w], r.workers[w]))
            && r.nodeGeneration == s.nodeGeneration && r.nodes.Keys == s.nodes.Keys
            && (forall n :: n in s.nodes ==> r.nodes[n] == s.nodes[n].(node := n))
            && |r.log| == |s.log| && (forall i :: 0 <= i < |s.log| ==> SameChange(s.log[i], r.log[i]))
  {
    hide Clip, ClipDevice, Recovered, HeldBack, ClipWorker, SameIncarnation, AccountingOf, SameChange, ClipNodes, ClipChange;
    RecoveredRest(s);
    var r := After(s);
    forall k | k in s.devices ensures Clip(k, KEY) in r.devices && HeldBack(s.devices[k], r.devices[Clip(k, KEY)]) {
      ClippedValue(s.devices, k);
      RecoveredDevice(s.devices[k]);
    }
    forall w | w in s.workers ensures SameIncarnation(s.workers[w], r.workers[w]) {
      ClippedWorker((w, s.workers[w]));
    }
    assert r.devices.Keys == ClipDevices(s.devices).Keys;
    ClippedCount(s.devices);
  }

  lemma {:induction false} ImageSize(s: set<Text>)
    requires forall j, k :: j in s && k in s && j != k ==> Clip(j, KEY) != Clip(k, KEY)
    ensures |set k | k in s :: Clip(k, KEY)| == |s|
    decreases |s|
  {
    hide Clip;
    if s == {} {
      assert (set k | k in s :: Clip(k, KEY)) == {};
    } else {
      var k :| k in s;
      ImageSize(s - {k});
      assert (set j | j in s :: Clip(j, KEY)) == (set j | j in s - {k} :: Clip(j, KEY)) + {Clip(k, KEY)};
    }
  }

  /** Clipping keeps as many devices as there were. */
  lemma ClippedCount(m: map<Text, DeviceState>)
    requires DistinctClips(m)
    ensures |ClipDevices(m)| == |m|
  {
    hide Clip, ClipDevice;
    ImageSize(m.Keys);
    assert ClipDevices(m).Keys == set k | k in m.Keys :: Clip(k, KEY);
  }

  // ---- The invariant after recovery ----

  lemma RecoveredSound(d: DeviceState)
    requires Sound(d)
    ensures Sound(Recovered(ClipDevice(d)))
  {
    hide Clip, ClipIdentity, ClipCapabilities;
  }

  lemma RecoveredAllSound(s: State)
    requires AllSound(s) && DistinctClips(s.devices)
    ensures AllSound(After(s))
  {
    hide Clip, ClipDevice, Recovered, Sound, AccountingOf, ClipWorkers, ClipNodes, MapSeq;
    forall c | c in After(s).devices ensures Sound(After(s).devices[c]) {
      var k :| k in s.devices && c == Clip(k, KEY);
      ClippedValue(s.devices, k);
      RecoveredSound(s.devices[k]);
    }
  }

  lemma RecoveredWorkersOk(s: State)
    requires WorkersOk(s) && DistinctClips(s.devices)
    ensures WorkersOk(After(s))
  {
    hide ClipDevices, RecoverAll, DistinctClips, Clip, ClipTexts, AccountingOf, MapSeq;
    var r := After(s);
    forall w | w in r.workers
      ensures r.workers[w].worker == w && r.workers[w].node in r.nodes && r.workers[w].registeredEpoch <= r.epoch
      ensures r.workers[w].lost || !r.workers[w].alive ==> r.workers[w].fenced
    {
      ClippedWorker((w, s.workers[w]));
    }
  }

  lemma ClippedLogOk(records: seq<ChangeRecord>, log: seq<ChangeRecord>, epoch: u64)
    requires log == LastN(records, MAX_LOG)
    requires forall i, j :: 0 <= i <= j < |records| ==> records[i].epoch <= records[j].epoch
    requires forall i :: 0 <= i < |records| ==> records[i].epoch <= epoch
    ensures var clipped := MapSeq(ClipChange, log);
            && clipped == LastN(clipped, MAX_LOG)
            && (forall i, j :: 0 <= i <= j < |clipped| ==> clipped[i].epoch <= clipped[j].epoch)
            && (forall i :: 0 <= i < |clipped| ==> clipped[i].epoch <= epoch)
  {
    hide Clip;
    var n := |records| - |log|;
    assert forall i :: 0 <= i < |log| ==> log[i] == records[n + i];
    assert forall i :: 0 <= i < |log| ==> MapSeq(ClipChange, log)[i].epoch == log[i].epoch;
  }

  lemma RecoveredLogOk(s: State)
    requires LogOk(s) && DistinctClips(s.devices)
    ensures LogOk(After(s))
  {
    hide ClipDevices, ClipWorkers, ClipNodes, RecoverAll, DistinctClips, ClipChange, MapSeq, AccountingOf, LastN;
    ClippedLogOk(s.records, s.log, s.epoch);
  }

  /** Recovery keeps the store consistent, whatever keys its devices are under. */
  lemma RecoveredConsistent(s: State)
    requires Consistent(s) && DistinctClips(s.devices)
    ensures Consistent(After(s))
  {
    hide WorkersOk, AllSound, LogOk, After, DistinctClips;
    RecoveredWorkersOk(s);
    RecoveredAllSound(s);
    RecoveredLogOk(s);
  }

  /** Devices are found under the keys of their identities after recovery exactly when clipping an identity and
    * clipping its key agree.
    */
  lemma RecoveredKeys(s: State)
    requires DistinctClips(s.devices)
    ensures KeysOk(After(s))
            <==> forall k :: k in s.devices ==> Clip(k, KEY) == CanonicalKey(ClipIdentity(s.devices[k].identity))
  {
    hide CanonicalKey, Clip, ClipDevice, Recovered, HeldBack, ClipIdentity, AccountingOf, ClipWorkers, ClipNodes, MapSeq;
    var r := After(s);
    forall k | k in s.devices
      ensures Clip(k, KEY) in r.devices && r.devices[Clip(k, KEY)].identity == ClipIdentity(s.devices[k].identity)
    {
      ClippedValue(s.devices, k);
      RecoveredIdentity(s.devices[k]);
    }
  }

  lemma RecoveredIdentity(d: DeviceState)
    ensures Recovered(ClipDevice(d)).identity == ClipIdentity(d.identity)
  {
    hide Clip, ClipIdentity, ClipCapabilities;
  }

  /** Every identity in the store is as a decoder leaves it. */
  predicate WithinLimits(s: State) {
    forall k :: k in s.devices ==> Storable(s.devices[k].identity)
  }

  /** Recovery re-establishes the store-wide invariant exactly when no device key is longer than a snapshot keeps. */
  lemma RecoveredInvariant(s: State)
    requires Invariant(s) && WithinLimits(s) && DistinctClips(s.devices)
    ensures Invariant(After(s)) <==> forall k :: k in s.devices ==> |k| <= 256
  {
    hide Consistent, CanonicalKey, ClipIdentity, After, DistinctClips;
    RecoveredConsistent(s);
    RecoveredKeys(s);
    assert forall k :: k in s.devices ==> k == CanonicalKey(ClipIdentity(s.devices[k].identity));
    assert forall k: Text :: Clip(k, KEY) == k <==> |k| <= KEY;
  }

  /** Recovery leaves every identity within the limits, whatever it was before. */
  lemma RecoveredWithinLimits(s: State)
    requires DistinctClips(s.devices)
    ensures WithinLimits(After(s))
  {
    hide Clip, ClipDevice, Recovered, ClipIdentity, AccountingOf, ClipWorkers, ClipNodes, MapSeq;
    forall c | c in After(s).devices ensures Storable(After(s).devices[c].identity) {
      var k :| k in s.devices && c == Clip(k, KEY);
      ClippedValue(s.devices, k);
      RecoveredIdentity(s.devices[k]);
      ClippedIdentity(s.devices[k].identity);
    }
  }

  lemma ClippedIdentity(d: DeviceIdentity)
    ensures Storable(ClipIdentity(d))
  {
    ClippedText(d.vendorName, 128);
    ClippedText(d.uuid, 128);
    ClippedText(d.architecture, 64);
    ClippedText(d.driverVersion, 128);
    hide Clip;
  }

  lemma NextWithinLimits(s: State, a: Action)
    requires WithinLimits(s) && (a.Accept? ==> Storable(a.o.identity))
    ensures WithinLimits(Next(s, a))
  {
    hide Next, CanonicalKey, ClipIdentity;
    forall k | k in Next(s, a).devices ensures Storable(Next(s, a).devices[k].identity) {
      NextIdentity(s, a, k);
    }
  }

  /** A call whose observations are as a decoder leaves them. */
  predicate Delivered(op: Op) {
    op.Ingest? ==> forall o :: o in op.obs ==> Storable(o.identity)
  }

  lemma StepWithinLimits(s: State, op: Op)
    requires WithinLimits(s) && Delivered(op)
    ensures WithinLimits(Step(s, op))
  {
    var p := (t: State) => WithinLimits(t);
    forall t, a | p(t) && Enabled(t, a) && From(op, a) ensures p(Next(t, a)) {
      assert a.Accept? ==> op.Ingest? && a.o in op.obs;
      hide Next, Enabled, From, WithinLimits;
      NextWithinLimits(t, a);
    }
    hide Step, Next, Enabled, From, WithinLimits;
    StepKeeps(s, op, p);
  }

  /** Every run of calls with decoded observations keeps the identities within the limits. */
  lemma RunWithinLimits(s: State, ops: seq<Op>)
    requires WithinLimits(s) && forall op :: op in ops ==> Delivered(op)
    ensures WithinLimits(Run(s, ops))
  {
    hide Step, Run, WithinLimits, Delivered;
    var p := (t: State) => WithinLimits(t);
    var allowed := (t: State, op: Op) => Delivered(op);
    forall t, op | p(t) && allowed(t, op) ensures p(Step(t, op)) {
      StepWithinLimits(t, op);
    }
    AlongAlways(s, ops, allowed);
    RunKeeps(s, ops, p, allowed);
  }

  // ---- A store that recovery breaks ----

  /** A worker registers with a new coordinator and reports one device. */
  function FirstReport(reg: Registration, o: Observation, policy: Policy, now: Timestamp): seq<Op> {
    [Register(reg, now), Ingest(reg.worker, [o], policy, now)]
  }

  lemma StepReports(s: State, w: u64, o: Observation, policy: Policy, now: Timestamp)
    requires s.devices == map[]
    ensures forall k :: k in Step(s, Ingest(w, [o], policy, now)).devices ==> k == Key(o)
  {
    var op := Ingest(w, [o], policy, now);
    var p := (t: State) => forall k :: k in t.devices ==> k == Key(o);
    forall t, a | p(t) && Enabled(t, a) && From(op, a) ensures p(Next(t, a)) {
      assert a.Accept? ==> a.o == o;
      hide Next, Enabled, From, CanonicalKey;
      forall k | k in Next(t, a).devices ensures k == Key(o) {
        NextIdentity(t, a, k);
      }
    }
    hide Step, Next, Enabled, From, CanonicalKey;
    StepKeeps(s, op, p);
  }

  lemma FirstReported(coordinator: u64, reg: Registration, o: Observation, policy: Policy, now: Timestamp)
    requires reg.protocolVersion != 0
    requires o.worker == reg.worker && o.workerBoot == reg.boot && o.epoch == reg.epoch
    ensures var s := Run(Initial(coordinator, reg.epoch), FirstReport(reg, o, policy, now));
            && s.devices.Keys == {Key(o)} && s.devices[Key(o)].workerBoot == reg.boot
            && reg.worker in s.workers && s.workers[reg.worker].boot == reg.boot && !s.workers[reg.worker].fenced
  {
    hide Step, CanonicalKey, AcceptanceOf;
    var s := Initial(coordinator, reg.epoch);
    Enrolled(s, reg, now);
    IngestOne(Step(s, Register(reg, now)), reg.worker, o, policy, now);
    StepReports(Step(s, Register(reg, now)), reg.worker, o, policy, now);
    RunTwo(s, Register(reg, now), Ingest(reg.worker, [o], policy, now));
  }

  /** Every first report of a device with a storable identity and a key of more than 256 bytes leads to a store that
    * satisfies the invariant and whose recovery does not; and its reporter may still publish.
    */
  lemma LongKeyBreaks(coordinator: u64, reg: Registration, o: Observation, policy: Policy, now: Timestamp)
    requires reg.protocolVersion != 0
    requires o.worker == reg.worker && o.workerBoot == reg.boot && o.epoch == reg.epoch
    requires Storable(o.identity) && |Key(o)| > KEY
    ensures var s := Run(Initial(coordinator, reg.epoch), FirstReport(reg, o, policy, now));
            && Invariant(s) && DistinctClips(s.devices) && !Invariant(After(s))
            && LiveLongKey(s, Key(o), (k: Text) => reg.worker)
  {
    hide Invariant, WithinLimits, Run, CanonicalKey, Clip, After;
    var s := Initial(coordinator, reg.epoch);
    var ops := FirstReport(reg, o, policy, now);
    assert forall op :: op in ops ==> Delivered(op);
    assert WithinLimits(s) by { NothingStored(coordinator, reg.epoch); }
    InitialInvariant(coordinator, reg.epoch);
    RunInvariant(s, ops);
    RunWithinLimits(s, ops);
    FirstReported(coordinator, reg, o, policy, now);
    assert Key(o) in Run(s, ops).devices;
    RecoveredInvariant(Run(s, ops));
  }

  lemma NothingStored(coordinator: u64, epoch: u64)
    ensures WithinLimits(Initial(coordinator, epoch))
  {
  }

  /** There are such identities: name and UUID of 128 bytes each are enough. */
  lemma LongKeys(d: DeviceIdentity)
    requires |d.vendorName| == |d.uuid| == 128
    ensures |CanonicalKey(d)| > 256
    ensures |d.architecture| <= 64 && |d.driverVersion| <= 128 ==> Storable(d)
  {
    hide VendorText, PciText, CapabilityText, Decimal;
  }

  /** After recovery nothing is usable until an observation of it is accepted, whatever else happens. */
  lemma RecoveredStaysDown(s: State, ops: seq<Op>, k: Text)
    requires Savable(s)
    ensures Recover(Image(SnapshotOf(s))).Success?
    ensures var r := Recover(Image(SnapshotOf(s))).value;
            Renewed(Run(r, ops), k, 0) || Down(Run(r, ops), k)
  {
    hide Savable, Run, Renewed, Recover, Image, DistinctClips;
    RecoverSaved(s);
    AllDown(s, k);
    OnlyAcceptanceRevives(After(s), ops, k);
  }

  lemma AllDown(s: State, k: Text)
    requires DistinctClips(s.devices)
    ensures Down(After(s), k) && After(s).accepts == []
  {
    hide ClipDevices, ClipWorkers, ClipNodes, AccountingOf, MapSeq, DistinctClips;
  }

  // ---- Replay across recovery ----

  /** The recovered state, remembering what was accepted before. */
  function Resumed(s: State): State
    requires DistinctClips(s.devices)
  {
    After(s).(accepts := s.accepts, retired := s.retired)
  }

  /** A device whose key is cut by recovery while the incarnation that reported it may still publish. */
  predicate LiveLongKey(s: State, k: Text, reporter: Text -> u64) {
    && k in s.devices && |k| > KEY
    && reporter(k) in s.workers && !s.workers[reporter(k)].fenced
    && s.devices[k].workerBoot == s.workers[reporter(k)].boot
  }

  lemma ResumedWorker(s: State, w: u64)
    requires DistinctClips(s.devices) && w in s.workers
    ensures w in Resumed(s).workers && SameIncarnation(s.workers[w], Resumed(s).workers[w])
  {
    hide DistinctClips, RecoverAll, ClipDevices, ClipNodes, MapSeq, AccountingOf, ClipWorker, SameIncarnation;
    ClippedWorker((w, s.workers[w]));
  }

  lemma ResumedDevice(s: State, k: Text)
    requires DistinctClips(s.devices) && k in s.devices && |k| <= KEY
    ensures k in Resumed(s).devices && HeldBack(s.devices[k], Resumed(s).devices[k])
  {
    hide DistinctClips, Clip, ClipDevice, Recovered, HeldBack, ClipNodes, ClipWorkers, MapSeq, AccountingOf;
    assert Clip(k, KEY) == k by { ShortText(k); }
    ClippedValue(s.devices, k);
    RecoveredDevice(s.devices[k]);
  }

  lemma ShortText(k: Text)
    ensures |Clip(k, KEY)| <= KEY && (|k| <= KEY ==> Clip(k, KEY) == k)
  {
  }

  lemma ResumedKeys(s: State, k: Text)
    requires DistinctClips(s.devices) && k in Resumed(s).devices
    ensures |k| <= KEY
  {
    hide DistinctClips, Clip, ClipDevice, Recovered, ClipNodes, ClipWorkers, MapSeq, AccountingOf;
    var j :| j in s.devices && k == Clip(j, KEY);
    ShortText(j);
  }

  lemma ResumedCovered(s: State, a: Acceptance, reporter: Text -> u64)
    requires DistinctClips(s.devices) && !LiveLongKey(s, a.key, reporter) && Covered(s, a, reporter)
    ensures Covered(Resumed(s), a, reporter)
  {
    hide DistinctClips, Resumed;
    assert Resumed(s).retired == s.retired by { ResumedHistory(s); }
    if a.worker in s.workers {
      ResumedWorker(s, a.worker);
    }
    if a.key in s.devices && |a.key| <= KEY {
      ResumedDevice(s, a.key);
    }
  }

  lemma ResumedBoots(s: State)
    requires DistinctClips(s.devices) && BootsOk(s)
    ensures BootsOk(Resumed(s))
  {
    hide DistinctClips, RecoverAll, ClipDevices, ClipNodes, MapSeq, AccountingOf, Clip, ClipTexts;
    forall w | w in s.workers ensures ClipWorker((w, s.workers[w])).1.boot == s.workers[w].boot {
      ClippedWorker((w, s.workers[w]));
    }
  }

  lemma ResumedHistory(s: State)
    requires DistinctClips(s.devices)
    ensures Resumed(s).accepts == s.accepts && Resumed(s).retired == s.retired && Resumed(s).epoch == s.epoch
  {
    hide DistinctClips, RecoverAll, ClipDevices, ClipWorkers, ClipNodes, MapSeq, AccountingOf;
  }

  /** A recovery keeps a store safe, as long as no device that can still be reported has its key cut. */
  lemma ResumedSafe(s: State, reporter: Text -> u64)
    requires Safe(s, reporter) && DistinctClips(s.devices) && forall k :: !LiveLongKey(s, k, reporter)
    ensures Safe(Resumed(s), reporter)
  {
    hide Covered, Resumed, LiveLongKey, DistinctClips, BootsOk;
    ResumedHistory(s);
    forall i | 0 <= i < |s.accepts| ensures Covered(Resumed(s), s.accepts[i], reporter) {
      ResumedCovered(s, s.accepts[i], reporter);
    }
    ResumedBoots(s);
  }

  /** What was accepted before a save is not accepted again after the recovery, nor is anything accepted twice across
    * both, as long as no device that can still be reported has its key cut.
    */
  lemma ReplaySafetyAcrossRecovery(s: State, ops: seq<Op>, reporter: Text -> u64)
    requires Safe(s, reporter) && DistinctClips(s.devices) && forall k :: !LiveLongKey(s, k, reporter)
    requires DisciplinedRun(Resumed(s), ops, reporter)
    ensures s.accepts <= Run(Resumed(s), ops).accepts
    ensures NeverReplayed(Run(Resumed(s), ops).accepts)
  {
    hide Safe, Resumed, LiveLongKey, DisciplinedRun, Run, DistinctClips;
    ResumedHistory(s);
    ResumedSafe(s, reporter);
    SafeRuns(Resumed(s), ops, reporter);
    AcceptancesStay(Resumed(s), ops);
    SafeNeverReplayed(Run(Resumed(s), ops), reporter);
  }

  /** An observation that may be sent again: no newer than what its device was at, from the same live incarnation. */
  predicate Resendable(s: State, o: Observation) {
    && Key(o) in s.devices && o.workerBoot == s.devices[Key(o)].workerBoot
    && o.observationGeneration <= s.devices[Key(o)].observationGeneration
    && o.epoch == s.epoch && o.worker in s.workers && o.workerBoot == s.workers[o.worker].boot
    && !s.workers[o.worker].fenced && !s.workers[o.worker].lost
  }

  lemma ResendAccepted(s: State, o: Observation, policy: Policy, now: Timestamp)
    requires DistinctClips(s.devices) && Resendable(s, o) && |Key(o)| > KEY
    ensures Step(Resumed(s), Ingest(o.worker, [o], policy, now)).accepts == s.accepts + [AcceptanceOf(o.worker, o)]
  {
    hide DistinctClips, Resumed, Step, CanonicalKey, AcceptanceOf;
    ResumedHistory(s);
    ResumedWorker(s, o.worker);
    if Key(o) in Resumed(s).devices {
      ResumedKeys(s, Key(o));
    }
    IngestOne(Resumed(s), o.worker, o, policy, now);
  }

  /** Before the recovery such an observation is skipped; after it, one whose device key is cut is accepted again. */
  lemma LongKeyReplays(s: State, o: Observation, policy: Policy, now: Timestamp)
    requires DistinctClips(s.devices) && Resendable(s, o) && |Key(o)| > KEY && Backed(s)
    ensures Judge(s, o.worker, o) == Skipped
    ensures !NeverReplayed(Run(Resumed(s), [Ingest(o.worker, [o], policy, now)]).accepts)
  {
    hide DistinctClips, Resumed, Step, CanonicalKey;
    ResendAccepted(s, o, policy, now);
    var op := Ingest(o.worker, [o], policy, now);
    RunOne(Resumed(s), op);
    var accepts := Run(Resumed(s), [op]).accepts;
    assert Rests(s, Key(o));
    var i :| 0 <= i < |s.accepts| && Brought(s.accepts[i], Key(o), s.devices[Key(o)]);
    assert !Ordered(accepts[i], accepts[|s.accepts|]);
  }

  lemma RunOne(s: State, op: Op)
    ensures Run(s, [op]) == Step(s, op)
  {
    hide Step;
    assert [op][1..] == [];
  }

  /** The evidence of a device, put into an observation again. */
  function ResentOf(s: State, k: Text, w: u64): Observation
    requires k in s.devices
  {
    ObservationCodec.NO_OBSERVATION.(
      identity := s.devices[k].identity, worker := w, workerBoot := s.devices[k].workerBoot, epoch := s.epoch,
      observationGeneration := s.devices[k].observationGeneration)
  }

  lemma LiveLongKeyReplays(s: State, k: Text, reporter: Text -> u64) returns (op: Op)
    requires Backed(s) && KeysOk(s) && WorkersOk(s) && DistinctClips(s.devices) && LiveLongKey(s, k, reporter)
    ensures DisciplinedRun(Resumed(s), [op], reporter) && !NeverReplayed(Run(Resumed(s), [op]).accepts)
  {
    hide DistinctClips, Resumed, Step, Run, CanonicalKey, Backed, NeverReplayed;
    var w := reporter(k);
    var o := ResentOf(s, k, w);
    assert Key(o) == k;
    var policy := Policy(0, [], ComputeCapability(0, 0), 0, false, []);
    LongKeyReplays(s, o, policy, 0);
    op := Ingest(w, [o], policy, 0);
    hide DisciplinedRun;
    DisciplinedOnce(Resumed(s), op, reporter);
  }

  /** Exactly when recovery is safe against replay: over all runs that keep to the discipline, nothing is accepted twice
    * exactly when no device key is cut whose reporting incarnation is current and unfenced.
    */
  lemma ReplayAcrossRecoveryExact(s: State, reporter: Text -> u64)
    requires Safe(s, reporter) && Backed(s) && KeysOk(s) && WorkersOk(s) && DistinctClips(s.devices)
    ensures (forall ops :: DisciplinedRun(Resumed(s), ops, reporter) ==> NeverReplayed(Run(Resumed(s), ops).accepts))
            <==> (forall k :: k in s.devices ==> !LiveLongKey(s, k, reporter))
  {
    hide Safe, Backed, KeysOk, WorkersOk, DistinctClips, Resumed, DisciplinedRun, Run, NeverReplayed;
    if k :| k in s.devices && LiveLongKey(s, k, reporter) {
      var op := LiveLongKeyReplays(s, k, reporter);
    } else {
      forall ops | DisciplinedRun(Resumed(s), ops, reporter) ensures NeverReplayed(Run(Resumed(s), ops).accepts) {
        ReplaySafetyAcrossRecovery(s, ops, reporter);
      }
    }
  }

  // ---- Recovering twice ----

  lemma ClippedAgain(d: DeviceState)
    ensures Recovered(ClipDevice(Recovered(ClipDevice(d)))) == Recovered(ClipDevice(d))
    ensures ClipDevice(Recovered(ClipDevice(d))) == Recovered(ClipDevice(d))
  {
    ClippedText(d.identity.vendorName, 128);
    ClippedText(d.identity.uuid, 128);
    ClippedText(d.identity.architecture, 64);
    ClippedText(d.identity.driverVersion, 128);
    ClippedText(d.healthExplanation, 4096);
    ClippedText(d.quarantine.reason, 512);
    ClippedText(d.quarantine.source, 128);
    ClippedText(d.validationDetail, 4096);
    ClippedCapabilities(d.capabilities);
    hide Clip, ClipCapabilities;
  }

  /** Nothing is left to clip or to hold back. */
  predicate Settled(r: map<Text, DeviceState>) {
    forall c :: c in r ==> Clip(c, KEY) == c && ClipDevice(r[c]) == r[c] && Recovered(r[c]) == r[c]
  }

  lemma RecoveredSettled(m: map<Text, DeviceState>)
    requires DistinctClips(m)
    ensures Settled(RecoverAll(ClipDevices(m)))
  {
    hide Clip, ClipDevice, Recovered;
    var r := RecoverAll(ClipDevices(m));
    forall c | c in r ensures Clip(c, KEY) == c && ClipDevice(r[c]) == r[c] && Recovered(r[c]) == r[c] {
      var k :| k in m && c == Clip(k, KEY);
      ClippedText(k, KEY);
      ClippedAgain(m[k]);
    }
  }

  lemma SettledStays(r: map<Text, DeviceState>)
    requires Settled(r)
    ensures DistinctClips(r) && RecoverAll(ClipDevices(r)) == r
  {
    hide Clip, ClipDevice, Recovered;
    assert DistinctClips(r);
    var q := ClipDevices(r);
    forall c | c in r ensures c in q && q[c] == r[c] {
      ClippedValue(r, c);
    }
    assert q == r;
  }

  lemma DevicesAgain(m: map<Text, DeviceState>)
    requires DistinctClips(m)
    ensures var r := RecoverAll(ClipDevices(m)); DistinctClips(r) && RecoverAll(ClipDevices(r)) == r
  {
    hide Settled, DistinctClips, RecoverAll, ClipDevices;
    RecoveredSettled(m);
    SettledStays(RecoverAll(ClipDevices(m)));
  }

  lemma WorkersAgain(m: map<u64, WorkerRecord>)
    ensures ClipWorkers(ClipWorkers(m)) == ClipWorkers(m)
  {
    forall k | k in m ensures ClipWorker((k, ClipWorker((k, m[k])).1)) == ClipWorker((k, m[k])) {
      var wr := m[k];
      ClippedText(wr.osPlatform, 128);
      ClippedText(wr.driverVersion, 128);
      ClippedTexts(wr.devices, 256);
      ClippedTexts(wr.capabilities, 128);
      hide Clip, ClipTexts;
    }
  }

  lemma LogAgain(log: seq<ChangeRecord>)
    ensures MapSeq(ClipChange, MapSeq(ClipChange, log)) == MapSeq(ClipChange, log)
  {
    forall c ensures ClipChange(ClipChange(c)) == ClipChange(c) {
      ClippedText(c.detail, 512);
      ClippedText(c.from, 128);
      ClippedText(c.to, 128);
      hide Clip;
    }
  }

  lemma AfterAgain(s: State)
    requires DistinctClips(s.devices)
    ensures DistinctClips(After(s).devices) && After(After(s)) == After(s)
  {
    hide ClipDevices, ClipWorkers, ClipNode, RecoverAll, AccountingOf, MapSeq, DistinctClips;
    DevicesAgain(s.devices);
    WorkersAgain(s.workers);
    LogAgain(s.log);
    assert ClipNodes(ClipNodes(s.nodes)) == ClipNodes(s.nodes);
  }

  lemma ClippedFits(d: DeviceState)
    requires DeviceFits(d)
    ensures DeviceFits(Recovered(ClipDevice(d)))
  {
    hide Clip, ClipIdentity;
  }

  lemma EveryDeviceFits(m: map<Text, DeviceState>, c: Text)
    requires DevicesFit(m) && c in RecoverAll(ClipDevices(m))
    ensures DeviceFits(RecoverAll(ClipDevices(m))[c])
  {
    hide Clip, ClipDevice, Recovered, DeviceFits, DistinctClips;
    var k :| k in m && c == Clip(k, KEY);
    ClippedValue(m, k);
    ClippedFits(m[k]);
  }

  lemma DevicesStillFit(m: map<Text, DeviceState>)
    requires DevicesFit(m)
    ensures DevicesFit(RecoverAll(ClipDevices(m)))
  {
    hide ClipDevices, DistinctClips, RecoverAll, DeviceFits;
    DevicesAgain(m);
    RecoveredCount(m);
    forall c | c in RecoverAll(ClipDevices(m)) ensures DeviceFits(RecoverAll(ClipDevices(m))[c]) {
      EveryDeviceFits(m, c);
    }
  }

  lemma RecoveredCount(m: map<Text, DeviceState>)
    requires DistinctClips(m)
    ensures |RecoverAll(ClipDevices(m))| == |m|
  {
    hide ClipDevices, DistinctClips, Recovered;
    ClippedCount(m);
    assert RecoverAll(ClipDevices(m)).Keys == ClipDevices(m).Keys;
  }

  lemma WorkersStillFit(m: map<u64, WorkerRecord>)
    requires WorkersFit(m)
    ensures WorkersFit(ClipWorkers(m))
  {
    hide Clip;
    assert ClipWorkers(m).Keys == m.Keys;
  }

  lemma NodesStillFit(m: map<u64, NodeRecord>)
    ensures |ClipNodes(m)| == |m|
  {
    assert ClipNodes(m).Keys == m.Keys;
  }

  lemma WithinCounts(s: Snapshot)
    requires InBounds(s)
    ensures Countable(s)
  {
    hide DistinctClips;
  }

  /** The recovered state is within the decoder's bounds when the state before was. */
  lemma StillInBounds(s: State)
    requires InBounds(SnapshotOf(s))
    ensures InBounds(SnapshotOf(After(s))) && Countable(SnapshotOf(After(s)))
  {
    hide DistinctClips, ClipDevices, ClipWorkers, ClipNodes, RecoverAll, AccountingOf, WorkersFit, Countable, DeviceFits;
    DevicesStillFit(s.devices);
    WorkersStillFit(s.workers);
    NodesStillFit(s.nodes);
    WithinCounts(SnapshotOf(After(s)));
  }

  lemma ClippedHealth(d: DeviceState)
    ensures ClipDevice(d).eligibility == d.eligibility && (Sound(d) ==> Sound(ClipDevice(d)))
  {
    hide Clip, ClipIdentity, ClipCapabilities;
  }

  lemma ClippedAllSound(m: map<Text, DeviceState>)
    requires DistinctClips(m) && forall k :: k in m ==> Sound(m[k])
    ensures forall c :: c in ClipDevices(m) ==> Sound(ClipDevices(m)[c])
  {
    hide Clip, ClipDevice, Sound;
    forall c | c in ClipDevices(m) ensures Sound(ClipDevices(m)[c]) {
      var k :| k in m && c == Clip(k, KEY);
      ClippedValue(m, k);
      ClippedHealth(m[k]);
    }
  }

  lemma ClippedEligible(m: map<Text, DeviceState>)
    requires DistinctClips(m)
    ensures |DevicesIn(ClipDevices(m), Eligibility.ELIGIBLE)| == |DevicesIn(m, Eligibility.ELIGIBLE)|
  {
    hide Clip, ClipDevice;
    var c := ClipDevices(m);
    forall k | k in m ensures Clip(k, KEY) in c && c[Clip(k, KEY)].eligibility == m[k].eligibility {
      ClippedValue(m, k);
      ClippedHealth(m[k]);
    }
    ImageSize(DevicesIn(m, Eligibility.ELIGIBLE));
    assert DevicesIn(c, Eligibility.ELIGIBLE) == set k | k in DevicesIn(m, Eligibility.ELIGIBLE) :: Clip(k, KEY);
  }

  /** The second image is longer than the first by one byte for each device that was eligible. */
  lemma RecoveryGrows(s: State)
    requires AllSound(s) && DistinctClips(s.devices)
    ensures |PutSnapshot(SnapshotOf(After(s)), [])|
            == |PutSnapshot(SnapshotOf(s), [])| + |DevicesIn(s.devices, Eligibility.ELIGIBLE)|
  {
    hide ClipDevices, ClipWorkers, ClipNodes, RecoverAll, AccountingOf, MapSeq, PutSnapshot, DistinctClips, DevicesIn, Sound;
    ReencodesTheSame(SnapshotOf(s), []);
    ClippedAllSound(s.devices);
    ClippedEligible(s.devices);
    HoldingBackGrows(Clipped(SnapshotOf(s)), SnapshotOf(After(s)));
  }

  /** Saving, loading and restoring a second time changes nothing; it succeeds exactly when the second image, longer by
    * one byte for each device that was eligible, is still within the loader's bound.
    */
  lemma RecoverTwice(s: State)
    requires AllSound(s) && Savable(s)
    ensures Recover(Image(SnapshotOf(s))).Success?
    ensures var r := Recover(Image(SnapshotOf(s))).value;
            && (Recover(Image(SnapshotOf(r))).Success?
                <==> |PutSnapshot(SnapshotOf(s), [])| + |DevicesIn(s.devices, Eligibility.ELIGIBLE)| <= MAX_BODY)
            && (Recover(Image(SnapshotOf(r))).Success? ==> Recover(Image(SnapshotOf(r))).value == r)
  {
    hide AllSound, After, PutSnapshot, Image, Loaded, InBounds, Countable, Clipped, DistinctClips, DevicesIn;
    RecoverSaved(s);
    RecoveryGrows(s);
    StillInBounds(s);
    AfterAgain(s);
    LoadSave(SnapshotOf(After(s)));
    if Savable(After(s)) {
      RecoverSaved(After(s));
    }
  }

  /** The digest a coordinator reports after recovering twice is the one it reports after recovering once. */
  lemma DigestAfterRecovery(s: State)
    requires AllSound(s) && Savable(s)
    requires |PutSnapshot(SnapshotOf(s), [])| + |DevicesIn(s.devices, Eligibility.ELIGIBLE)| <= MAX_BODY
    ensures Recover(Image(SnapshotOf(s))).Success?
    ensures var once := Recover(Image(SnapshotOf(s))).value;
            && Recover(Image(SnapshotOf(once))).Success?
            && Digest(SnapshotOf(Recover(Image(SnapshotOf(once))).value)) == Digest(SnapshotOf(once))
            && Digest(Loaded(Image(SnapshotOf(once))).value) == Digest(SnapshotOf(once))
  {
    hide AllSound, After, PutSnapshot, Image, Loaded, InBounds, Countable, Clipped, DistinctClips, DevicesIn, Digest, Recover,
         AccountingOf;
    RecoverSaved(s);
    RecoverTwice(s);
    RecoveryGrows(s);
    StillInBounds(s);
    AfterAgain(s);
    LoadSave(SnapshotOf(After(s)));
    DigestStable(SnapshotOf(After(s)));
  }
}
