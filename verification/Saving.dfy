/** When the state file of a coordinator can be loaded again: exactly which stores, and stores that are not among them. */
module Saving {
  import opened Basics
  import opened Codec
  import opened Identity
  import opened Device
  import opened Pipeline
  import opened Records
  import opened Fleet
  import opened FleetRuns
  import FleetReplay
  import opened FleetBatch
  import opened Delivery
  import opened FleetStore
  import opened StateCodec
  import opened SnapshotCodec
  import opened Persistence
  import opened Recovery
  import ObservationCodec

  // ---- Lists as decoders leave them ----

  /** The capability lists of devices and workers are as a decoder leaves them. */
  predicate Bounded(s: State) {
    && (forall k :: k in s.devices ==> |s.devices[k].capabilities| <= CAPABILITIES)
    && (forall w :: w in s.workers ==> |s.workers[w].capabilities| <= LISTED)
  }

  /** A call whose capability lists are as a decoder leaves them. */
  predicate Moderate(op: Op) {
    && (op.Ingest? ==> forall o :: o in op.obs ==> ObservationCodec.WithinCapabilities(o))
    && (op.Register? ==> |op.reg.capabilities| <= LISTED)
  }

  lemma InitialBounded(coordinator: u64, epoch: u64)
    ensures Bounded(Initial(coordinator, epoch))
  {
  }

  lemma AppliedCapabilities(s: State, o: Observation, policy: Policy, now: Timestamp)
    ensures AppliedTo(s, o, policy, now).state.capabilities == o.capabilities
  {
    hide CanonicalKey, Diff, EvaluateHealth, EvaluateEligibility, Fresh;
  }

  /** Only an acceptance gives a device its capabilities. */
  lemma NextCapabilities(s: State, a: Action, k: Text)
    requires k in Next(s, a).devices
    ensures a.Accept? && Key(a.o) == k ==> Next(s, a).devices[k].capabilities == a.o.capabilities
    ensures !(a.Accept? && Key(a.o) == k) ==>
              k in s.devices && Next(s, a).devices[k].capabilities == s.devices[k].capabilities
  {
    hide Next, CanonicalKey, AppliedTo, EvaluateEligibility;
    if Target(a) != Some(k) {
      OtherDevicesUntouched(s, a, k);
    } else {
      TargetDevice(s, a, k);
      if a.Accept? {
        AppliedCapabilities(s, a.o, a.policy, a.now);
      }
    }
  }

  lemma NextBounded(s: State, a: Action)
    requires Bounded(s) && (a.Accept? ==> ObservationCodec.WithinCapabilities(a.o))
    requires a.Admit? ==> |a.record.capabilities| <= LISTED
    ensures Bounded(Next(s, a))
  {
    hide Next, CanonicalKey;
    forall k | k in Next(s, a).devices ensures |Next(s, a).devices[k].capabilities| <= CAPABILITIES {
      NextCapabilities(s, a, k);
    }
    NextWorkers(s, a);
  }

  lemma StepBounded(s: State, op: Op)
    requires Bounded(s) && Moderate(op)
    ensures Bounded(Step(s, op))
  {
    var p := (t: State) => Bounded(t);
    forall t, a | p(t) && Enabled(t, a) && From(op, a) ensures p(Next(t, a)) {
      assert a.Accept? ==> ObservationCodec.WithinCapabilities(a.o);
      assert a.Admit? ==> |a.record.capabilities| <= LISTED;
      hide Next, Enabled, From, Bounded;
      NextBounded(t, a);
    }
    hide Step, Next, Enabled, From, Bounded;
    StepKeeps(s, op, p);
  }

  lemma SameCapabilityCounts(d: DeviceState, e: (u64, WorkerRecord))
    ensures |Recovered(ClipDevice(d)).capabilities| == |d.capabilities|
    ensures |ClipWorker(e).1.capabilities| == |e.1.capabilities|
  {
    hide Clip, ClipIdentity;
  }

  lemma AfterBounded(s: State)
    requires Bounded(s) && DistinctClips(s.devices)
    ensures Bounded(After(s))
  {
    hide Clip, ClipDevice, Recovered, ClipWorker, AccountingOf, ClipNodes, MapSeq, DistinctClips;
    forall c | c in After(s).devices ensures |After(s).devices[c].capabilities| <= CAPABILITIES {
      var k :| k in s.devices && c == Clip(k, KEY);
      ClippedValue(s.devices, k);
      SameCapabilityCounts(s.devices[k], (0, NO_WORKER));
    }
    forall w | w in After(s).workers ensures |After(s).workers[w].capabilities| <= LISTED {
      SameCapabilityCounts(BLANK, (w, s.workers[w]));
    }
  }

  // ---- Which stores can be saved and loaded ----

  /** What the loader asks for, beyond what every store reached through decoders has. */
  predicate RoomToSave(s: State) {
    && |s.nodes| <= 100000 && |s.workers| <= 100000 && |s.devices| <= 100000
    && (forall w :: w in s.workers ==> |s.workers[w].devices| <= 4096)
    && DistinctClips(s.devices)
    && |PutSnapshot(SnapshotOf(s), [])| <= 0x8000_0000
  }

  lemma LogShort(s: State)
    requires LogOk(s)
    ensures |s.log| <= MAX_LOG
  {
  }

  /** The counts of a state fit the 32 bits they are written in. */
  lemma CountsFit(s: State)
    requires Consistent(s) && Bounded(s)
    requires |s.nodes| < 0x1_0000_0000 && |s.workers| < 0x1_0000_0000 && |s.devices| < 0x1_0000_0000
    requires forall w :: w in s.workers ==> |s.workers[w].devices| < 0x1_0000_0000
    ensures Countable(SnapshotOf(s))
  {
    hide AccountingOf;
    LogShort(s);
  }

  /** A store reached through decoders can be saved and loaded exactly when there is room: few enough nodes, workers and
    * devices, short enough device lists, device keys that differ in their first 256 bytes, and not too many bytes in all.
    */
  lemma SavableExact(s: State)
    requires Consistent(s) && Bounded(s)
    ensures Savable(s) <==> RoomToSave(s)
  {
    hide AccountingOf, PutSnapshot, DistinctClips, WorkersOk;
    LogShort(s);
  }

  /** So its image is loaded exactly then. */
  lemma LoadsExactly(s: State)
    requires Consistent(s) && Bounded(s) && Countable(SnapshotOf(s))
    ensures Recover(Image(SnapshotOf(s))).Success? <==> RoomToSave(s)
  {
    hide Consistent, Bounded, RoomToSave, Countable, InBounds, PutSnapshot, Image, Loaded, Clipped, Restored, SnapshotOf;
    SavableExact(s);
    LoadSave(SnapshotOf(s));
  }

  // ---- Stores that cannot be loaded again ----

  /** A worker registers with a new coordinator and publishes its first batch. */
  function FirstBatch(reg: Registration, obs: seq<Observation>, policy: Policy, now: Timestamp): seq<Op> {
    [Register(reg, now), Ingest(reg.worker, obs, policy, now)]
  }

  /** The batch is one such a worker publishes, with lists as decoders leave them. */
  predicate FirstReport(reg: Registration, obs: seq<Observation>, due: Due) {
    && reg.protocolVersion != 0 && |reg.devices| <= LISTED && |reg.capabilities| <= LISTED
    && |obs| <= ObservationCodec.BATCH && (forall o :: o in obs ==> ObservationCodec.WithinCapabilities(o))
    && due.worker == reg.worker && due.boot == reg.boot && due.epoch == reg.epoch
    && DueBatch(obs, due)
  }

  lemma FirstPrepared(coordinator: u64, reg: Registration, obs: seq<Observation>, due: Due, now: Timestamp)
    requires FirstReport(reg, obs, due)
    ensures var t := Step(Initial(coordinator, reg.epoch), Register(reg, now));
            && Prepared(t, due) && t.devices == map[] && t.workers.Keys == {reg.worker} && t.nodes.Keys == {reg.node}
            && t.workers[reg.worker].devices == reg.devices
  {
    hide DueBatch, ObservationCodec.WithinCapabilities, Prepared;
    var s := Initial(coordinator, reg.epoch);
    FirstAdmitted(s, reg, now);
    AdmittedReady(s, reg, now, due);
  }

  lemma FirstBatchFold(obs: seq<Observation>, policy: Policy, now: Timestamp, epoch: u64, k: Text)
    requires DistinctDevices(obs)
    ensures KeyFold(None, k, obs, policy, now, epoch).accepted > 0 <==> Reports(obs, k)
    ensures KeyFold(None, k, obs, policy, now, epoch).accepted == 0 ==>
              KeyFold(None, k, obs, policy, now, epoch) == Folded(None, 0)
    ensures KeyFold(None, k, obs, policy, now, epoch).accepted > 0 ==> KeyFold(None, k, obs, policy, now, epoch).device.Some?
  {
    hide CanonicalKey, KeyFold, FleetBatch.Renewed, DistinctDevices;
    if i :| 0 <= i < |obs| && Key(obs[i]) == k {
      FoldDistinct(None, obs, i, policy, now, epoch);
    } else {
      FoldNone(None, k, obs, policy, now, epoch);
    }
  }

  /** The batch reports a device under k. */
  predicate Reports(obs: seq<Observation>, k: Text) { exists i :: 0 <= i < |obs| && Key(obs[i]) == k }

  lemma FirstBatchDevice(s: State, due: Due, obs: seq<Observation>, policy: Policy, now: Timestamp, k: Text)
    requires Prepared(s, due) && s.devices == map[] && DueBatch(obs, due)
    ensures k in Step(s, Ingest(due.worker, obs, policy, now)).devices <==> Reports(obs, k)
  {
    hide CanonicalKey, KeyFold, Step, PlanOf, FleetBatch.Renewed, Judge, Reached, Reports, OlderThan, DistinctDevices, Vanished;
    DueTakenAll(s, due, obs, policy, now);
    BatchAccepted(s, due.worker, obs, policy, now, k);
    FirstBatchFold(obs, policy, now, s.epoch, k);
  }

  lemma {:induction false} ElementCount<T>(xs: seq<T>)
    requires forall i, j :: 0 <= i < j < |xs| ==> xs[i] != xs[j]
    ensures |set x | x in xs| == |xs|
  {
    if xs != [] {
      var n := |xs| - 1;
      ElementCount(xs[..n]);
      assert (set x | x in xs) == (set x | x in xs[..n]) + {xs[n]};
    }
  }

  lemma SameCount<T>(xs: seq<T>, ys: seq<T>)
    requires forall i, j :: 0 <= i < j < |xs| ==> xs[i] != xs[j]
    requires forall i, j :: 0 <= i < j < |ys| ==> ys[i] != ys[j]
    requires forall x :: x in xs <==> x in ys
    ensures |xs| == |ys|
  {
    ElementCount(xs);
    ElementCount(ys);
    assert (set x | x in xs) == (set y | y in ys);
  }

  function KeysOf(obs: seq<Observation>): seq<Text> { MapSeq((o: Observation) => Key(o), obs) }

  lemma ReportedKeys(obs: seq<Observation>)
    requires DistinctDevices(obs)
    ensures forall k :: k in KeysOf(obs) <==> Reports(obs, k)
    ensures forall i, j :: 0 <= i < j < |KeysOf(obs)| ==> KeysOf(obs)[i] != KeysOf(obs)[j]
    ensures |KeysOf(obs)| == |obs|
  {
    hide CanonicalKey;
    forall k ensures k in KeysOf(obs) <==> Reports(obs, k) {
      if k in KeysOf(obs) {
        var i :| 0 <= i < |KeysOf(obs)| && KeysOf(obs)[i] == k;
        assert Key(obs[i]) == k;
      }
      if i :| 0 <= i < |obs| && Key(obs[i]) == k {
        assert KeysOf(obs)[i] == k;
      }
    }
  }

  /** What the store holds after the first batch: every device it reports, and the listed devices twice if need be. */
  lemma FirstBatchStored(s: State, due: Due, obs: seq<Observation>, policy: Policy, now: Timestamp)
    requires Prepared(s, due) && s.devices == map[] && s.workers.Keys == {due.worker} && DueBatch(obs, due)
    ensures var t := Step(s, Ingest(due.worker, obs, policy, now));
            && t.workers.Keys == {due.worker}
            && |t.workers[due.worker].devices| == |s.workers[due.worker].devices| + |obs|
            && (forall k :: k in t.devices <==> Reports(obs, k))
  {
    hide CanonicalKey, KeyFold, Step, PlanOf, Judge, Reached, KeysOf, Reports, OlderThan, DistinctDevices;
    var w := due.worker;
    DueTakenAll(s, due, obs, policy, now);
    var added := BatchWorkers(s, w, obs, policy, now);
    var t := Step(s, Ingest(w, obs, policy, now));
    forall k ensures (k in t.devices <==> Reports(obs, k)) && (k in added <==> Reports(obs, k)) {
      FirstBatchDevice(s, due, obs, policy, now, k);
      FirstBatchFold(obs, policy, now, s.epoch, k);
    }
    ReportedKeys(obs);
    SameCount(added, KeysOf(obs));
  }

  lemma NodesKept(s: State, op: Op)
    requires !op.Register?
    ensures Step(s, op).nodes.Keys == s.nodes.Keys
  {
    var p := (t: State) => t.nodes.Keys == s.nodes.Keys;
    forall t, a | p(t) && Enabled(t, a) && From(op, a) ensures p(Next(t, a)) {
      assert !a.Admit?;
      hide Next, Enabled, From;
      NextWorkers(t, a);
    }
    hide Step, Next, Enabled, From;
    StepKeeps(s, op, p);
  }

  /** The keys of a batch stay apart when they are cut. */
  predicate KeptApart(obs: seq<Observation>) {
    forall i, j :: 0 <= i < j < |obs| ==> Clip(Key(obs[i]), KEY) != Clip(Key(obs[j]), KEY)
  }

  lemma ReportedCount(m: map<Text, DeviceState>, obs: seq<Observation>)
    requires DistinctDevices(obs) && forall k :: k in m <==> Reports(obs, k)
    ensures |m| == |obs| && forall i :: 0 <= i < |obs| ==> Key(obs[i]) in m
  {
    hide CanonicalKey;
    forall i | 0 <= i < |obs| ensures Key(obs[i]) in m {
      assert Reports(obs, Key(obs[i]));
    }
    hide Reports, KeysOf, DistinctDevices;
    ReportedKeys(obs);
    ElementCount(KeysOf(obs));
    assert m.Keys == set k | k in KeysOf(obs);
  }

  lemma ApartExactly(m: map<Text, DeviceState>, obs: seq<Observation>)
    requires DistinctDevices(obs) && forall k :: k in m <==> Reports(obs, k)
    ensures DistinctClips(m) <==> KeptApart(obs)
    ensures |m| == |obs|
  {
    hide CanonicalKey, Clip;
    ReportedCount(m, obs);
    if KeptApart(obs) {
      forall j, k | j in m && k in m && j != k ensures Clip(j, KEY) != Clip(k, KEY) {
        var x :| 0 <= x < |obs| && Key(obs[x]) == j;
        var y :| 0 <= y < |obs| && Key(obs[y]) == k;
        if x < y {
          assert Clip(Key(obs[x]), KEY) != Clip(Key(obs[y]), KEY);
        } else {
          assert Clip(Key(obs[y]), KEY) != Clip(Key(obs[x]), KEY);
        }
      }
    }
  }

  /** The room that a first batch leaves. */
  predicate RoomForFirst(s: State, reg: Registration, obs: seq<Observation>) {
    && |reg.devices| + |obs| <= LISTED && KeptApart(obs) && |PutSnapshot(SnapshotOf(s), [])| <= MAX_BODY
  }

  /** What is known of the store after the first batch. */
  ghost predicate HoldsFirst(s: State, reg: Registration, obs: seq<Observation>) {
    && s.nodes.Keys == {reg.node} && s.workers.Keys == {reg.worker}
    && |s.workers[reg.worker].devices| == |reg.devices| + |obs|
    && (forall k :: k in s.devices <==> Reports(obs, k))
  }

  lemma FirstHeld(coordinator: u64, reg: Registration, obs: seq<Observation>, due: Due, policy: Policy, now: Timestamp)
    requires FirstReport(reg, obs, due)
    ensures HoldsFirst(Run(Initial(coordinator, reg.epoch), FirstBatch(reg, obs, policy, now)), reg, obs)
  {
    hide Step, Prepared, DueBatch, Initial, ObservationCodec.WithinCapabilities, Reports;
    FirstPrepared(coordinator, reg, obs, due, now);
    var s := Step(Initial(coordinator, reg.epoch), Register(reg, now));
    FirstBatchStored(s, due, obs, policy, now);
    NodesKept(s, Ingest(reg.worker, obs, policy, now));
    FleetReplay.RunTwo(Initial(coordinator, reg.epoch), Register(reg, now), Ingest(reg.worker, obs, policy, now));
  }

  lemma FirstSound(coordinator: u64, reg: Registration, obs: seq<Observation>, due: Due, policy: Policy, now: Timestamp)
    requires FirstReport(reg, obs, due)
    ensures var s := Run(Initial(coordinator, reg.epoch), FirstBatch(reg, obs, policy, now)); Consistent(s) && Bounded(s)
  {
    hide Step, DueBatch, Consistent, Bounded, Run, Initial, ObservationCodec.WithinCapabilities;
    var s := Initial(coordinator, reg.epoch);
    InitialConsistent(coordinator, reg.epoch);
    InitialBounded(coordinator, reg.epoch);
    RunConsistent(s, FirstBatch(reg, obs, policy, now));
    StepBounded(s, Register(reg, now));
    StepBounded(Step(s, Register(reg, now)), Ingest(reg.worker, obs, policy, now));
    FleetReplay.RunTwo(s, Register(reg, now), Ingest(reg.worker, obs, policy, now));
  }

  lemma InitialConsistent(coordinator: u64, epoch: u64)
    ensures Consistent(Initial(coordinator, epoch))
  {
    InitialInvariant(coordinator, epoch);
  }

  lemma FirstRoom(s: State, reg: Registration, obs: seq<Observation>)
    requires HoldsFirst(s, reg, obs) && Consistent(s) && Bounded(s) && DistinctDevices(obs) && |obs| <= ObservationCodec.BATCH
    requires |reg.devices| <= LISTED
    ensures Countable(SnapshotOf(s)) && (RoomToSave(s) <==> RoomForFirst(s, reg, obs))
  {
    hide Consistent, Bounded, DistinctDevices, DistinctClips, KeptApart, PutSnapshot, Reports, AccountingOf, Countable;
    ApartExactly(s.devices, obs);
    assert |s.nodes| == |s.nodes.Keys| == 1 && |s.workers| == |s.workers.Keys| == 1;
    CountsFit(s);
  }

  /** The state file written after the first batch of a new coordinator's first worker is loaded exactly when the keys
    * registered and the devices reported are at most 4096 together, whether or not they are the same, the keys differ in
    * their first 256 bytes, and the file is not too long.
    */
  lemma FirstBatchLoads(coordinator: u64, reg: Registration, obs: seq<Observation>, due: Due, policy: Policy, now: Timestamp)
    requires FirstReport(reg, obs, due)
    ensures var s := Run(Initial(coordinator, reg.epoch), FirstBatch(reg, obs, policy, now));
            Recover(Image(SnapshotOf(s))).Success? <==> RoomForFirst(s, reg, obs)
  {
    hide *;
    FirstMeans(reg, obs, due);
    FirstHeld(coordinator, reg, obs, due, policy, now);
    FirstSound(coordinator, reg, obs, due, policy, now);
    var s := Run(Initial(coordinator, reg.epoch), FirstBatch(reg, obs, policy, now));
    FirstRoom(s, reg, obs);
    LoadsExactly(s);
  }

  lemma FirstMeans(reg: Registration, obs: seq<Observation>, due: Due)
    requires FirstReport(reg, obs, due)
    ensures DistinctDevices(obs) && |obs| <= ObservationCodec.BATCH && |reg.devices| <= LISTED
  {
    hide DistinctDevices, Bears;
  }

  /** Devices of one vendor with a name and a UUID of 128 bytes each have keys that are the same when cut. */
  lemma TwinKeys(d: DeviceIdentity, e: DeviceIdentity)
    requires d.vendor == e.vendor && d.vendorName == e.vendorName && d.uuid == e.uuid && |d.vendorName| == |d.uuid| == 128
    ensures Clip(CanonicalKey(d), KEY) == Clip(CanonicalKey(e), KEY)
  {
    VendorTextLength(d.vendor);
    hide VendorText, PciText, CapabilityText, Decimal;
    KeyHead(d);
    KeyHead(e);
    var head := VendorText(d.vendor) + [BAR] + (d.vendorName + [BAR] + d.uuid);
    assert CanonicalKey(d) == head + ([BAR] + KeyTail(d));
    assert CanonicalKey(e) == head + ([BAR] + KeyTail(e));
    hide CanonicalKey, KeyTail;
    assert |head| >= KEY;
    assert (head + ([BAR] + KeyTail(d)))[..KEY] == head[..KEY] == (head + ([BAR] + KeyTail(e)))[..KEY];
  }
}
