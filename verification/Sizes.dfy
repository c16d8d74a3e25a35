/** How long encodings are: of the records of a snapshot, and of a whole one. */
module Sizes {
  import opened Basics
  import opened Codec
  import opened Order
  import opened Identity
  import opened Device
  import opened Pipeline
  import opened Records
  import opened Fleet
  import opened FleetStore
  import opened StateCodec
  import opened SnapshotCodec

  // ---- Devices ----

  lemma StandingLength(d: DeviceState, rest: Bytes)
    ensures |PutStanding(d, rest)| == 7 + |Clip(d.healthExplanation, 4096)| + |rest|
  {
    hide PutU8, PutText, Clip;
    var r := PutU8(d.eligibility as u8, rest);
    IntegerLength(d.eligibility as int, rest);
    TextLength(d.healthExplanation, 4096, r);
    r := PutText(d.healthExplanation, 4096, r);
    IntegerLength(d.health as int, r);
    IntegerLength(Flag(d.present), PutU8(d.health as u8, r));
  }

  function ReasonSize(r: Reason): nat { 1 }

  lemma {:induction false} CountReasons(rs: seq<Reason>)
    ensures TotalSize(rs, ReasonSize) == |rs|
  {
    if rs != [] {
      CountReasons(rs[1..]);
    }
  }

  lemma ReasonsLength(rs: seq<Reason>, rest: Bytes)
    ensures |PutReasons(rs, rest)| == 4 + |rs| + |rest|
  {
    hide PutCounted, PutU8;
    forall x, r: Bytes ensures |PutReason(x, r)| == ReasonSize(x) + |r| {
      IntegerLength(x as int, r);
    }
    CountReasons(rs);
    CountedLength(rs, PutReason, ReasonSize, rest);
  }

  lemma AxesLength(d: DeviceState, rest: Bytes)
    ensures |PutAxes(d, rest)| == 42 + |Clip(d.quarantine.reason, 512)| + |Clip(d.quarantine.source, 128)| + |rest|
  {
    hide PutU8, PutU64, PutI64, PutText, Clip;
    var q := d.quarantine;
    var r := PutU64(q.authority, rest);
    IntegerLength(q.authority, rest);
    IntegerLength(q.deviceId, r);
    r := PutU64(q.deviceId, r);
    IntegerLength(q.at, r);
    r := PutI64(q.at, r);
    IntegerLength(q.generation, r);
    r := PutU64(q.generation, r);
    TextLength(q.source, 128, r);
    r := PutText(q.source, 128, r);
    TextLength(q.reason, 512, r);
    r := PutText(q.reason, 512, r);
    IntegerLength(Flag(d.quarantined), r);
    IntegerLength(d.drain as int, PutU8(Flag(d.quarantined), r));
  }

  lemma GaugesLength(d: DeviceState, rest: Bytes)
    ensures |PutGauges(d, rest)| == 24 + OptionalSize(d.temperature) + OptionalSize(d.power) + |rest|
  {
    hide PutU64, PutOptional;
    var r := PutOptional(d.power, rest);
    OptionalLength(d.power, rest);
    OptionalLength(d.temperature, r);
    r := PutOptional(d.temperature, r);
    IntegerLength(d.freeMemory, r);
    r := PutU64(d.freeMemory, r);
    IntegerLength(d.usedMemory, r);
    IntegerLength(d.totalMemory, PutU64(d.usedMemory, r));
  }

  lemma HistoryLength(d: DeviceState, rest: Bytes)
    ensures |PutHistory(d, rest)| == 54 + |Clip(d.validationDetail, 4096)| + |rest|
  {
    hide PutU8, PutU64, PutI64, PutText, Clip;
    var r := PutU8(Flag(d.isFresh), rest);
    IntegerLength(Flag(d.isFresh), rest);
    IntegerLength(d.workerBoot, r);
    r := PutU64(d.workerBoot, r);
    IntegerLength(d.healthGeneration, r);
    r := PutU64(d.healthGeneration, r);
    IntegerLength(d.observationGeneration, r);
    r := PutU64(d.observationGeneration, r);
    IntegerLength(d.lastAuthoritativeAt, r);
    r := PutI64(d.lastAuthoritativeAt, r);
    IntegerLength(d.lastValidatedAt, r);
    r := PutI64(d.lastValidatedAt, r);
    IntegerLength(d.lastObservedAt, r);
    r := PutI64(d.lastObservedAt, r);
    TextLength(d.validationDetail, 4096, r);
    IntegerLength(Flag(d.coreValidationOk), PutText(d.validationDetail, 4096, r));
  }

  /** The size of a device without its reasons. */
  function DeviceBulk(d: DeviceState): nat {
    151 + IdentitySize(d.identity) + |Clip(d.healthExplanation, 4096)|
    + |Clip(d.quarantine.reason, 512)| + |Clip(d.quarantine.source, 128)|
    + OptionalSize(d.temperature) + OptionalSize(d.power) + TotalSize(d.capabilities, CapabilitySize)
    + |Clip(d.validationDetail, 4096)|
  }

  lemma DeviceLength(d: DeviceState, rest: Bytes)
    ensures |PutDevice(d, rest)| == DeviceBulk(d) + |d.reasons| + |rest|
  {
    hide PutU64, PutIdentity, PutStanding, PutReasons, PutAxes, PutGauges, PutCapabilities, PutHistory, Clip, TotalSize,
         IdentitySize, OptionalSize, CapabilitySize;
    var h := PutHistory(d, rest);
    HistoryLength(d, rest);
    var c := PutCapabilities(d.capabilities, h);
    CapabilitiesLength(d.capabilities, h);
    var g := PutGauges(d, c);
    GaugesLength(d, c);
    var x := PutAxes(d, g);
    AxesLength(d, g);
    var q := PutReasons(d.reasons, x);
    ReasonsLength(d.reasons, x);
    var n := PutStanding(d, q);
    StandingLength(d, q);
    var i := PutIdentity(d.identity, n);
    IdentityLength(d.identity, n);
    IntegerLength(d.generation, i);
    IntegerLength(d.deviceId, PutU64(d.generation, i));
  }

  function EntrySize(e: (Text, DeviceState)): nat { 4 + |Clip(e.0, KEY)| + DeviceBulk(e.1) + |e.1.reasons| }

  lemma DevicesLength(m: map<Text, DeviceState>, rest: Bytes)
    ensures |PutDevices(m, rest)| == 4 + TotalSize(Lettered(m), EntrySize) + |rest|
  {
    hide Lettered, PutCounted, PutText, PutDevice, Clip, DeviceBulk, TotalSize;
    forall e, r: Bytes ensures |PutEntry(e, r)| == EntrySize(e) + |r| {
      DeviceLength(e.1, r);
      TextLength(e.0, KEY, PutDevice(e.1, r));
    }
    CountedLength(Lettered(m), PutEntry, EntrySize, rest);
  }

  // ---- Nodes and workers ----

  function NodeSize(e: (u64, NodeRecord)): nat { 24 }

  lemma NodesLength(m: map<u64, NodeRecord>, rest: Bytes)
    ensures |PutNodes(m, rest)| == 4 + TotalSize(Numbered(m), NodeSize) + |rest|
  {
    hide Numbered, PutCounted, PutU64, PutI64, TotalSize;
    forall e, r: Bytes ensures |PutNode(e, r)| == NodeSize(e) + |r| {
      var f := PutI64(e.1.firstSeen, r);
      IntegerLength(e.1.firstSeen, r);
      IntegerLength(e.1.generation, f);
      IntegerLength(e.0, PutU64(e.1.generation, f));
    }
    CountedLength(Numbered(m), PutNode, NodeSize, rest);
  }

  lemma WorkerHeadLength(e: (u64, WorkerRecord), rest: Bytes)
    ensures |PutWorkerHead(e, rest)| == 64 + |Clip(e.1.osPlatform, 128)| + |Clip(e.1.driverVersion, 128)| + |rest|
  {
    hide PutU64, PutU32, PutText, Clip;
    var wr := e.1;
    var r := PutText(wr.driverVersion, 128, rest);
    TextLength(wr.driverVersion, 128, rest);
    TextLength(wr.osPlatform, 128, r);
    r := PutText(wr.osPlatform, 128, r);
    IntegerLength(wr.protocolVersion, r);
    r := PutU32(wr.protocolVersion, r);
    IntegerLength(wr.agentVersion.patch, r);
    r := PutU32(wr.agentVersion.patch, r);
    IntegerLength(wr.agentVersion.minor, r);
    r := PutU32(wr.agentVersion.minor, r);
    IntegerLength(wr.agentVersion.major, r);
    r := PutU32(wr.agentVersion.major, r);
    IntegerLength(wr.agent, r);
    r := PutU64(wr.agent, r);
    IntegerLength(wr.node, r);
    r := PutU64(wr.node, r);
    IntegerLength(wr.registrationGeneration, r);
    r := PutU64(wr.registrationGeneration, r);
    IntegerLength(wr.boot, r);
    IntegerLength(e.0, PutU64(wr.boot, r));
  }

  lemma WorkerTailLength(wr: WorkerRecord, rest: Bytes)
    ensures |PutWorkerTail(wr, rest)| == 27 + |rest|
  {
    hide PutU64, PutI64, PutU8;
    var r := PutU8(Flag(wr.lost), rest);
    IntegerLength(Flag(wr.lost), rest);
    IntegerLength(Flag(wr.fenced), r);
    r := PutU8(Flag(wr.fenced), r);
    IntegerLength(Flag(wr.alive), r);
    r := PutU8(Flag(wr.alive), r);
    IntegerLength(wr.registeredEpoch, r);
    r := PutU64(wr.registeredEpoch, r);
    IntegerLength(wr.lastHeartbeat, r);
    IntegerLength(wr.registeredAt, PutI64(wr.lastHeartbeat, r));
  }

  function WorkerSize(e: (u64, WorkerRecord)): nat {
    99 + |Clip(e.1.osPlatform, 128)| + |Clip(e.1.driverVersion, 128)|
    + TotalSize(e.1.devices, TextSize(256)) + TotalSize(e.1.capabilities, TextSize(128))
  }

  lemma WorkersLength(m: map<u64, WorkerRecord>, rest: Bytes)
    ensures |PutWorkers(m, rest)| == 4 + TotalSize(Numbered(m), WorkerSize) + |rest|
  {
    hide Numbered, PutCounted, PutWorkerHead, PutTexts, PutWorkerTail, Clip, TotalSize;
    forall e, r: Bytes ensures |PutWorker(e, r)| == WorkerSize(e) + |r| {
      var t := PutWorkerTail(e.1, r);
      WorkerTailLength(e.1, r);
      var c := PutTexts(e.1.capabilities, 128, t);
      TextsLength(e.1.capabilities, 128, t);
      TextsLength(e.1.devices, 256, c);
      WorkerHeadLength(e, PutTexts(e.1.devices, 256, c));
    }
    CountedLength(Numbered(m), PutWorker, WorkerSize, rest);
  }

  // ---- Snapshots ----

  lemma HeadLength(s: Snapshot, rest: Bytes)
    ensures |PutHead(s, rest)| == 32 + |rest|
  {
    hide PutU64;
    var r := PutU64(s.nodeGeneration, rest);
    IntegerLength(s.nodeGeneration, rest);
    IntegerLength(s.fleetGeneration, r);
    r := PutU64(s.fleetGeneration, r);
    IntegerLength(s.epoch, r);
    IntegerLength(s.coordinator, PutU64(s.epoch, r));
  }

  /** The length of a snapshot, apart from its log. */
  lemma SnapshotLength(s: Snapshot)
    ensures |PutSnapshot(s, [])|
            == 44 + TotalSize(Numbered(s.nodes), NodeSize) + TotalSize(Numbered(s.workers), WorkerSize)
               + TotalSize(Lettered(s.devices), EntrySize) + |PutLog(s.log, [])|
  {
    hide PutHead, PutNodes, PutWorkers, PutDevices, PutLog, Numbered, Lettered, TotalSize, NodeSize, WorkerSize, EntrySize;
    var l := PutLog(s.log, []);
    var d := PutDevices(s.devices, l);
    DevicesLength(s.devices, l);
    var w := PutWorkers(s.workers, d);
    WorkersLength(s.workers, d);
    NodesLength(s.nodes, w);
    HeadLength(s, PutNodes(s.nodes, w));
  }

  // ---- What recovery adds ----

  /** How many of the keys name an eligible device. */
  function Eligibles(m: map<Text, DeviceState>, ks: seq<Text>): nat
    requires forall k :: k in ks ==> k in m
  {
    if ks == [] then 0 else (if m[ks[0]].eligibility == Eligibility.ELIGIBLE then 1 else 0) + Eligibles(m, ks[1..])
  }

  lemma {:induction false} EligiblesCounted(m: map<Text, DeviceState>, ks: seq<Text>)
    requires forall k :: k in ks ==> k in m
    requires forall i, j :: 0 <= i < j < |ks| ==> ks[i] != ks[j]
    ensures Eligibles(m, ks) == |set k | k in ks && m[k].eligibility == Eligibility.ELIGIBLE|
  {
    var found := set k | k in ks && m[k].eligibility == Eligibility.ELIGIBLE;
    if ks == [] {
      assert found == {};
    } else {
      EligiblesCounted(m, ks[1..]);
      var first := if m[ks[0]].eligibility == Eligibility.ELIGIBLE then {ks[0]} else {};
      assert found == first + (set k | k in ks[1..] && m[k].eligibility == Eligibility.ELIGIBLE);
    }
  }

  /** A recovered device has one reason where an eligible one had none. */
  lemma RecoveredSize(k: Text, d: DeviceState)
    requires Sound(d)
    ensures EntrySize((k, Recovered(d))) == EntrySize((k, d)) + if d.eligibility == Eligibility.ELIGIBLE then 1 else 0
  {
    hide Clip, TotalSize, IdentitySize;
  }

  function EntriesOf(m: map<Text, DeviceState>, ks: seq<Text>): seq<(Text, DeviceState)>
    requires forall k :: k in ks ==> k in m
  {
    seq(|ks|, i requires 0 <= i < |ks| => (ks[i], m[ks[i]]))
  }

  lemma {:induction false} EntriesGrow(m: map<Text, DeviceState>, ks: seq<Text>)
    requires forall k :: k in ks ==> k in m && Sound(m[k])
    ensures TotalSize(EntriesOf(RecoverAll(m), ks), EntrySize) == TotalSize(EntriesOf(m, ks), EntrySize) + Eligibles(m, ks)
  {
    hide Sound, Recovered, EntrySize;
    if ks != [] {
      EntriesGrow(m, ks[1..]);
      RecoveredSize(ks[0], m[ks[0]]);
      assert EntriesOf(m, ks)[1..] == EntriesOf(m, ks[1..]);
      assert EntriesOf(RecoverAll(m), ks)[1..] == EntriesOf(RecoverAll(m), ks[1..]);
    }
  }

  /** The entries of a map and of its recovered form, along the same keys. */
  lemma AlongKeys(m: map<Text, DeviceState>) returns (ks: seq<Text>)
    ensures (forall k :: k in ks <==> k in m) && (forall i, j :: 0 <= i < j < |ks| ==> ks[i] != ks[j])
    ensures Lettered(m) == EntriesOf(m, ks) && Lettered(RecoverAll(m)) == EntriesOf(RecoverAll(m), ks)
  {
    hide Recovered, TextLess;
    TextOrder();
    ks := Sorted(m.Keys, TextLess);
    assert RecoverAll(m).Keys == m.Keys;
    LetteredKeys(m);
    forall i, j | 0 <= i < j < |ks| ensures ks[i] != ks[j] {
      assert Lettered(m)[i].0 != Lettered(m)[j].0;
    }
  }

  lemma DevicesGrow(m: map<Text, DeviceState>)
    requires forall k :: k in m ==> Sound(m[k])
    ensures TotalSize(Lettered(RecoverAll(m)), EntrySize)
            == TotalSize(Lettered(m), EntrySize) + |DevicesIn(m, Eligibility.ELIGIBLE)|
  {
    hide Sound, RecoverAll, EntrySize, Lettered, TotalSize, EntriesOf;
    var ks := AlongKeys(m);
    EntriesGrow(m, ks);
    EligiblesCounted(m, ks);
    assert (set k | k in ks && m[k].eligibility == Eligibility.ELIGIBLE) == DevicesIn(m, Eligibility.ELIGIBLE);
  }

  /** Holding back every device makes a snapshot longer by exactly one byte for each eligible device. */
  lemma HoldingBackGrows(s: Snapshot, t: Snapshot)
    requires forall k :: k in s.devices ==> Sound(s.devices[k])
    requires t == s.(devices := RecoverAll(s.devices), accounting := t.accounting)
    ensures |PutSnapshot(t, [])| == |PutSnapshot(s, [])| + |DevicesIn(s.devices, Eligibility.ELIGIBLE)|
  {
    hide PutSnapshot, PutLog, Numbered, Lettered, TotalSize, NodeSize, WorkerSize, EntrySize, Sound, RecoverAll, DevicesIn;
    SnapshotLength(s);
    SnapshotLength(t);
    DevicesGrow(s.devices);
  }
}
