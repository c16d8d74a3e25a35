/** The fleet state and its steps.
  *
  * Every call on the store is a plan: a status, and the atomic actions it carries out. A refused batch of
  * observations is a plan too, made of the actions taken before the refusal.
  */
module Fleet {
  import opened Basics
  import opened Identity
  import opened Device
  import opened Pipeline

  // ---- Records ----

  datatype NodeRecord = NodeRecord(node: u64, generation: u64, firstSeen: Timestamp)

  datatype Version = Version(major: u32, minor: u32, patch: u32)

  datatype WorkerRecord = WorkerRecord(
    worker: u64, boot: u64, registrationGeneration: u64, node: u64, agent: u64, agentVersion: Version,
    protocolVersion: u32, osPlatform: Text, driverVersion: Text, devices: seq<Text>, capabilities: seq<Text>,
    registeredAt: Timestamp, lastHeartbeat: Timestamp, registeredEpoch: u64, alive: bool, fenced: bool, lost: bool)

  datatype Registration = Registration(
    node: u64, worker: u64, boot: u64, agentVersion: Version, protocolVersion: u32, osPlatform: Text,
    driverVersion: Text, runtimeMajor: u32, runtimeMinor: u32, devices: seq<Text>, capabilities: seq<Text>,
    registrationGeneration: u64, epoch: u64)

  /** What was accepted: which evidence, from which incarnation, under which authority. */
  datatype Acceptance = Acceptance(
    key: Text, worker: u64, boot: u64, epoch: u64, observationGeneration: u64, deviceGeneration: u64, healthGeneration: u64,
    evidence: Observation)

  /** The store's fields, followed by what only the model remembers: every change record ever emitted,
    * every observation ever accepted, and the incarnations (worker and boot) that have been superseded.
    */
  datatype State = State(
    coordinator: u64, epoch: u64, fleetGeneration: u64, nodeGeneration: u64,
    nodes: map<u64, NodeRecord>, workers: map<u64, WorkerRecord>, devices: map<Text, DeviceState>,
    log: seq<ChangeRecord>, acceptedCount: nat,
    records: seq<ChangeRecord>, accepts: seq<Acceptance>, retired: set<(u64, u64)>)

  function Initial(coordinator: u64, epoch: u64): State {
    State(coordinator, epoch, 1, 1, map[], map[], map[], [], 0, [], [], {})
  }

  // ---- The bounded change log ----

  const MAX_LOG: nat := 10000

  function Push(log: seq<ChangeRecord>, r: ChangeRecord): seq<ChangeRecord> {
    var l := log + [r];
    if |l| > MAX_LOG then l[1..] else l
  }

  function PushAll(log: seq<ChangeRecord>, rs: seq<ChangeRecord>): seq<ChangeRecord>
    decreases rs
  {
    if rs == [] then log else PushAll(Push(log, rs[0]), rs[1..])
  }

  function Emit(s: State, rs: seq<ChangeRecord>): State {
    s.(log := PushAll(s.log, rs), records := s.records + rs)
  }

  // ---- What happens to one device ----

  /** Eligibility after an administrative change: only what the device record itself knows is consulted. */
  function Recompute(d: DeviceState): DeviceState {
    var r := EvaluateEligibility(EligibilityInput(
      d.health, d.isFresh, d.generation, d.generation, true, true, true, d.coreValidationOk && d.present, true,
      d.drain != DrainState.ACTIVE, d.quarantined, true, d.present, false, 0, d.freeMemory));
    d.(eligibility := r.state, reasons := r.reasons)
  }

  function Silenced(d: DeviceState): DeviceState {
    var e := d.(isFresh := false);
    if e.present then
      e.(present := false, health := HealthState.LOST, eligibility := Eligibility.INELIGIBLE,
         reasons := [Reason.WORKER_RESTART])
    else e
  }

  function Vanished(d: DeviceState): DeviceState {
    d.(present := false, isFresh := false, health := HealthState.LOST, eligibility := Eligibility.INELIGIBLE,
       reasons := [Reason.DEVICE_DISAPPEARANCE])
  }

  function VanishRecord(d: DeviceState, now: Timestamp, epoch: u64): ChangeRecord {
    ChangeRecord(ChangeKind.DEVICE_DISAPPEARED, d.deviceId, now, d.generation, epoch,
                 Ascii("device no longer reported by worker"), Ascii("present"), Ascii("absent"))
  }

  function DrainRecord(d: DeviceState, to: DrainState, now: Timestamp, epoch: u64): ChangeRecord {
    ChangeRecord(if to >= DrainState.DRAINING then ChangeKind.DRAIN_INITIATED else ChangeKind.DRAIN_COMPLETED,
                 d.deviceId, now, d.generation, epoch, Ascii("drain state changed"), DrainName(d.drain), DrainName(to))
  }

  function QuarantineChange(d: DeviceState, reason: Text, now: Timestamp, epoch: u64): ChangeRecord {
    ChangeRecord(ChangeKind.QUARANTINE_APPLIED, d.deviceId, now, d.generation, epoch, reason,
                 Ascii("false"), Ascii("true"))
  }

  function ClearChange(d: DeviceState, now: Timestamp, epoch: u64): ChangeRecord {
    ChangeRecord(ChangeKind.QUARANTINE_CLEARED, d.deviceId, now, d.generation, epoch, Ascii("quarantine cleared"),
                 Ascii("true"), Ascii("false"))
  }

  // ---- Atomic actions ----

  datatype Action =
    | Roll(newEpoch: u64)
    | Admit(record: WorkerRecord, now: Timestamp)
    | Reaffirm(worker: u64, registrationGeneration: u64, devices: seq<Text>, now: Timestamp)
    | Fence(worker: u64)
    | Silence(key: Text)
    | Accept(worker: u64, o: Observation, policy: Policy, now: Timestamp)
    | Vanish(key: Text, now: Timestamp)
    | Beat(worker: u64, now: Timestamp)
    | Heart(worker: u64, now: Timestamp)
    | Drain(key: Text, to: DrainState, now: Timestamp)
    | Hold(key: Text, q: QuarantineRecord, now: Timestamp)
    | Release(key: Text, now: Timestamp)

  function Key(o: Observation): Text { CanonicalKey(o.identity) }

  function Prior(s: State, key: Text): DeviceState { if key in s.devices then s.devices[key] else BLANK }

  function AppliedTo(s: State, o: Observation, policy: Policy, now: Timestamp): Applied {
    var a := ApplyObservation(Prior(s, Key(o)), o, policy, now, s.epoch);
    a.(state := a.state.(healthGeneration := o.healthGeneration))
  }

  function AcceptanceOf(w: u64, o: Observation): Acceptance {
    Acceptance(Key(o), w, o.workerBoot, o.epoch, o.observationGeneration, o.deviceGeneration, o.healthGeneration, o)
  }

  function WithWorker(s: State, w: u64, wr: WorkerRecord): State { s.(workers := s.workers[w := wr]) }

  function WithDevice(s: State, k: Text, d: DeviceState): State { s.(devices := s.devices[k := d]) }

  function AcceptNext(s: State, w: u64, o: Observation, policy: Policy, now: Timestamp): State {
    var k := Key(o);
    var a := AppliedTo(s, o, policy, now);
    var t := Emit(WithDevice(s, k, a.state), a.changes);
    var u := if k !in s.devices && w in t.workers
             then WithWorker(t, w, t.workers[w].(devices := t.workers[w].devices + [k])) else t;
    u.(acceptedCount := u.acceptedCount + 1, accepts := u.accepts + [AcceptanceOf(w, o)])
  }

  function AdmitNext(s: State, wr: WorkerRecord, now: Timestamp): State {
    var t := if wr.worker in s.workers then s.(retired := s.retired + {(wr.worker, s.workers[wr.worker].boot)}) else s;
    WithWorker(t, wr.worker, wr).(
      nodes := if wr.node in s.nodes then s.nodes else s.nodes[wr.node := NodeRecord(wr.node, 1, now)])
  }

  function VanishNext(s: State, k: Text, now: Timestamp): State
    requires k in s.devices
  {
    WithDevice(Emit(s, [VanishRecord(s.devices[k], now, s.epoch)]), k, Vanished(s.devices[k]))
  }

  function DrainNext(s: State, k: Text, to: DrainState, now: Timestamp): State
    requires k in s.devices
  {
    Emit(WithDevice(s, k, Recompute(s.devices[k].(drain := to))), [DrainRecord(s.devices[k], to, now, s.epoch)])
  }

  function HoldNext(s: State, k: Text, q: QuarantineRecord, now: Timestamp): State
    requires k in s.devices
  {
    var d := s.devices[k];
    Emit(WithDevice(s, k, Recompute(d.(quarantined := true, quarantine := q))),
         if d.quarantined then [] else [QuarantineChange(d, q.reason, now, s.epoch)])
  }

  function ReleaseNext(s: State, k: Text, now: Timestamp): State
    requires k in s.devices
  {
    var d := s.devices[k];
    Emit(WithDevice(s, k, Recompute(d.(quarantined := false, quarantine := NO_QUARANTINE))),
         [ClearChange(d, now, s.epoch)])
  }

  function ReaffirmNext(s: State, w: u64, g: u64, devices: seq<Text>, now: Timestamp): State
    requires w in s.workers
  {
    WithWorker(s, w, s.workers[w].(registrationGeneration := g, lastHeartbeat := now, alive := true, lost := false,
                                   devices := devices))
  }

  /** The state after one action; an action on an unknown worker or device changes nothing. */
  function Next(s: State, a: Action): State {
    match a
    case Roll(e) => s.(epoch := e, fleetGeneration := NextGeneration(s.fleetGeneration))
    case Admit(wr, now) => AdmitNext(s, wr, now)
    case Reaffirm(w, g, devices, now) => if w !in s.workers then s else ReaffirmNext(s, w, g, devices, now)
    case Fence(w) =>
      if w !in s.workers then s else WithWorker(s, w, s.workers[w].(lost := true, alive := false, fenced := true))
    case Silence(k) => if k !in s.devices then s else WithDevice(s, k, Silenced(s.devices[k]))
    case Accept(w, o, policy, now) => AcceptNext(s, w, o, policy, now)
    case Vanish(k, now) => if k !in s.devices then s else VanishNext(s, k, now)
    case Beat(w, now) =>
      if w !in s.workers then s else WithWorker(s, w, s.workers[w].(lastHeartbeat := now, alive := true))
    case Heart(w, now) =>
      if w !in s.workers then s else
        WithWorker(s, w, s.workers[w].(lastHeartbeat := now, alive := true, lost := false))
    case Drain(k, to, now) => if k !in s.devices then s else DrainNext(s, k, to, now)
    case Hold(k, q, now) => if k !in s.devices then s else HoldNext(s, k, q, now)
    case Release(k, now) => if k !in s.devices then s else ReleaseNext(s, k, now)
  }

  function ApplyAll(s: State, acts: seq<Action>): State
    decreases acts
  {
    if acts == [] then s else ApplyAll(Next(s, acts[0]), acts[1..])
  }

  // ---- Calls ----

  datatype Op =
    | RollEpoch(newEpoch: u64)
    | Register(reg: Registration, now: Timestamp)
    | MarkLost(worker: u64)
    | Ingest(worker: u64, obs: seq<Observation>, policy: Policy, now: Timestamp)
    | Heartbeat(worker: u64, boot: u64, epoch: u64, now: Timestamp)
    | SetDrain(key: Text, to: DrainState, now: Timestamp)
    | SetQuarantine(key: Text, q: QuarantineRecord, now: Timestamp)
    | ClearQuarantine(key: Text, epoch: u64, now: Timestamp)

  datatype Plan = Plan(actions: seq<Action>, status: Status)

  function RecordOf(reg: Registration, now: Timestamp): WorkerRecord {
    WorkerRecord(reg.worker, reg.boot, reg.registrationGeneration, reg.node, NextGeneration(reg.worker),
                 reg.agentVersion, reg.protocolVersion, reg.osPlatform, reg.driverVersion, reg.devices,
                 reg.capabilities, now, now, reg.epoch, true, false, false)
  }

  function RegisterPlan(s: State, reg: Registration, now: Timestamp): Plan {
    if reg.epoch != s.epoch then Plan([], Stale)
    else if reg.protocolVersion == 0 then Plan([], ProtocolMismatch)
    else if reg.worker !in s.workers then Plan([Admit(RecordOf(reg, now), now)], Ok)
    else
      var wr := s.workers[reg.worker];
      if wr.boot == reg.boot then
        if reg.registrationGeneration <= wr.registrationGeneration then Plan([], Stale)
        else Plan([Reaffirm(reg.worker, reg.registrationGeneration, reg.devices, now)], Ok)
      else if !wr.fenced && !wr.lost && wr.alive then Plan([], Duplicate)
      else Plan([Admit(RecordOf(reg, now), now)], Ok)
  }

  datatype Judgement = Refused(status: Status) | Skipped | Taken

  /** Whether one observation of worker w's batch is refused, skipped as already seen, or taken. */
  function Judge(s: State, w: u64, o: Observation): Judgement {
    if w !in s.workers then Refused(NotFound)
    else if o.epoch != s.epoch then Refused(Stale)
    else if o.workerBoot != s.workers[w].boot then Refused(Stale)
    else if o.worker != w then Refused(IdentityMismatch)
    else if Key(o) in s.devices && s.devices[Key(o)].workerBoot == o.workerBoot then
      var d := s.devices[Key(o)];
      if o.observationGeneration <= d.observationGeneration then Skipped
      else if o.deviceGeneration < d.generation then Refused(InvalidGeneration)
      else if o.healthGeneration < d.healthGeneration then Refused(InvalidGeneration)
      else Taken
    else Taken
  }

  /** The actions of a batch up to its end or its first refusal, the keys accepted, and the last application. */
  datatype Intake = Intake(actions: seq<Action>, seen: set<Text>, status: Status, last: Applied)

  function TakeAll(s: State, w: u64, obs: seq<Observation>, policy: Policy, now: Timestamp, last: Applied): Intake
    decreases obs
  {
    if obs == [] then Intake([], {}, Ok, last) else
      match Judge(s, w, obs[0])
      case Refused(status) => Intake([], {}, status, last)
      case Skipped => TakeAll(s, w, obs[1..], policy, now, last)
      case Taken =>
        var a := Accept(w, obs[0], policy, now);
        var t := TakeAll(Next(s, a), w, obs[1..], policy, now, AppliedTo(s, obs[0], policy, now));
        t.(actions := [a] + t.actions, seen := {Key(obs[0])} + t.seen)
  }

  /** One disappearance for every listed key that the batch did not renew. */
  function SweepActions(keys: seq<Text>, seen: set<Text>, now: Timestamp): seq<Action> {
    if keys == [] then []
    else (if keys[0] in seen then [] else [Vanish(keys[0], now)]) + SweepActions(keys[1..], seen, now)
  }

  function IngestPlan(s: State, w: u64, obs: seq<Observation>, policy: Policy, now: Timestamp): Plan {
    if w !in s.workers then Plan([], NotFound)
    else if s.workers[w].lost || s.workers[w].fenced then Plan([], NotAuthoritative)
    else
      var t := TakeAll(s, w, obs, policy, now, NOTHING_APPLIED);
      if t.status != Ok then Plan(t.actions, t.status)
      else
        var u := ApplyAll(s, t.actions);
        var keys := if w in u.workers then u.workers[w].devices else [];
        Plan(t.actions + SweepActions(keys, t.seen, now) + [Beat(w, now)], Ok)
  }

  function SilenceActions(keys: seq<Text>): seq<Action> {
    if keys == [] then [] else [Silence(keys[0])] + SilenceActions(keys[1..])
  }

  function MarkLostPlan(s: State, w: u64): Plan {
    if w !in s.workers then Plan([], Ok) else Plan([Fence(w)] + SilenceActions(s.workers[w].devices), Ok)
  }

  function HeartbeatPlan(s: State, w: u64, boot: u64, epoch: u64, now: Timestamp): Plan {
    if epoch != s.epoch then Plan([], Stale)
    else if w !in s.workers then Plan([], NotFound)
    else if s.workers[w].boot != boot then Plan([], Stale)
    else Plan([Heart(w, now)], Ok)
  }

  function DrainPlan(s: State, k: Text, to: DrainState, now: Timestamp): Plan {
    if k !in s.devices then Plan([], NotFound)
    else if s.devices[k].drain == to then Plan([], Ok)
    else Plan([Drain(k, to, now)], Ok)
  }

  function QuarantinePlan(s: State, k: Text, q: QuarantineRecord, now: Timestamp): Plan {
    if k !in s.devices then Plan([], NotFound)
    else if q.generation < s.devices[k].generation then Plan([], InvalidGeneration)
    else Plan([Hold(k, q, now)], Ok)
  }

  function ClearPlan(s: State, k: Text, epoch: u64, now: Timestamp): Plan {
    if epoch != s.epoch then Plan([], Stale)
    else if k !in s.devices then Plan([], NotFound)
    else if !s.devices[k].quarantined then Plan([], NotFound)
    else Plan([Release(k, now)], Ok)
  }

  function PlanOf(s: State, op: Op): Plan {
    match op
    case RollEpoch(e) => if e <= s.epoch then Plan([], Stale) else Plan([Roll(e)], Ok)
    case Register(reg, now) => RegisterPlan(s, reg, now)
    case MarkLost(w) => MarkLostPlan(s, w)
    case Ingest(w, obs, policy, now) => IngestPlan(s, w, obs, policy, now)
    case Heartbeat(w, boot, epoch, now) => HeartbeatPlan(s, w, boot, epoch, now)
    case SetDrain(k, to, now) => DrainPlan(s, k, to, now)
    case SetQuarantine(k, q, now) => QuarantinePlan(s, k, q, now)
    case ClearQuarantine(k, epoch, now) => ClearPlan(s, k, epoch, now)
  }

  function Step(s: State, op: Op): State { ApplyAll(s, PlanOf(s, op).actions) }

  function Run(s: State, ops: seq<Op>): State
    decreases ops
  {
    if ops == [] then s else Run(Step(s, ops[0]), ops[1..])
  }

  // ---- Plans carry out only what their guards allow ----

  /** What the store has checked when it carries out an action. */
  predicate Enabled(s: State, a: Action) {
    match a
    case Roll(e) => e > s.epoch
    case Admit(wr, _) =>
      && wr.alive && !wr.fenced && !wr.lost && wr.registeredEpoch == s.epoch
      && (wr.worker in s.workers ==>
            var was := s.workers[wr.worker];
            was.boot != wr.boot && (was.fenced || was.lost || !was.alive))
    case Reaffirm(w, g, _, _) => w in s.workers && g > s.workers[w].registrationGeneration
    case Accept(w, o, _, _) => w in s.workers && !s.workers[w].lost && !s.workers[w].fenced && Judge(s, w, o) == Taken
    case Fence(w) => w in s.workers
    case Beat(w, _) => w in s.workers && !s.workers[w].lost && !s.workers[w].fenced
    case Heart(w, _) => w in s.workers
    case Silence(_) => true
    case Vanish(_, _) => true
    case Drain(k, to, _) => k in s.devices && s.devices[k].drain != to
    case Hold(k, q, _) => k in s.devices && q.generation >= s.devices[k].generation
    case Release(k, _) => k in s.devices && s.devices[k].quarantined
  }

  predicate AllEnabled(s: State, acts: seq<Action>)
    decreases acts
  {
    acts == [] || (Enabled(s, acts[0]) && AllEnabled(Next(s, acts[0]), acts[1..]))
  }

  lemma {:induction false} ApplyConcat(s: State, a: seq<Action>, b: seq<Action>)
    ensures ApplyAll(s, a + b) == ApplyAll(ApplyAll(s, a), b)
    decreases a
  {
    hide Next;
    if a == [] {
      assert a + b == b;
    } else {
      assert (a + b)[0] == a[0] && (a + b)[1..] == a[1..] + b;
      ApplyConcat(Next(s, a[0]), a[1..], b);
    }
  }

  lemma One(s: State, a: Action)
    ensures ApplyAll(s, [a]) == Next(s, a)
  {
    hide Next;
  }

  lemma ApplySnoc(s: State, acts: seq<Action>, a: Action)
    ensures ApplyAll(s, acts + [a]) == Next(ApplyAll(s, acts), a)
  {
    ApplyConcat(s, acts, [a]);
    One(ApplyAll(s, acts), a);
  }

  lemma {:induction false} EnabledConcat(s: State, a: seq<Action>, b: seq<Action>)
    ensures AllEnabled(s, a + b) <==> AllEnabled(s, a) && AllEnabled(ApplyAll(s, a), b)
    decreases a
  {
    hide Next, Enabled;
    if a == [] {
      assert a + b == b;
    } else {
      assert (a + b)[0] == a[0] && (a + b)[1..] == a[1..] + b;
      EnabledConcat(Next(s, a[0]), a[1..], b);
    }
  }

  /** Worker w stays registered with the same standing while its own batch is taken in. */
  predicate SameStanding(s: State, t: State, w: u64) {
    w in s.workers && w in t.workers && t.workers[w].(devices := []) == s.workers[w].(devices := []) && t.epoch == s.epoch
  }

  lemma AcceptKeepsStanding(s: State, w: u64, o: Observation, policy: Policy, now: Timestamp)
    requires w in s.workers
    ensures SameStanding(s, AcceptNext(s, w, o, policy, now), w)
  {
    hide ApplyObservation, PushAll, CanonicalKey;
  }

  lemma {:induction false} TakeAllEnabled(s: State, w: u64, obs: seq<Observation>, policy: Policy, now: Timestamp, last: Applied)
    requires w in s.workers && !s.workers[w].lost && !s.workers[w].fenced
    ensures var t := TakeAll(s, w, obs, policy, now, last);
            AllEnabled(s, t.actions) && SameStanding(s, ApplyAll(s, t.actions), w)
    decreases obs
  {
    hide AcceptNext, Judge, CanonicalKey, AppliedTo;
    if obs != [] {
      match Judge(s, w, obs[0])
      case Refused(_) =>
      case Skipped =>
        TakeAllEnabled(s, w, obs[1..], policy, now, last);
      case Taken =>
        var a := Accept(w, obs[0], policy, now);
        AcceptKeepsStanding(s, w, obs[0], policy, now);
        TakeAllEnabled(Next(s, a), w, obs[1..], policy, now, AppliedTo(s, obs[0], policy, now));
    }
  }

  lemma {:induction false} SweepEnabled(s: State, keys: seq<Text>, seen: set<Text>, now: Timestamp)
    ensures var acts := SweepActions(keys, seen, now);
            AllEnabled(s, acts) && ApplyAll(s, acts).workers == s.workers && ApplyAll(s, acts).epoch == s.epoch
    decreases keys
  {
    hide PushAll;
    if keys != [] {
      if keys[0] in seen {
        assert SweepActions(keys, seen, now) == SweepActions(keys[1..], seen, now);
        SweepEnabled(s, keys[1..], seen, now);
      } else {
        SweepEnabled(Next(s, Vanish(keys[0], now)), keys[1..], seen, now);
      }
    }
  }

  lemma {:induction false} SilenceEnabled(s: State, keys: seq<Text>)
    ensures AllEnabled(s, SilenceActions(keys)) && ApplyAll(s, SilenceActions(keys)).workers == s.workers
    decreases keys
  {
    if keys != [] {
      SilenceEnabled(Next(s, Silence(keys[0])), keys[1..]);
    }
  }

  /** Every call carries out enabled actions only. */
  lemma PlanEnabled(s: State, op: Op)
    ensures AllEnabled(s, PlanOf(s, op).actions)
  {
    hide Next, TakeAll, SweepActions, SilenceActions;
    match op
    case Ingest(w, obs, policy, now) =>
      if w in s.workers && !s.workers[w].lost && !s.workers[w].fenced {
        var t := TakeAll(s, w, obs, policy, now, NOTHING_APPLIED);
        TakeAllEnabled(s, w, obs, policy, now, NOTHING_APPLIED);
        if t.status == Ok {
          var u := ApplyAll(s, t.actions);
          var sweep := SweepActions(u.workers[w].devices, t.seen, now);
          SweepEnabled(u, u.workers[w].devices, t.seen, now);
          EnabledConcat(s, t.actions, sweep);
          ApplyConcat(s, t.actions, sweep);
          EnabledConcat(s, t.actions + sweep, [Beat(w, now)]);
        }
      }
    case MarkLost(w) =>
      if w in s.workers {
        SilenceEnabled(Next(s, Fence(w)), s.workers[w].devices);
        EnabledConcat(s, [Fence(w)], SilenceActions(s.workers[w].devices));
        assert ApplyAll(s, [Fence(w)]) == Next(s, Fence(w));
      }
    case _ =>
  }

  /** Which call an action can come from. */
  predicate From(op: Op, a: Action) {
    match a
    case Roll(e) => op == RollEpoch(e)
    case Admit(wr, now) => op.Register? && wr == RecordOf(op.reg, op.now) && now == op.now
    case Reaffirm(w, _, _, _) => op.Register? && w == op.reg.worker
    case Fence(w) => op == MarkLost(w)
    case Silence(_) => op.MarkLost?
    case Accept(w, o, policy, now) => op.Ingest? && w == op.worker && o in op.obs && policy == op.policy && now == op.now
    case Vanish(_, _) => op.Ingest?
    case Beat(w, _) => op.Ingest? && w == op.worker
    case Heart(w, _) => op.Heartbeat? && w == op.worker
    case Drain(k, _, _) => op.SetDrain? && k == op.key
    case Hold(k, _, _) => op.SetQuarantine? && k == op.key
    case Release(k, _) => op.ClearQuarantine? && k == op.key
  }

  lemma {:induction false} TakeAllFrom(s: State, w: u64, obs: seq<Observation>, policy: Policy, now: Timestamp, last: Applied)
    ensures forall a :: a in TakeAll(s, w, obs, policy, now, last).actions ==>
              a.Accept? && a.worker == w && a.o in obs && a.policy == policy && a.now == now
    decreases obs
  {
    hide AcceptNext, Judge, CanonicalKey, AppliedTo;
    if obs != [] {
      match Judge(s, w, obs[0])
      case Refused(_) =>
      case Skipped =>
        TakeAllFrom(s, w, obs[1..], policy, now, last);
      case Taken =>
        TakeAllFrom(Next(s, Accept(w, obs[0], policy, now)), w, obs[1..], policy, now, AppliedTo(s, obs[0], policy, now));
    }
  }

  lemma {:induction false} SweepFrom(keys: seq<Text>, seen: set<Text>, now: Timestamp)
    ensures forall a :: a in SweepActions(keys, seen, now) ==> a.Vanish? && a.now == now && a.key in keys && a.key !in seen
  {
    if keys != [] {
      SweepFrom(keys[1..], seen, now);
    }
  }

  lemma {:induction false} SilenceFrom(keys: seq<Text>)
    ensures forall a :: a in SilenceActions(keys) ==> a.Silence? && a.key in keys
  {
    if keys != [] {
      SilenceFrom(keys[1..]);
    }
  }

  lemma PlanFrom(s: State, op: Op)
    ensures forall a :: a in PlanOf(s, op).actions ==> From(op, a)
  {
    hide TakeAll, SweepActions, SilenceActions, ApplyAll, Judge, CanonicalKey;
    match op
    case Ingest(w, obs, policy, now) =>
      if w in s.workers {
        var t := TakeAll(s, w, obs, policy, now, NOTHING_APPLIED);
        TakeAllFrom(s, w, obs, policy, now, NOTHING_APPLIED);
        var u := ApplyAll(s, t.actions);
        SweepFrom(if w in u.workers then u.workers[w].devices else [], t.seen, now);
      }
    case MarkLost(w) =>
      if w in s.workers {
        SilenceFrom(s.workers[w].devices);
      }
    case _ =>
  }

  // ---- Induction over runs ----

  /** ok holds of every action, at the state in which it is carried out. */
  ghost predicate AllOk(s: State, acts: seq<Action>, ok: (State, Action) -> bool)
    decreases acts
  {
    acts == [] || (ok(s, acts[0]) && AllOk(Next(s, acts[0]), acts[1..], ok))
  }

  ghost predicate Kept(p: State -> bool, ok: (State, Action) -> bool) {
    forall t, a :: p(t) && Enabled(t, a) && ok(t, a) ==> p(Next(t, a))
  }

  lemma {:induction false} ActionsKeep(s: State, acts: seq<Action>, p: State -> bool, ok: (State, Action) -> bool)
    requires Kept(p, ok) && p(s) && AllEnabled(s, acts) && AllOk(s, acts, ok)
    ensures p(ApplyAll(s, acts))
    decreases acts
  {
    hide Next, Enabled;
    if acts != [] {
      ActionsKeep(Next(s, acts[0]), acts[1..], p, ok);
    }
  }

  lemma {:induction false} AlwaysOk(s: State, acts: seq<Action>, ok: (State, Action) -> bool)
    requires forall t, a :: a in acts ==> ok(t, a)
    ensures AllOk(s, acts, ok)
    decreases acts
  {
    hide Next;
    if acts != [] {
      AlwaysOk(Next(s, acts[0]), acts[1..], ok);
    }
  }
}
