/** What every run of the store keeps: the store-wide invariant, fencing, authority, replay safety, loss. */
module FleetRuns {
  import opened Basics
  import opened Identity
  import opened Device
  import opened Pipeline
  import opened Fleet

  // ---- Induction over calls ----

  ghost predicate StepsKeep(p: State -> bool, allowed: (State, Op) -> bool) {
    forall t, op :: p(t) && allowed(t, op) ==> p(Step(t, op))
  }

  /** allowed holds of every call of a run, at the state in which it is made. */
  ghost predicate Along(s: State, ops: seq<Op>, allowed: (State, Op) -> bool)
    decreases ops
  {
    ops == [] || (allowed(s, ops[0]) && Along(Step(s, ops[0]), ops[1..], allowed))
  }

  lemma {:induction false} RunKeeps(s: State, ops: seq<Op>, p: State -> bool, allowed: (State, Op) -> bool)
    requires p(s) && StepsKeep(p, allowed) && Along(s, ops, allowed)
    ensures p(Run(s, ops))
    decreases ops
  {
    hide Step;
    if ops != [] {
      RunKeeps(Step(s, ops[0]), ops[1..], p, allowed);
    }
  }

  lemma {:induction false} AlongAlways(s: State, ops: seq<Op>, allowed: (State, Op) -> bool)
    requires forall t, op :: op in ops ==> allowed(t, op)
    ensures Along(s, ops, allowed)
    decreases ops
  {
    hide Step;
    if ops != [] {
      AlongAlways(Step(s, ops[0]), ops[1..], allowed);
    }
  }

  /** A property kept by the actions a call can cause is kept by the call. */
  lemma StepKeeps(s: State, op: Op, p: State -> bool)
    requires p(s)
    requires forall t, a :: p(t) && Enabled(t, a) && From(op, a) ==> p(Next(t, a))
    ensures p(Step(s, op))
  {
    hide Next, Enabled, From, PlanOf, ApplyAll, AllEnabled;
    var ok := (t: State, a: Action) => From(op, a);
    PlanEnabled(s, op);
    PlanFrom(s, op);
    AlwaysOk(s, PlanOf(s, op).actions, ok);
    ActionsKeep(s, PlanOf(s, op).actions, p, ok);
  }

  // ---- What applying an observation leaves in the store ----

  lemma AppliedFacts(s: State, o: Observation, policy: Policy, now: Timestamp)
    ensures var a := AppliedTo(s, o, policy, now); var d := a.state; var prior := Prior(s, Key(o));
            && Sound(d) && d.identity == o.identity && d.workerBoot == o.workerBoot
            && d.observationGeneration == o.observationGeneration && d.generation == o.deviceGeneration
            && d.healthGeneration == o.healthGeneration && d.present == o.present
            && d.drain == prior.drain && d.quarantined == prior.quarantined && d.quarantine == prior.quarantine
            && forall c :: c in a.changes ==> c.epoch == s.epoch && !Administrative(c.kind)
  {
    hide CanonicalKey, Diff, EvaluateHealth, EvaluateEligibility, Fresh;
    ApplySound(Prior(s, Key(o)), o, policy, now, s.epoch);
  }

  // ---- The store-wide invariant ----

  predicate WorkersOk(s: State) {
    forall w :: w in s.workers ==>
      var wr := s.workers[w];
      && wr.worker == w && wr.node in s.nodes && wr.registeredEpoch <= s.epoch
      && (wr.lost || !wr.alive ==> wr.fenced)
  }

  /** Every device is stored under the canonical key of its identity. */
  predicate KeysOk(s: State) {
    forall k :: k in s.devices ==> k == CanonicalKey(s.devices[k].identity)
  }

  predicate AllSound(s: State) {
    forall k :: k in s.devices ==> Sound(s.devices[k])
  }

  predicate LogOk(s: State) {
    && s.log == LastN(s.records, MAX_LOG)
    && s.acceptedCount == |s.accepts|
    && (forall i, j :: 0 <= i <= j < |s.records| ==> s.records[i].epoch <= s.records[j].epoch)
    && (forall i :: 0 <= i < |s.records| ==> s.records[i].epoch <= s.epoch)
  }

  /** What every state satisfies that is reached from an empty store, by calls and recoveries. */
  predicate Consistent(s: State) { WorkersOk(s) && AllSound(s) && LogOk(s) }

  /** What every state satisfies that is reached from an empty store by calls. */
  predicate Invariant(s: State) { Consistent(s) && KeysOk(s) }

  lemma InitialInvariant(coordinator: u64, epoch: u64)
    ensures Invariant(Initial(coordinator, epoch))
  {
  }

  /** What an action makes of the worker records. */
  function WorkersAfter(s: State, a: Action): map<u64, WorkerRecord> {
    match a
    case Admit(wr, _) => s.workers[wr.worker := wr]
    case Reaffirm(w, g, devices, now) =>
      if w !in s.workers then s.workers else
        s.workers[w := s.workers[w].(registrationGeneration := g, lastHeartbeat := now, alive := true, lost := false,
                                     devices := devices)]
    case Fence(w) =>
      if w !in s.workers then s.workers else s.workers[w := s.workers[w].(lost := true, alive := false, fenced := true)]
    case Accept(w, o, _, _) =>
      if Key(o) in s.devices || w !in s.workers then s.workers else
        s.workers[w := s.workers[w].(devices := s.workers[w].devices + [Key(o)])]
    case Beat(w, now) =>
      if w !in s.workers then s.workers else s.workers[w := s.workers[w].(lastHeartbeat := now, alive := true)]
    case Heart(w, now) =>
      if w !in s.workers then s.workers else
        s.workers[w := s.workers[w].(lastHeartbeat := now, alive := true, lost := false)]
    case _ => s.workers
  }

  /** Workers, nodes, superseded boots and epoch after an action, apart from everything about devices. */
  lemma NextWorkers(s: State, a: Action)
    ensures Next(s, a).workers == WorkersAfter(s, a)
    ensures Next(s, a).nodes.Keys == s.nodes.Keys + if a.Admit? then {a.record.node} else {}
    ensures Next(s, a).retired
            == s.retired + if a.Admit? && a.record.worker in s.workers then {(a.record.worker, s.workers[a.record.worker].boot)} else {}
    ensures Next(s, a).epoch == if a.Roll? then a.newEpoch else s.epoch
  {
    hide PushAll, CanonicalKey, AppliedTo, Recompute, VanishRecord, DrainRecord, QuarantineChange, ClearChange;
  }

  lemma NextWorkersOk(s: State, a: Action)
    requires WorkersOk(s) && Enabled(s, a)
    ensures WorkersOk(Next(s, a))
  {
    hide Next, CanonicalKey, Judge;
    NextWorkers(s, a);
  }

  /** Exactly which devices a recomputation calls eligible. */
  lemma RecomputeEligible(d: DeviceState)
    ensures Recompute(d).eligibility == Eligibility.ELIGIBLE
            <==> (&& d.health == HealthState.HEALTHY && d.isFresh && d.present && d.coreValidationOk
                  && d.drain == DrainState.ACTIVE && !d.quarantined)
    ensures Recompute(d).isFresh == d.isFresh && Recompute(d).identity == d.identity
  {
    hide EvaluateEligibility;
    EligibilityExact(EligibilityInput(
      d.health, d.isFresh, d.generation, d.generation, true, true, true, d.coreValidationOk && d.present, true,
      d.drain != DrainState.ACTIVE, d.quarantined, true, d.present, false, 0, d.freeMemory));
  }

  lemma RecomputeSound(d: DeviceState)
    requires d.health != HealthState.DEGRADED
    ensures Sound(Recompute(d))
  {
    hide EvaluateEligibility;
    EligibilityExact(EligibilityInput(
      d.health, d.isFresh, d.generation, d.generation, true, true, true, d.coreValidationOk && d.present, true,
      d.drain != DrainState.ACTIVE, d.quarantined, true, d.present, false, 0, d.freeMemory));
  }

  /** The device an action writes, if it writes one. */
  function Target(a: Action): Option<Text> {
    match a
    case Silence(k) => Some(k)
    case Accept(_, o, _, _) => Some(Key(o))
    case Vanish(k, _) => Some(k)
    case Drain(k, _, _) => Some(k)
    case Hold(k, _, _) => Some(k)
    case Release(k, _) => Some(k)
    case _ => None
  }

  /** An action writes its target device and no other. */
  lemma OtherDevicesUntouched(s: State, a: Action, k: Text)
    requires Target(a) != Some(k)
    ensures k in Next(s, a).devices <==> k in s.devices
    ensures k in s.devices ==> Next(s, a).devices[k] == s.devices[k]
  {
    hide PushAll, CanonicalKey, AppliedTo, Recompute, VanishRecord, DrainRecord, QuarantineChange, ClearChange;
  }

  /** What becomes of the target device. */
  lemma TargetDevice(s: State, a: Action, k: Text)
    requires Target(a) == Some(k)
    ensures a.Accept? ==> k in Next(s, a).devices && Next(s, a).devices[k] == AppliedTo(s, a.o, a.policy, a.now).state
    ensures !a.Accept? ==> (k in Next(s, a).devices <==> k in s.devices)
    ensures !a.Accept? && k in s.devices ==>
              var d := s.devices[k];
              Next(s, a).devices[k] ==
              match a
              case Silence(_) => Silenced(d)
              case Vanish(_, _) => Vanished(d)
              case Drain(_, to, _) => Recompute(d.(drain := to))
              case Hold(_, q, _) => Recompute(d.(quarantined := true, quarantine := q))
              case Release(_, _) => Recompute(d.(quarantined := false, quarantine := NO_QUARANTINE))
              case _ => d
  {
    hide PushAll, CanonicalKey, AppliedTo, Recompute, VanishRecord, DrainRecord, QuarantineChange, ClearChange, Silenced, Vanished;
  }

  lemma NextAllSound(s: State, a: Action)
    requires AllSound(s)
    ensures AllSound(Next(s, a))
  {
    hide Next, CanonicalKey, AppliedTo, Recompute;
    var t := Next(s, a);
    forall k | k in t.devices ensures Sound(t.devices[k]) {
      if Target(a) != Some(k) {
        OtherDevicesUntouched(s, a, k);
      } else {
        TargetDevice(s, a, k);
        match a
        case Accept(_, o, policy, now) => AppliedFacts(s, o, policy, now);
        case Drain(_, to, _) => RecomputeSound(s.devices[k].(drain := to));
        case Hold(_, q, _) => RecomputeSound(s.devices[k].(quarantined := true, quarantine := q));
        case Release(_, _) => RecomputeSound(s.devices[k].(quarantined := false, quarantine := NO_QUARANTINE));
        case _ =>
      }
    }
  }

  /** Only an acceptance gives a device its identity. */
  lemma NextIdentity(s: State, a: Action, k: Text)
    requires k in Next(s, a).devices
    ensures a.Accept? && Key(a.o) == k ==> Next(s, a).devices[k].identity == a.o.identity
    ensures !(a.Accept? && Key(a.o) == k) ==> k in s.devices && Next(s, a).devices[k].identity == s.devices[k].identity
  {
    hide Next, CanonicalKey, AppliedTo, Recompute;
    if Target(a) != Some(k) {
      OtherDevicesUntouched(s, a, k);
    } else {
      TargetDevice(s, a, k);
      match a
      case Accept(_, o, policy, now) => AppliedFacts(s, o, policy, now);
      case Drain(_, to, _) => RecomputeEligible(s.devices[k].(drain := to));
      case Hold(_, q, _) => RecomputeEligible(s.devices[k].(quarantined := true, quarantine := q));
      case Release(_, _) => RecomputeEligible(s.devices[k].(quarantined := false, quarantine := NO_QUARANTINE));
      case _ =>
    }
  }

  lemma NextKeysOk(s: State, a: Action)
    requires KeysOk(s)
    ensures KeysOk(Next(s, a))
  {
    hide Next, CanonicalKey;
    forall k | k in Next(s, a).devices ensures k == CanonicalKey(Next(s, a).devices[k].identity) {
      NextIdentity(s, a, k);
    }
  }

  lemma {:induction false} PushAllKeepsLast(log: seq<ChangeRecord>, records: seq<ChangeRecord>, rs: seq<ChangeRecord>)
    requires log == LastN(records, MAX_LOG)
    ensures PushAll(log, rs) == LastN(records + rs, MAX_LOG)
    decreases rs
  {
    if rs == [] {
      assert records + rs == records;
    } else {
      var r := records + [rs[0]];
      assert Push(log, rs[0]) == LastN(r, MAX_LOG);
      PushAllKeepsLast(Push(log, rs[0]), r, rs[1..]);
      assert records + rs == r + rs[1..];
    }
  }

  /** What an action adds to the change history. */
  function Emitted(s: State, a: Action): seq<ChangeRecord> {
    match a
    case Accept(_, o, policy, now) => AppliedTo(s, o, policy, now).changes
    case Vanish(k, now) => if k !in s.devices then [] else [VanishRecord(s.devices[k], now, s.epoch)]
    case Drain(k, to, now) => if k !in s.devices then [] else [DrainRecord(s.devices[k], to, now, s.epoch)]
    case Hold(k, q, now) =>
      if k !in s.devices || s.devices[k].quarantined then [] else [QuarantineChange(s.devices[k], q.reason, now, s.epoch)]
    case Release(k, now) => if k !in s.devices then [] else [ClearChange(s.devices[k], now, s.epoch)]
    case _ => []
  }

  /** The history grows by exactly that, and the log with it. */
  lemma NextEmits(s: State, a: Action)
    ensures Next(s, a).records == s.records + Emitted(s, a)
    ensures Next(s, a).log == PushAll(s.log, Emitted(s, a))
    ensures Next(s, a).accepts == s.accepts + if a.Accept? then [AcceptanceOf(a.worker, a.o)] else []
    ensures Next(s, a).acceptedCount == s.acceptedCount + if a.Accept? then 1 else 0
    ensures Next(s, a).epoch == if a.Roll? then a.newEpoch else s.epoch
  {
    hide CanonicalKey, AppliedTo, Recompute, VanishRecord, DrainRecord, QuarantineChange, ClearChange, PushAll;
    assert s.records + [] == s.records && s.accepts + [] == s.accepts;
    assert PushAll(s.log, []) == s.log by { Nothing(s.log); }
  }

  lemma Nothing(log: seq<ChangeRecord>)
    ensures PushAll(log, []) == log
  {
  }

  lemma EmittedEpoch(s: State, a: Action)
    ensures forall c :: c in Emitted(s, a) ==> c.epoch == s.epoch
    ensures a.Accept? || a.Vanish? ==> forall c :: c in Emitted(s, a) ==> !Administrative(c.kind)
  {
    hide CanonicalKey, AppliedTo, Ascii, DrainName;
    if a.Accept? {
      AppliedFacts(s, a.o, a.policy, a.now);
    }
  }

  lemma NextLogOk(s: State, a: Action)
    requires LogOk(s) && Enabled(s, a)
    ensures LogOk(Next(s, a))
  {
    assert a.Roll? ==> a.newEpoch > s.epoch;
    hide Next, Enabled, Emitted, PushAll, AcceptanceOf;
    NextEmits(s, a);
    EmittedEpoch(s, a);
    PushAllKeepsLast(s.log, s.records, Emitted(s, a));
  }

  /** A property every action keeps is kept by every run. */
  lemma EveryRunKeeps(s: State, ops: seq<Op>, p: State -> bool)
    requires p(s)
    requires forall t, a :: p(t) && Enabled(t, a) ==> p(Next(t, a))
    ensures p(Run(s, ops))
  {
    hide Step, Next, Enabled, Run;
    var any := (t: State, op: Op) => true;
    forall t, op | p(t) && any(t, op) ensures p(Step(t, op)) {
      StepKeeps(t, op, p);
    }
    AlongAlways(s, ops, any);
    RunKeeps(s, ops, p, any);
  }

  lemma NextConsistent(s: State, a: Action)
    requires Consistent(s) && Enabled(s, a)
    ensures Consistent(Next(s, a))
  {
    hide Next, Enabled, WorkersOk, AllSound, LogOk;
    NextWorkersOk(s, a);
    NextAllSound(s, a);
    NextLogOk(s, a);
  }

  /** Every run keeps the store consistent, whatever keys its devices are under. */
  lemma RunConsistent(s: State, ops: seq<Op>)
    requires Consistent(s)
    ensures Consistent(Run(s, ops))
  {
    hide Next, Enabled, Run, Consistent;
    var p := (t: State) => Consistent(t);
    forall t, a | p(t) && Enabled(t, a) ensures p(Next(t, a)) {
      NextConsistent(t, a);
    }
    EveryRunKeeps(s, ops, p);
  }

  /** Every state reached from one that satisfies the invariant satisfies it. */
  lemma RunInvariant(s: State, ops: seq<Op>)
    requires Invariant(s)
    ensures Invariant(Run(s, ops))
  {
    hide Next, Enabled, Run, Consistent, KeysOk;
    var p := (t: State) => Invariant(t);
    forall t, a | p(t) && Enabled(t, a) ensures p(Next(t, a)) {
      NextConsistent(t, a);
      NextKeysOk(t, a);
    }
    EveryRunKeeps(s, ops, p);
  }

  lemma StepWorkersOk(s: State, op: Op)
    requires WorkersOk(s)
    ensures WorkersOk(Step(s, op))
  {
    hide Next, Enabled, WorkersOk, Step, From;
    var p := (t: State) => WorkersOk(t);
    forall t, a | p(t) && Enabled(t, a) && From(op, a) ensures p(Next(t, a)) {
      NextWorkersOk(t, a);
    }
    StepKeeps(s, op, p);
  }
}
