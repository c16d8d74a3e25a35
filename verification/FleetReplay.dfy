/** Replay safety over whole runs: no observation is ever accepted twice. */
module FleetReplay {
  import opened Basics
  import opened Identity
  import opened Device
  import opened Pipeline
  import opened Fleet
  import opened FleetRuns
  import opened FleetFencing

  /** The conditions a call has to meet: a superseded incarnation never registers again, and each device is reported by
    * one worker.
    */
  predicate Disciplined(s: State, op: Op, reporter: Text -> u64) {
    && (op.Register? ==> (op.reg.worker, op.reg.boot) !in s.retired)
    && (op.Ingest? ==> forall o :: o in op.obs ==> reporter(Key(o)) == op.worker)
  }

  // ---- What the store remembers about past acceptances ----

  /** Current incarnations are not superseded ones. */
  predicate BootsOk(s: State) {
    forall w :: w in s.workers ==> s.workers[w].worker == w && (w, s.workers[w].boot) !in s.retired
  }

  /** Incarnation boot of worker w is the current one, and fenced. */
  predicate FencedIn(s: State, w: u64, boot: u64) {
    w in s.workers && s.workers[w].boot == boot && s.workers[w].fenced
  }

  /** The device remembers a past acceptance, from the current incarnation, with generations at least as high. */
  predicate Remembered(s: State, a: Acceptance) {
    && a.worker in s.workers && a.boot == s.workers[a.worker].boot
    && a.key in s.devices
    && s.devices[a.key].workerBoot == a.boot
    && a.observationGeneration <= s.devices[a.key].observationGeneration
    && a.deviceGeneration <= s.devices[a.key].generation
    && a.healthGeneration <= s.devices[a.key].healthGeneration
  }

  /** An acceptance is covered: its incarnation is superseded or fenced, or the device remembers it. */
  predicate Covered(s: State, a: Acceptance, reporter: Text -> u64) {
    && a.worker == reporter(a.key)
    && ((a.worker, a.boot) in s.retired || FencedIn(s, a.worker, a.boot) || Remembered(s, a))
  }

  predicate AllCovered(s: State, reporter: Text -> u64) {
    forall i :: 0 <= i < |s.accepts| ==> Covered(s, s.accepts[i], reporter)
  }

  /** Of two acceptances of one device from one incarnation, the later carries the later evidence. */
  predicate Ordered(a: Acceptance, b: Acceptance) {
    a.key == b.key && a.boot == b.boot ==>
      && a.observationGeneration < b.observationGeneration
      && a.deviceGeneration <= b.deviceGeneration
      && a.healthGeneration <= b.healthGeneration
  }

  predicate NeverReplayed(accepts: seq<Acceptance>) {
    forall i, j :: 0 <= i < j < |accepts| ==> Ordered(accepts[i], accepts[j])
  }

  predicate Safe(s: State, reporter: Text -> u64) {
    BootsOk(s) && AllCovered(s, reporter) && NeverReplayed(s.accepts)
  }

  // ---- Acceptance ----

  predicate SameRecord(v: WorkerRecord, w: WorkerRecord) {
    w.boot == v.boot && w.worker == v.worker && w.fenced == v.fenced
  }

  lemma AcceptKeepsOthers(s: State, w: u64, o: Observation, policy: Policy, now: Timestamp)
    requires w in s.workers
    ensures var t := AcceptNext(s, w, o, policy, now);
            && t.accepts == s.accepts + [AcceptanceOf(w, o)] && t.retired == s.retired
            && t.workers.Keys == s.workers.Keys
            && (forall v :: v in s.workers ==> SameRecord(s.workers[v], t.workers[v]))
            && Key(o) in t.devices && t.devices[Key(o)] == AppliedTo(s, o, policy, now).state
            && (forall k :: k != Key(o) ==> (k in t.devices <==> k in s.devices) && (k in s.devices ==> t.devices[k] == s.devices[k]))
  {
    hide PushAll, CanonicalKey, AppliedTo;
  }

  /** What the gates have checked. */
  lemma Admission(s: State, a: Action)
    requires a.Accept? && Enabled(s, a)
    ensures a.worker in s.workers && a.o.workerBoot == s.workers[a.worker].boot && a.o.epoch == s.epoch
    ensures !s.workers[a.worker].fenced
    ensures Key(a.o) in s.devices && s.devices[Key(a.o)].workerBoot == a.o.workerBoot ==>
              var d := s.devices[Key(a.o)];
              && d.observationGeneration < a.o.observationGeneration && d.generation <= a.o.deviceGeneration
              && d.healthGeneration <= a.o.healthGeneration
  {
    hide CanonicalKey;
  }

  /** The device remembers exactly the evidence just accepted; boots stay, and other devices do too. */
  predicate Renewal(s: State, t: State, w: u64, o: Observation) {
    && w in s.workers && o.workerBoot == s.workers[w].boot
    && t.accepts == s.accepts + [AcceptanceOf(w, o)] && t.retired == s.retired
    && t.workers.Keys == s.workers.Keys
    && (forall v :: v in s.workers ==> SameRecord(s.workers[v], t.workers[v]))
    && Key(o) in t.devices
    && t.devices[Key(o)].workerBoot == o.workerBoot
    && t.devices[Key(o)].observationGeneration == o.observationGeneration
    && t.devices[Key(o)].generation == o.deviceGeneration
    && t.devices[Key(o)].healthGeneration == o.healthGeneration
    && (forall k :: k != Key(o) && k in s.devices ==> k in t.devices && t.devices[k] == s.devices[k])
  }

  lemma NextRenewed(s: State, a: Action)
    requires a.Accept? && Enabled(s, a)
    ensures Renewal(s, Next(s, a), a.worker, a.o)
  {
    hide Enabled, CanonicalKey, AppliedTo, AcceptNext, AcceptanceOf, Recompute, AdmitNext, ReaffirmNext, VanishNext, DrainNext,
         HoldNext, ReleaseNext;
    Admission(s, a);
    AcceptKeepsOthers(s, a.worker, a.o, a.policy, a.now);
    AppliedFacts(s, a.o, a.policy, a.now);
  }

  /** A past acceptance stays covered, and is ordered before the new one. */
  lemma CoveredThroughAccept(s: State, a: Action, past: Acceptance, reporter: Text -> u64)
    requires a.Accept? && Enabled(s, a) && BootsOk(s) && Covered(s, past, reporter)
    requires reporter(Key(a.o)) == a.worker
    ensures Covered(Next(s, a), past, reporter) && Ordered(past, AcceptanceOf(a.worker, a.o))
  {
    hide Next, Enabled, CanonicalKey;
    Admission(s, a);
    NextRenewed(s, a);
  }

  lemma NewCovered(s: State, t: State, w: u64, o: Observation, reporter: Text -> u64)
    requires Renewal(s, t, w, o) && reporter(Key(o)) == w
    ensures Covered(t, AcceptanceOf(w, o), reporter)
  {
    hide CanonicalKey;
  }

  lemma AcceptSafe(s: State, a: Action, reporter: Text -> u64)
    requires a.Accept? && Enabled(s, a) && Safe(s, reporter) && reporter(Key(a.o)) == a.worker
    ensures Safe(Next(s, a), reporter)
  {
    hide Next, Enabled, CanonicalKey, Covered, Ordered, AcceptanceOf;
    NextRenewed(s, a);
    NewCovered(s, Next(s, a), a.worker, a.o, reporter);
    forall i | 0 <= i < |s.accepts|
      ensures Covered(Next(s, a), s.accepts[i], reporter) && Ordered(s.accepts[i], AcceptanceOf(a.worker, a.o))
    {
      CoveredThroughAccept(s, a, s.accepts[i], reporter);
    }
  }

  // ---- Everything else ----

  /** Past acceptances stay covered by what other actions leave alone. */
  predicate Retains(s: State, t: State) {
    && t.accepts == s.accepts && WorkersRetained(s, t)
    && forall k :: k in s.devices ==> k in t.devices && SameEvidence(s.devices[k], t.devices[k])
  }

  predicate WorkersRetained(s: State, t: State) {
    && s.retired <= t.retired
    && forall w :: w in s.workers ==>
         && w in t.workers
         && ((w, s.workers[w].boot) in t.retired
             || (t.workers[w].boot == s.workers[w].boot && (s.workers[w].fenced ==> t.workers[w].fenced)))
  }

  predicate SameEvidence(d: DeviceState, e: DeviceState) {
    && e.workerBoot == d.workerBoot && e.observationGeneration == d.observationGeneration
    && e.generation == d.generation && e.healthGeneration == d.healthGeneration
  }

  lemma RetainsCovered(s: State, t: State, reporter: Text -> u64)
    requires Retains(s, t) && AllCovered(s, reporter)
    ensures AllCovered(t, reporter)
  {
    forall i | 0 <= i < |t.accepts| ensures Covered(t, t.accepts[i], reporter) {
      assert Covered(s, s.accepts[i], reporter);
    }
  }

  lemma RecomputeKeeps(d: DeviceState)
    ensures SameEvidence(d, Recompute(d))
  {
    hide EvaluateEligibility;
  }

  lemma OtherKeepsEvidence(s: State, a: Action, k: Text)
    requires !a.Accept? && k in s.devices
    ensures k in Next(s, a).devices && SameEvidence(s.devices[k], Next(s, a).devices[k])
  {
    hide Next, Recompute;
    if Target(a) == Some(k) {
      TargetDevice(s, a, k);
      var d := s.devices[k];
      match a
      case Drain(_, to, _) => RecomputeKeeps(d.(drain := to));
      case Hold(_, q, _) => RecomputeKeeps(d.(quarantined := true, quarantine := q));
      case Release(_, _) => RecomputeKeeps(d.(quarantined := false, quarantine := NO_QUARANTINE));
      case _ =>
    } else {
      OtherDevicesUntouched(s, a, k);
    }
  }

  lemma OtherKeepsWorkers(s: State, a: Action)
    requires !a.Accept?
    ensures WorkersRetained(s, Next(s, a)) && Next(s, a).accepts == s.accepts
  {
    hide Next, CanonicalKey, Emitted;
    NextWorkers(s, a);
    NextEmits(s, a);
    assert s.accepts + [] == s.accepts;
  }

  lemma OtherRetains(s: State, a: Action)
    requires !a.Accept?
    ensures Retains(s, Next(s, a))
  {
    hide Next, SameEvidence, WorkersRetained;
    OtherKeepsWorkers(s, a);
    forall k | k in s.devices ensures k in Next(s, a).devices && SameEvidence(s.devices[k], Next(s, a).devices[k]) {
      OtherKeepsEvidence(s, a, k);
    }
  }

  lemma OtherBoots(s: State, a: Action)
    requires !a.Accept? && Enabled(s, a) && BootsOk(s)
    requires a.Admit? ==> (a.record.worker, a.record.boot) !in s.retired
    ensures BootsOk(Next(s, a))
  {
    hide Next, CanonicalKey, Judge;
    NextWorkers(s, a);
  }

  lemma OtherSafe(s: State, a: Action, reporter: Text -> u64)
    requires !a.Accept? && Enabled(s, a) && Safe(s, reporter)
    requires a.Admit? ==> (a.record.worker, a.record.boot) !in s.retired
    ensures Safe(Next(s, a), reporter)
  {
    hide Next, Enabled, BootsOk;
    OtherBoots(s, a);
    OtherRetains(s, a);
    RetainsCovered(s, Next(s, a), reporter);
  }

  // ---- Runs ----

  lemma StepSafe(s: State, op: Op, reporter: Text -> u64)
    requires Safe(s, reporter) && Disciplined(s, op, reporter)
    ensures Safe(Step(s, op), reporter)
  {
    AdmitsOnce(s, op);
    PlanEnabled(s, op);
    PlanFrom(s, op);
    if op.Register? {
      var acts := PlanOf(s, op).actions;
      if acts != [] {
        assert acts == [acts[0]];
        hide Next, Enabled, PlanOf, Safe;
        One(s, acts[0]);
        OtherSafe(s, acts[0], reporter);
      }
    } else {
      var p := (t: State) => Safe(t, reporter);
      forall t, a | p(t) && Enabled(t, a) && From(op, a) ensures p(Next(t, a)) {
        assert !a.Admit? && (a.Accept? ==> reporter(Key(a.o)) == a.worker);
        hide Next, Enabled, From, Safe;
        if a.Accept? {
          AcceptSafe(t, a, reporter);
        } else {
          OtherSafe(t, a, reporter);
        }
      }
      hide Step, Next, Enabled, From, PlanOf, Safe;
      StepKeeps(s, op, p);
    }
  }

  ghost predicate DisciplinedRun(s: State, ops: seq<Op>, reporter: Text -> u64) {
    Along(s, ops, (t: State, op: Op) => Disciplined(t, op, reporter))
  }

  lemma DisciplinedOnce(s: State, op: Op, reporter: Text -> u64)
    requires Disciplined(s, op, reporter)
    ensures DisciplinedRun(s, [op], reporter)
  {
    var allowed := (t: State, op: Op) => Disciplined(t, op, reporter);
    hide Step, Disciplined;
    var rest := [op][1..];
    assert rest == [];
    assert Along(Step(s, op), rest, allowed);
    assert Along(s, [op], allowed);
  }

  lemma {:induction false} AlongConcat(s: State, a: seq<Op>, b: seq<Op>, allowed: (State, Op) -> bool)
    requires Along(s, a, allowed) && Along(Run(s, a), b, allowed)
    ensures Along(s, a + b, allowed)
    decreases a
  {
    hide Step;
    if a == [] {
      assert a + b == b;
    } else {
      assert (a + b)[0] == a[0] && (a + b)[1..] == a[1..] + b;
      AlongConcat(Step(s, a[0]), a[1..], b, allowed);
    }
  }

  /** Disciplined runs can be continued by disciplined runs. */
  lemma DisciplinedConcat(s: State, a: seq<Op>, b: seq<Op>, reporter: Text -> u64)
    requires DisciplinedRun(s, a, reporter) && DisciplinedRun(Run(s, a), b, reporter)
    ensures DisciplinedRun(s, a + b, reporter) && Run(s, a + b) == Run(Run(s, a), b)
  {
    var allowed := (t: State, op: Op) => Disciplined(t, op, reporter);
    hide Run, Along, Disciplined;
    AlongConcat(s, a, b, allowed);
    RunConcat(s, a, b);
  }

  /** Disciplined runs stay safe. */
  lemma SafeRuns(s: State, ops: seq<Op>, reporter: Text -> u64)
    requires Safe(s, reporter) && DisciplinedRun(s, ops, reporter)
    ensures Safe(Run(s, ops), reporter)
  {
    var p := (t: State) => Safe(t, reporter);
    var allowed := (t: State, op: Op) => Disciplined(t, op, reporter);
    hide Step, Safe, Disciplined, Run;
    forall t, op | p(t) && allowed(t, op) ensures p(Step(t, op)) {
      StepSafe(t, op, reporter);
    }
    RunKeeps(s, ops, p, allowed);
  }

  /** Acceptances are only ever added. */
  lemma {:induction false} AcceptancesStay(s: State, ops: seq<Op>)
    ensures s.accepts <= Run(s, ops).accepts
    decreases ops
  {
    hide Step;
    if ops != [] {
      StepAuthority(s, ops[0]);
      AcceptancesStay(Step(s, ops[0]), ops[1..]);
    }
  }

  /** Over every disciplined run from a state that has accepted nothing yet, acceptances of one device from one
    * incarnation carry strictly increasing observation generations and never decreasing device and health
    * generations; so no observation is accepted twice.
    */
  lemma ReplaySafety(s: State, ops: seq<Op>, reporter: Text -> u64)
    requires s.accepts == [] && BootsOk(s)
    requires DisciplinedRun(s, ops, reporter)
    ensures NeverReplayed(Run(s, ops).accepts)
  {
    SafeRuns(s, ops, reporter);
    hide Run;
    SafeNeverReplayed(Run(s, ops), reporter);
  }

  lemma SafeNeverReplayed(s: State, reporter: Text -> u64)
    requires Safe(s, reporter)
    ensures NeverReplayed(s.accepts)
  {
  }

  // ---- Every device rests on an acceptance ----

  /** Some acceptance of k brought the evidence the device is at. */
  ghost predicate Rests(s: State, k: Text)
    requires k in s.devices
  {
    exists i :: 0 <= i < |s.accepts| && Brought(s.accepts[i], k, s.devices[k])
  }

  /** The acceptance brought the evidence the device is at. */
  predicate Brought(a: Acceptance, k: Text, d: DeviceState) {
    && a.key == k && a.boot == d.workerBoot && a.observationGeneration == d.observationGeneration
    && a.deviceGeneration == d.generation && a.healthGeneration == d.healthGeneration
  }

  ghost predicate Backed(s: State) {
    forall k :: k in s.devices ==> Rests(s, k)
  }

  lemma StillRests(s: State, t: State, k: Text)
    requires k in s.devices && Rests(s, k) && k in t.devices && s.accepts <= t.accepts
    requires SameEvidence(s.devices[k], t.devices[k])
    ensures Rests(t, k)
  {
    var i :| 0 <= i < |s.accepts| && Brought(s.accepts[i], k, s.devices[k]);
    assert t.accepts[i] == s.accepts[i];
  }

  lemma NewlyRests(s: State, t: State, w: u64, o: Observation)
    requires Renewal(s, t, w, o)
    ensures Rests(t, Key(o))
  {
    hide CanonicalKey;
    assert t.accepts[|s.accepts|] == AcceptanceOf(w, o);
  }

  lemma NextBacked(s: State, a: Action)
    requires Enabled(s, a) && Backed(s)
    ensures Backed(Next(s, a))
  {
    hide Next, Enabled, CanonicalKey, Rests, AcceptanceOf;
    NextEmits(s, a);
    if a.Accept? {
      NextRenewed(s, a);
      NewlyRests(s, Next(s, a), a.worker, a.o);
    }
    forall k | k in Next(s, a).devices ensures Rests(Next(s, a), k) {
      if !(a.Accept? && Key(a.o) == k) {
        NextIdentity(s, a, k);
        if !a.Accept? {
          OtherKeepsEvidence(s, a, k);
        }
        StillRests(s, Next(s, a), k);
      }
    }
  }

  /** Every run keeps every device resting on an acceptance of it. */
  lemma RunBacked(s: State, ops: seq<Op>)
    requires Backed(s)
    ensures Backed(Run(s, ops))
  {
    hide Next, Enabled, Run, Backed;
    var p := (t: State) => Backed(t);
    forall t, a | p(t) && Enabled(t, a) ensures p(Next(t, a)) {
      NextBacked(t, a);
    }
    EveryRunKeeps(s, ops, p);
  }

  /** What recovery needs to know of the runs before it. */
  lemma ReachedSafe(coordinator: u64, epoch: u64, ops: seq<Op>, reporter: Text -> u64)
    requires DisciplinedRun(Initial(coordinator, epoch), ops, reporter)
    ensures var s := Run(Initial(coordinator, epoch), ops); Safe(s, reporter) && Backed(s) && Invariant(s)
  {
    var s := Initial(coordinator, epoch);
    assert Safe(s, reporter) && Backed(s);
    hide Run, Safe, Backed, Invariant, DisciplinedRun, Initial;
    InitialInvariant(coordinator, epoch);
    RunInvariant(s, ops);
    RunBacked(s, ops);
    SafeRuns(s, ops, reporter);
  }

  // ---- A fenced incarnation never publishes again ----

  /** How incarnations give way: superseded ones are remembered, and a new one comes from the registration itself. */
  predicate Retires(s: State, t: State, op: Op, w: u64) {
    && s.retired <= t.retired
    && (w in s.workers ==>
          && w in t.workers
          && (t.workers[w].boot == s.workers[w].boot
              || ((w, s.workers[w].boot) in t.retired && op.Register? && op.reg.worker == w && t.workers[w].boot == op.reg.boot)))
    && (w !in s.workers && w in t.workers ==> op.Register? && op.reg.worker == w && t.workers[w].boot == op.reg.boot)
  }

  lemma NextRetires(s: State, a: Action, w: u64)
    ensures s.retired <= Next(s, a).retired
    ensures w in s.workers ==>
              && w in Next(s, a).workers
              && (Next(s, a).workers[w].boot == s.workers[w].boot
                  || ((w, s.workers[w].boot) in Next(s, a).retired && a.Admit? && a.record.worker == w
                      && Next(s, a).workers[w].boot == a.record.boot))
    ensures w !in s.workers && w in Next(s, a).workers ==>
              a.Admit? && a.record.worker == w && Next(s, a).workers[w].boot == a.record.boot
  {
    hide Next, CanonicalKey, Judge;
    NextWorkers(s, a);
  }

  lemma StepRetires(s: State, op: Op, w: u64)
    ensures Retires(s, Step(s, op), op, w)
  {
    AdmitsOnce(s, op);
    PlanFrom(s, op);
    if op.Register? {
      var acts := PlanOf(s, op).actions;
      if acts != [] {
        assert acts == [acts[0]];
        assert acts[0].Admit? ==> acts[0].record.boot == op.reg.boot && acts[0].record.worker == op.reg.worker;
        hide Next, PlanOf;
        One(s, acts[0]);
        NextRetires(s, acts[0], w);
      }
    } else {
      var p := (t: State) => Retires(s, t, op, w);
      forall t, a | p(t) && Enabled(t, a) && From(op, a) ensures p(Next(t, a)) {
        assert !a.Admit?;
        hide Next, Enabled, From;
        NextRetires(t, a, w);
      }
      hide Step, Next, Enabled, From, PlanOf, Retires;
      assert p(s) by { Unretired(s, op, w); }
      StepKeeps(s, op, p);
    }
  }

  lemma Unretired(s: State, op: Op, w: u64)
    ensures Retires(s, s, op, w)
  {
  }

  /** Incarnation boot of worker w is fenced or superseded, and has published nothing since there were n acceptances. */
  predicate Silent(t: State, w: u64, boot: u64, n: nat) {
    && (if w in t.workers && t.workers[w].boot == boot then t.workers[w].fenced else (w, boot) in t.retired)
    && n <= |t.accepts|
    && forall i :: n <= i < |t.accepts| ==> !(t.accepts[i].worker == w && t.accepts[i].boot == boot)
  }

  lemma StepSilent(s: State, op: Op, w: u64, boot: u64, n: nat)
    requires WorkersOk(s) && Silent(s, w, boot, n) && (op.Register? ==> (op.reg.worker, op.reg.boot) !in s.retired)
    ensures Silent(Step(s, op), w, boot, n)
  {
    hide Step, WorkersOk;
    StepSucceeds(s, op, w);
    StepRetires(s, op, w);
    StepAuthority(s, op);
  }

  /** No registration is of a superseded incarnation. */
  ghost predicate NoneReturns(s: State, ops: seq<Op>) {
    Along(s, ops, (t: State, op: Op) => op.Register? ==> (op.reg.worker, op.reg.boot) !in t.retired)
  }

  lemma SilentRuns(s: State, w: u64, boot: u64, n: nat, ops: seq<Op>)
    requires WorkersOk(s) && Silent(s, w, boot, n) && NoneReturns(s, ops)
    ensures Silent(Run(s, ops), w, boot, n)
  {
    var p := (t: State) => WorkersOk(t) && Silent(t, w, boot, n);
    var allowed := (t: State, op: Op) => op.Register? ==> (op.reg.worker, op.reg.boot) !in t.retired;
    hide Step, Run, WorkersOk, Silent;
    forall t, op | p(t) && allowed(t, op) ensures p(Step(t, op)) {
      StepSilent(t, op, w, boot, n);
      StepWorkersOk(t, op);
    }
    RunKeeps(s, ops, p, allowed);
  }

  /** Once fenced, an incarnation publishes nothing in any run in which superseded incarnations do not register again. */
  lemma FencedNeverPublishes(s: State, w: u64, ops: seq<Op>)
    requires WorkersOk(s) && w in s.workers && s.workers[w].fenced && NoneReturns(s, ops)
    ensures forall i :: |s.accepts| <= i < |Run(s, ops).accepts| ==>
              !(Run(s, ops).accepts[i].worker == w && Run(s, ops).accepts[i].boot == s.workers[w].boot)
  {
    assert Silent(s, w, s.workers[w].boot, |s.accepts|);
    hide Run, WorkersOk, NoneReturns;
    SilentRuns(s, w, s.workers[w].boot, |s.accepts|, ops);
  }

  // ---- Without discipline: a boot that returns can be replayed ----

  lemma TakeOne(s: State, w: u64, o: Observation, policy: Policy, now: Timestamp)
    requires w in s.workers && !s.workers[w].lost && !s.workers[w].fenced && Judge(s, w, o) == Taken
    ensures var t := TakeAll(s, w, [o], policy, now, NOTHING_APPLIED);
            t.actions == [Accept(w, o, policy, now)] && t.status == Ok
  {
    hide CanonicalKey, Judge, Next, AppliedTo;
    assert [o][1..] == [];
    var t := TakeAll(Next(s, Accept(w, o, policy, now)), w, [], policy, now, AppliedTo(s, o, policy, now));
    assert t.actions == [] && t.status == Ok;
  }

  lemma IngestOnePlan(s: State, w: u64, o: Observation, policy: Policy, now: Timestamp) returns (sweep: seq<Action>)
    requires w in s.workers && !s.workers[w].lost && !s.workers[w].fenced && Judge(s, w, o) == Taken
    ensures exists keys, seen :: sweep == SweepActions(keys, seen, now)
    ensures PlanOf(s, Ingest(w, [o], policy, now)) == Plan([Accept(w, o, policy, now)] + sweep + [Beat(w, now)], Ok)
  {
    hide CanonicalKey, Judge, Next, AppliedTo, TakeAll, SweepActions, ApplyAll;
    TakeOne(s, w, o, policy, now);
    var taken := TakeAll(s, w, [o], policy, now, NOTHING_APPLIED);
    var u := ApplyAll(s, taken.actions);
    sweep := SweepActions(if w in u.workers then u.workers[w].devices else [], taken.seen, now);
  }

  lemma Acceptable(s: State, a: Action)
    requires a.Accept? && a.worker in s.workers && !s.workers[a.worker].lost && !s.workers[a.worker].fenced
    requires a.o.worker == a.worker && a.o.epoch == s.epoch && a.o.workerBoot == s.workers[a.worker].boot
    requires Key(a.o) in s.devices ==> s.devices[Key(a.o)].workerBoot != a.o.workerBoot
    ensures Judge(s, a.worker, a.o) == Taken && Enabled(s, a)
  {
    hide CanonicalKey;
  }

  /** A batch of one observation that passes every gate is accepted. */
  lemma IngestTaken(s: State, w: u64, o: Observation, policy: Policy, now: Timestamp)
    requires w in s.workers && !s.workers[w].lost && !s.workers[w].fenced && Judge(s, w, o) == Taken
    ensures var t := Step(s, Ingest(w, [o], policy, now));
            && t.accepts == s.accepts + [AcceptanceOf(w, o)] && t.epoch == s.epoch
            && w in t.workers && t.workers[w].boot == o.workerBoot && !t.workers[w].fenced
            && Key(o) in t.devices && t.devices[Key(o)].workerBoot == o.workerBoot
  {
    var a := Accept(w, o, policy, now);
    assert Enabled(s, a);
    hide Enabled, CanonicalKey, Judge, Next, AppliedTo, AcceptanceOf, PlanOf;
    var sweep := IngestOnePlan(s, w, o, policy, now);
    NextRenewed(s, a);
    NextEmits(s, a);
    var t := Next(s, a);
    var keys, seen :| sweep == SweepActions(keys, seen, now);
    One(s, a);
    ApplySnoc(s, [a] + sweep, Beat(w, now));
    ApplyConcat(s, [a], sweep);
    SweptQuietly(t, keys, seen, now, w, Key(o));
    BeatQuietly(ApplyAll(t, sweep), w, now, Key(o));
    assert Step(s, Ingest(w, [o], policy, now)) == Next(ApplyAll(t, sweep), Beat(w, now));
  }

  /** In particular one of a device that was not last reported by the same incarnation. */
  lemma IngestOne(s: State, w: u64, o: Observation, policy: Policy, now: Timestamp)
    requires w in s.workers && !s.workers[w].lost && !s.workers[w].fenced
    requires o.worker == w && o.epoch == s.epoch && o.workerBoot == s.workers[w].boot
    requires Key(o) in s.devices ==> s.devices[Key(o)].workerBoot != o.workerBoot
    ensures var t := Step(s, Ingest(w, [o], policy, now));
            && t.accepts == s.accepts + [AcceptanceOf(w, o)] && t.epoch == s.epoch
            && w in t.workers && t.workers[w].boot == o.workerBoot && !t.workers[w].fenced
            && Key(o) in t.devices && t.devices[Key(o)].workerBoot == o.workerBoot
  {
    hide *;
    Acceptable(s, Accept(w, o, policy, now));
    IngestTaken(s, w, o, policy, now);
  }

  /** Evidence and incarnations are the same in both states. */
  predicate Quiet(s: State, t: State, w: u64, k: Text) {
    && t.accepts == s.accepts && t.epoch == s.epoch && w in t.workers && w in s.workers
    && t.workers[w].boot == s.workers[w].boot && t.workers[w].fenced == s.workers[w].fenced && t.retired == s.retired
    && (k in s.devices <==> k in t.devices) && (k in s.devices ==> t.devices[k].workerBoot == s.devices[k].workerBoot)
  }

  lemma BeatQuietly(s: State, w: u64, now: Timestamp, k: Text)
    requires w in s.workers
    ensures Quiet(s, Next(s, Beat(w, now)), w, k)
  {
  }

  lemma {:induction false} SweptQuietly(s: State, keys: seq<Text>, seen: set<Text>, now: Timestamp, w: u64, k: Text)
    requires w in s.workers
    ensures Quiet(s, ApplyAll(s, SweepActions(keys, seen, now)), w, k)
    decreases keys
  {
    hide PushAll, VanishRecord;
    if keys != [] {
      if keys[0] in seen {
        assert SweepActions(keys, seen, now) == SweepActions(keys[1..], seen, now);
        SweptQuietly(s, keys[1..], seen, now, w, k);
      } else {
        SweptQuietly(Next(s, Vanish(keys[0], now)), keys[1..], seen, now, w, k);
      }
    }
  }

  lemma {:induction false} SilencedQuietly(s: State, keys: seq<Text>, w: u64, k: Text)
    requires w in s.workers
    ensures var t := ApplyAll(s, SilenceActions(keys)); Quiet(s, t, w, k) && t.workers == s.workers
    decreases keys
  {
    if keys != [] {
      SilencedQuietly(Next(s, Silence(keys[0])), keys[1..], w, k);
    }
  }

  /** A worker that is lost and registers under another boot may publish under that boot. */
  lemma Reincarnated(s: State, reg: Registration, now: Timestamp, k: Text)
    requires reg.worker in s.workers && s.workers[reg.worker].boot != reg.boot
    requires reg.epoch == s.epoch && reg.protocolVersion != 0
    ensures var t := Step(Step(s, MarkLost(reg.worker)), Register(reg, now));
            && t.accepts == s.accepts && t.epoch == s.epoch
            && reg.worker in t.workers && t.workers[reg.worker].boot == reg.boot
            && !t.workers[reg.worker].fenced && !t.workers[reg.worker].lost
            && (k in t.devices <==> k in s.devices) && (k in s.devices ==> t.devices[k].workerBoot == s.devices[k].workerBoot)
  {
    var w := reg.worker;
    var f := Next(s, Fence(w));
    var keys := s.workers[w].devices;
    SilencedQuietly(f, keys, w, k);
    One(s, Fence(w));
    ApplyConcat(s, [Fence(w)], SilenceActions(keys));
    var l := ApplyAll(f, SilenceActions(keys));
    assert Step(s, MarkLost(w)) == l;
    assert l.workers[w].fenced;
    var a := Admit(RecordOf(reg, now), now);
    assert PlanOf(l, Register(reg, now)).actions == [a];
    One(l, a);
  }

  /** The first registration of a worker. */
  lemma Enrolled(s: State, reg: Registration, now: Timestamp)
    requires reg.worker !in s.workers && reg.epoch == s.epoch && reg.protocolVersion != 0
    ensures var t := Step(s, Register(reg, now));
            && t.accepts == s.accepts && t.epoch == s.epoch && t.devices == s.devices
            && reg.worker in t.workers && t.workers[reg.worker].boot == reg.boot
            && !t.workers[reg.worker].fenced && !t.workers[reg.worker].lost
  {
    One(s, Admit(RecordOf(reg, now), now));
  }

  /** Two incarnations of one worker, the first of which comes back and sends its old observation again. */
  function ReplayScript(first: Registration, second: Registration, o: Observation, p: Observation, policy: Policy, now: Timestamp): seq<Op> {
    var w := first.worker;
    [Register(first, now), Ingest(w, [o], policy, now), MarkLost(w), Register(second, now), Ingest(w, [p], policy, now),
     MarkLost(w), Register(first, now), Ingest(w, [o], policy, now)]
  }

  lemma {:induction false} RunConcat(s: State, a: seq<Op>, b: seq<Op>)
    ensures Run(s, a + b) == Run(Run(s, a), b)
    decreases a
  {
    hide Step;
    if a == [] {
      assert a + b == b;
    } else {
      assert (a + b)[0] == a[0] && (a + b)[1..] == a[1..] + b;
      RunConcat(Step(s, a[0]), a[1..], b);
    }
  }

  /** Why a superseded incarnation must not register again: in every such history the old observation is accepted twice. */
  lemma ReturningBootReplays(s: State, first: Registration, second: Registration, o: Observation, p: Observation,
                             policy: Policy, now: Timestamp)
    requires s.accepts == [] && first.worker !in s.workers && second.worker == first.worker && second.boot != first.boot
    requires first.epoch == second.epoch == s.epoch && first.protocolVersion != 0 && second.protocolVersion != 0
    requires o.worker == p.worker == first.worker && o.epoch == p.epoch == s.epoch && Key(o) == Key(p)
    requires o.workerBoot == first.boot && p.workerBoot == second.boot && Key(o) !in s.devices
    ensures !NeverReplayed(Run(s, ReplayScript(first, second, o, p, policy, now)).accepts)
  {
    hide CanonicalKey, Step, AcceptanceOf;
    var w, k := first.worker, Key(o);
    Enrolled(s, first, now);
    var s1 := Step(s, Register(first, now));
    IngestOne(s1, w, o, policy, now);
    var s2 := Step(s1, Ingest(w, [o], policy, now));
    Reincarnated(s2, second, now, k);
    var s4 := Step(Step(s2, MarkLost(w)), Register(second, now));
    IngestOne(s4, w, p, policy, now);
    var s5 := Step(s4, Ingest(w, [p], policy, now));
    Reincarnated(s5, first, now, k);
    var s7 := Step(Step(s5, MarkLost(w)), Register(first, now));
    IngestOne(s7, w, o, policy, now);
    var s8 := Step(s7, Ingest(w, [o], policy, now));
    RunEight(s, Register(first, now), Ingest(w, [o], policy, now), MarkLost(w), Register(second, now),
             Ingest(w, [p], policy, now), MarkLost(w), Register(first, now), Ingest(w, [o], policy, now));
    assert s8.accepts[0] == s8.accepts[2] == AcceptanceOf(w, o);
    assert !Ordered(s8.accepts[0], s8.accepts[2]);
  }

  lemma RunEight(s: State, a: Op, b: Op, c: Op, d: Op, e: Op, f: Op, g: Op, h: Op)
    ensures Run(s, [a, b, c, d, e, f, g, h]) == Step(Step(Step(Step(Step(Step(Step(Step(s, a), b), c), d), e), f), g), h)
  {
    hide Step;
    RunFour(s, a, b, c, d);
    var t := Run(s, [a, b, c, d]);
    RunFour(t, e, f, g, h);
    RunConcat(s, [a, b, c, d], [e, f, g, h]);
    assert [a, b, c, d] + [e, f, g, h] == [a, b, c, d, e, f, g, h];
  }

  lemma RunTwo(s: State, a: Op, b: Op)
    ensures Run(s, [a, b]) == Step(Step(s, a), b)
  {
    hide Step;
    var t := Step(s, a);
    assert [b][1..] == [] && [a, b][1..] == [b];
    assert Run(t, [b]) == Run(Step(t, b), []);
    assert Run(s, [a, b]) == Run(t, [b]);
  }

  lemma RunFour(s: State, a: Op, b: Op, c: Op, d: Op)
    ensures Run(s, [a, b, c, d]) == Step(Step(Step(Step(s, a), b), c), d)
  {
    hide Step;
    RunTwo(s, a, b);
    RunTwo(Step(Step(s, a), b), c, d);
    RunConcat(s, [a, b], [c, d]);
    assert [a, b] + [c, d] == [a, b, c, d];
  }

  // ---- Without discipline: two reporters of one device replay each other's past ----

  /** A batch leaves the standing of every worker as it was. */
  lemma IngestKeepsStanding(s: State, op: Op, v: u64)
    requires op.Ingest? && v in s.workers
    ensures v in Step(s, op).workers
    ensures var was, is_ := s.workers[v], Step(s, op).workers[v];
            is_.boot == was.boot && is_.fenced == was.fenced && is_.lost == was.lost
  {
    var p := (t: State) =>
      && v in t.workers && t.workers[v].boot == s.workers[v].boot && t.workers[v].fenced == s.workers[v].fenced
      && t.workers[v].lost == s.workers[v].lost;
    forall t, a | p(t) && Enabled(t, a) && From(op, a) ensures p(Next(t, a)) {
      assert a.Accept? || a.Vanish? || a.Beat?;
      hide Next, Enabled, From;
      NextKeepsStanding(t, a, v);
    }
    hide Step, Next, Enabled, From, PlanOf;
    StepKeeps(s, op, p);
  }

  /** Why a device must have one reporter: when two registered workers with different boots report the same device by
    * turns, an observation sent again is accepted again.
    */
  lemma TwoReportersReplay(s: State, o: Observation, p: Observation, policy: Policy, now: Timestamp)
    requires s.accepts == [] && o.worker != p.worker && o.workerBoot != p.workerBoot && Key(o) == Key(p)
    requires Key(o) !in s.devices && o.epoch == p.epoch == s.epoch
    requires forall q :: q in [o, p] ==>
               && q.worker in s.workers && s.workers[q.worker].boot == q.workerBoot
               && !s.workers[q.worker].lost && !s.workers[q.worker].fenced
    ensures var a, b := Ingest(o.worker, [o], policy, now), Ingest(p.worker, [p], policy, now);
            !NeverReplayed(Run(s, [a, b, a]).accepts)
  {
    hide CanonicalKey, Step, AcceptanceOf;
    var a, b := Ingest(o.worker, [o], policy, now), Ingest(p.worker, [p], policy, now);
    assert o in [o, p] && p in [o, p];
    IngestOne(s, o.worker, o, policy, now);
    IngestKeepsStanding(s, a, o.worker);
    IngestKeepsStanding(s, a, p.worker);
    var t := Step(s, a);
    IngestOne(t, p.worker, p, policy, now);
    IngestKeepsStanding(t, b, o.worker);
    var u := Step(t, b);
    IngestOne(u, o.worker, o, policy, now);
    var v := Step(u, a);
    RunThree(s, a, b, a);
    assert v.accepts[0] == v.accepts[2] == AcceptanceOf(o.worker, o);
    assert !Ordered(v.accepts[0], v.accepts[2]);
  }

  lemma RunThree(s: State, a: Op, b: Op, c: Op)
    ensures Run(s, [a, b, c]) == Step(Step(Step(s, a), b), c)
  {
    hide Step;
    RunTwo(s, a, b);
    RunConcat(s, [a, b], [c]);
    assert [a, b] + [c] == [a, b, c];
    var t := Run(s, [a, b]);
    assert [c][1..] == [];
    assert Run(t, [c]) == Run(Step(t, c), []);
  }
}
