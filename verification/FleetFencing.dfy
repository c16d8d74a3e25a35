/** Fencing: who may publish, and what a lost or fenced incarnation can no longer do. */
module FleetFencing {
  import opened Basics
  import opened Identity
  import opened Device
  import opened Pipeline
  import opened Fleet
  import opened FleetRuns

  // ---- Incarnations ----

  /** How one worker's record may change in a step: a fence stays up within an incarnation, only a fenced incarnation
    * gives way to another, and within an incarnation registration generations only grow.
    */
  predicate Succeeds(s: State, t: State, w: u64) {
    w in s.workers ==>
      && w in t.workers
      && (t.workers[w].boot == s.workers[w].boot ==>
            && (s.workers[w].fenced ==> t.workers[w].fenced)
            && s.workers[w].registrationGeneration <= t.workers[w].registrationGeneration)
      && (t.workers[w].boot != s.workers[w].boot ==> s.workers[w].fenced)
  }

  lemma NextSucceeds(s: State, a: Action, w: u64)
    requires WorkersOk(s) && Enabled(s, a)
    ensures Succeeds(s, Next(s, a), w)
  {
    hide Next, CanonicalKey, Judge;
    NextWorkers(s, a);
  }

  /** The worker whose incarnation an action can replace. */
  lemma AdmitsOnce(s: State, op: Op)
    ensures op.Register? ==> |PlanOf(s, op).actions| <= 1
    ensures !op.Register? ==> forall a :: a in PlanOf(s, op).actions ==> !a.Admit? && !a.Reaffirm?
  {
    PlanFrom(s, op);
    hide IngestPlan, MarkLostPlan;
  }

  /** Within an incarnation, that is while no other boot is admitted, fences and generations only go up. */
  predicate SameBoot(s: State, t: State, w: u64) {
    w in s.workers ==>
      && w in t.workers && t.workers[w].boot == s.workers[w].boot
      && (s.workers[w].fenced ==> t.workers[w].fenced)
      && s.workers[w].registrationGeneration <= t.workers[w].registrationGeneration
  }

  lemma NextSameBoot(s: State, a: Action, w: u64)
    requires !a.Admit? && Enabled(s, a)
    ensures SameBoot(s, Next(s, a), w)
  {
    hide Next, CanonicalKey, Judge;
    NextWorkers(s, a);
  }

  lemma StepSucceeds(s: State, op: Op, w: u64)
    requires WorkersOk(s)
    ensures Succeeds(s, Step(s, op), w)
    ensures s.epoch <= Step(s, op).epoch
  {
    AdmitsOnce(s, op);
    PlanEnabled(s, op);
    var acts := PlanOf(s, op).actions;
    if op.Register? {
      if acts != [] {
        assert acts == [acts[0]];
        hide Next, Enabled, PlanOf;
        One(s, acts[0]);
        NextSucceeds(s, acts[0], w);
        NextEmits(s, acts[0]);
      }
    } else {
      var p := (t: State) => SameBoot(s, t, w) && s.epoch <= t.epoch;
      forall t, a | p(t) && Enabled(t, a) && From(op, a) ensures p(Next(t, a)) {
        assert a.Roll? ==> a.newEpoch > t.epoch;
        assert !a.Admit?;
        hide Next, Enabled, From;
        NextSameBoot(t, a, w);
        NextEmits(t, a);
      }
      hide Step, Next, Enabled, From, PlanOf;
      StepKeeps(s, op, p);
    }
  }

  // ---- Authority ----

  /** Every acceptance that t adds to s came from the recorded boot of an unfenced worker at the epoch of s. */
  ghost predicate AddedUnderAuthority(s: State, t: State, op: Op) {
    && |s.accepts| <= |t.accepts| && t.accepts[..|s.accepts|] == s.accepts
    && forall i :: |s.accepts| <= i < |t.accepts| ==> UnderAuthority(s, t.accepts[i], op)
  }

  ghost predicate UnderAuthority(s: State, a: Acceptance, op: Op) {
    && op.Ingest? && a.worker == op.worker && a.worker in s.workers
    && !s.workers[a.worker].lost && !s.workers[a.worker].fenced
    && a.boot == s.workers[a.worker].boot && a.epoch == s.epoch
    && exists o :: o in op.obs && a == AcceptanceOf(op.worker, o)
  }

  lemma NextKeepsStanding(s: State, a: Action, w: u64)
    requires w in s.workers && (a.Accept? || a.Vanish? || a.Beat?)
    ensures w in Next(s, a).workers
    ensures var was, is_ := s.workers[w], Next(s, a).workers[w];
            is_.boot == was.boot && is_.fenced == was.fenced && is_.lost == was.lost
  {
    hide Next, CanonicalKey, Judge;
    NextWorkers(s, a);
  }

  /** t came from s by part of worker w's batch. */
  ghost predicate Taking(s: State, t: State, op: Op, w: u64) {
    && w in s.workers && !s.workers[w].lost && !s.workers[w].fenced
    && AddedUnderAuthority(s, t, op) && t.epoch == s.epoch && w in t.workers && t.workers[w].boot == s.workers[w].boot
    && t.workers[w].fenced == s.workers[w].fenced && t.workers[w].lost == s.workers[w].lost
  }

  lemma TakingAction(t: State, op: Op, a: Action)
    requires op.Ingest? && Enabled(t, a) && From(op, a)
    ensures a.Accept? || a.Vanish? || a.Beat?
    ensures a.Accept? ==> a.worker == op.worker && a.o in op.obs && a.worker in t.workers && a.o.epoch == t.epoch
                          && a.o.workerBoot == t.workers[a.worker].boot
  {
    hide CanonicalKey;
  }

  lemma AcceptedUnderAuthority(s: State, t: State, u: State, op: Op, o: Observation)
    requires op.Ingest? && op.worker in s.workers && !s.workers[op.worker].lost && !s.workers[op.worker].fenced
    requires AddedUnderAuthority(s, t, op) && u.accepts == t.accepts + [AcceptanceOf(op.worker, o)]
    requires o in op.obs && o.workerBoot == s.workers[op.worker].boot && o.epoch == s.epoch
    ensures AddedUnderAuthority(s, u, op)
  {
    hide CanonicalKey;
  }

  lemma SameAuthority(s: State, t: State, u: State, op: Op)
    requires AddedUnderAuthority(s, t, op) && u.accepts == t.accepts + []
    ensures AddedUnderAuthority(s, u, op)
  {
    hide UnderAuthority;
    assert u.accepts == t.accepts;
  }

  lemma NextTaking(s: State, t: State, op: Op, w: u64, a: Action)
    requires Taking(s, t, op, w) && op.Ingest? && op.worker == w && Enabled(t, a) && From(op, a)
    ensures Taking(s, Next(t, a), op, w)
  {
    hide Next, Enabled, From, AcceptanceOf, AddedUnderAuthority;
    TakingAction(t, op, a);
    NextKeepsStanding(t, a, w);
    NextEmits(t, a);
    if a.Accept? {
      AcceptedUnderAuthority(s, t, Next(t, a), op, a.o);
    } else {
      SameAuthority(s, t, Next(t, a), op);
    }
  }

  lemma StepAuthority(s: State, op: Op)
    ensures AddedUnderAuthority(s, Step(s, op), op)
  {
    hide Step, Next, Enabled, From, PlanOf, AddedUnderAuthority;
    if op.Ingest? && op.worker in s.workers && !s.workers[op.worker].lost && !s.workers[op.worker].fenced {
      var p := (t: State) => Taking(s, t, op, op.worker);
      NothingAdded(s, s, op);
      forall t, a | p(t) && Enabled(t, a) && From(op, a) ensures p(Next(t, a)) {
        NextTaking(s, t, op, op.worker, a);
      }
      StepKeeps(s, op, p);
    } else {
      NoAcceptance(s, op);
      NothingAdded(s, Step(s, op), op);
    }
  }

  lemma NothingAdded(s: State, t: State, op: Op)
    requires t.accepts == s.accepts
    ensures AddedUnderAuthority(s, t, op)
  {
  }

  lemma NoAcceptance(s: State, op: Op)
    requires op.Ingest? ==> op.worker !in s.workers || s.workers[op.worker].lost || s.workers[op.worker].fenced
    ensures Step(s, op).accepts == s.accepts
  {
    if !op.Ingest? {
      var p := (t: State) => t.accepts == s.accepts;
      forall t, a | p(t) && Enabled(t, a) && From(op, a) ensures p(Next(t, a)) {
        assert !a.Accept?;
        hide Next, Enabled, From;
        NextEmits(t, a);
      }
      hide Step, Next, Enabled, From, PlanOf;
      StepKeeps(s, op, p);
    }
  }

  // ---- Ingest leaves administration alone ----

  /** A batch adds no drain or quarantine record and changes neither axis of any device. */
  ghost predicate AdministrationKept(s: State, t: State) { NothingAdministrative(s, t) && AxesKept(s, t) }

  predicate NothingAdministrative(s: State, t: State) {
    && |s.records| <= |t.records| && t.records[..|s.records|] == s.records
    && (forall i :: |s.records| <= i < |t.records| ==> !Administrative(t.records[i].kind))
  }

  predicate AxesKept(s: State, t: State) {
    && (forall k :: k in s.devices ==> k in t.devices && SameAxes(s.devices[k], t.devices[k]))
    && (forall k :: k in t.devices && k !in s.devices ==> SameAxes(BLANK, t.devices[k]))
  }

  predicate SameAxes(d: DeviceState, e: DeviceState) {
    d.drain == e.drain && d.quarantined == e.quarantined && d.quarantine == e.quarantine
  }

  lemma NextKeepsAxes(t: State, a: Action, k: Text)
    requires a.Accept? || a.Vanish? || a.Beat? || a.Silence? || a.Fence?
    ensures k in t.devices ==> k in Next(t, a).devices && SameAxes(t.devices[k], Next(t, a).devices[k])
    ensures k !in t.devices && k in Next(t, a).devices ==> SameAxes(BLANK, Next(t, a).devices[k])
  {
    hide Next, CanonicalKey, AppliedTo;
    if Target(a) == Some(k) {
      TargetDevice(t, a, k);
      if a.Accept? {
        AppliedFacts(t, a.o, a.policy, a.now);
      }
    } else {
      OtherDevicesUntouched(t, a, k);
    }
  }

  lemma NextAxesKept(s: State, t: State, a: Action)
    requires AxesKept(s, t) && (a.Accept? || a.Vanish? || a.Beat? || a.Silence? || a.Fence?)
    ensures AxesKept(s, Next(t, a))
  {
    hide Next, CanonicalKey;
    forall k
      ensures k in t.devices ==> k in Next(t, a).devices && SameAxes(t.devices[k], Next(t, a).devices[k])
      ensures k !in t.devices && k in Next(t, a).devices ==> SameAxes(BLANK, Next(t, a).devices[k])
    {
      NextKeepsAxes(t, a, k);
    }
  }

  lemma NextNothingAdministrative(s: State, t: State, a: Action)
    requires NothingAdministrative(s, t) && (a.Accept? || a.Vanish? || a.Beat? || a.Silence? || a.Fence?)
    ensures NothingAdministrative(s, Next(t, a))
  {
    assert a.Beat? || a.Silence? || a.Fence? ==> Emitted(t, a) == [];
    hide Next, Emitted, CanonicalKey;
    NextEmits(t, a);
    EmittedEpoch(t, a);
  }

  lemma IngestKeepsAdministration(s: State, op: Op)
    requires op.Ingest? || op.MarkLost?
    ensures AdministrationKept(s, Step(s, op))
  {
    var p := (t: State) => AdministrationKept(s, t);
    forall t, a | p(t) && Enabled(t, a) && From(op, a) ensures p(Next(t, a)) {
      assert a.Accept? || a.Vanish? || a.Beat? || a.Silence? || a.Fence?;
      hide Next, Enabled, From, NothingAdministrative, AxesKept;
      NextNothingAdministrative(s, t, a);
      NextAxesKept(s, t, a);
    }
    hide Step, Next, Enabled, From, PlanOf, NothingAdministrative;
    StepKeeps(s, op, p);
  }

  // ---- Loss ----

  /** k is not held out as usable. */
  predicate Down(s: State, k: Text) {
    k in s.devices ==> !s.devices[k].isFresh && s.devices[k].eligibility != Eligibility.ELIGIBLE
  }

  lemma NextKeepsDown(s: State, a: Action, k: Text)
    requires Down(s, k) && !(a.Accept? && Key(a.o) == k)
    ensures Down(Next(s, a), k)
  {
    hide Next, CanonicalKey, AppliedTo, Recompute;
    if Target(a) != Some(k) {
      OtherDevicesUntouched(s, a, k);
    } else {
      TargetDevice(s, a, k);
      if k in s.devices {
        var d := s.devices[k];
        match a
        case Drain(_, to, _) => RecomputeEligible(d.(drain := to));
        case Hold(_, q, _) => RecomputeEligible(d.(quarantined := true, quarantine := q));
        case Release(_, _) => RecomputeEligible(d.(quarantined := false, quarantine := NO_QUARANTINE));
        case _ =>
      }
    }
  }

  /** Some observation of k has been accepted since there were n acceptances. */
  ghost predicate Renewed(t: State, k: Text, n: nat) {
    exists i :: n <= i < |t.accepts| && t.accepts[i].key == k
  }

  lemma NextRenewal(t: State, a: Action, k: Text, n: nat)
    requires n <= |t.accepts| && (Renewed(t, k, n) || Down(t, k))
    ensures n <= |Next(t, a).accepts|
    ensures Renewed(Next(t, a), k, n) || Down(Next(t, a), k)
  {
    hide Next, Emitted, CanonicalKey, AppliedTo, Down;
    NextEmits(t, a);
    if Renewed(t, k, n) {
      var i :| n <= i < |t.accepts| && t.accepts[i].key == k;
      assert Next(t, a).accepts[i].key == k;
    } else if a.Accept? && Key(a.o) == k {
      assert Next(t, a).accepts[|t.accepts|].key == k;
    } else {
      NextKeepsDown(t, a, k);
    }
  }

  /** Nothing but an accepted observation of a device brings it back: no heartbeat, registration, drain, undrain,
    * quarantine, clearance, loss or epoch change does, in whatever state the store is.
    */
  lemma OnlyAcceptanceRevives(s: State, ops: seq<Op>, k: Text)
    requires Down(s, k)
    ensures Renewed(Run(s, ops), k, |s.accepts|) || Down(Run(s, ops), k)
  {
    hide Next, Enabled, Down, Renewed, Run;
    var n := |s.accepts|;
    var p := (t: State) => n <= |t.accepts| && (Renewed(t, k, n) || Down(t, k));
    forall t, a | p(t) && Enabled(t, a) ensures p(Next(t, a)) {
      NextRenewal(t, a, k, n);
    }
    EveryRunKeeps(s, ops, p);
  }

  /** Only worker w reports k, and w does not come back under another boot. */
  predicate GoneUnder(op: Op, w: u64, boot: u64, k: Text) {
    && (op.Ingest? && op.worker != w ==> forall o :: o in op.obs ==> Key(o) != k)
    && (op.Register? && op.reg.worker == w ==> op.reg.boot == boot)
  }

  /** Worker w is fenced in incarnation boot, and k is down. */
  predicate Gone(t: State, w: u64, boot: u64, k: Text) {
    w in t.workers && t.workers[w].boot == boot && t.workers[w].fenced && Down(t, k)
  }

  lemma StepGone(t: State, op: Op, w: u64, boot: u64, k: Text)
    requires Gone(t, w, boot, k) && GoneUnder(op, w, boot, k)
    ensures Gone(Step(t, op), w, boot, k)
    ensures op.Ingest? && op.worker == w ==> Step(t, op) == t
  {
    if op.Ingest? && op.worker == w {
      assert PlanOf(t, op).actions == [];
    } else {
      var p := (u: State) => Gone(u, w, boot, k);
      forall u, a | p(u) && Enabled(u, a) && From(op, a) ensures p(Next(u, a)) {
        assert !(a.Admit? && a.record.worker == w);
        assert a.Accept? ==> Key(a.o) != k;
        hide From, GoneUnder;
        NextKeepsDown(u, a, k);
        NextFenced(u, a, w);
      }
      hide Step, Next, Enabled, From, PlanOf, Gone;
      StepKeeps(t, op, p);
    }
  }

  lemma NextFenced(s: State, a: Action, w: u64)
    requires w in s.workers && s.workers[w].fenced && !(a.Admit? && a.record.worker == w)
    ensures w in Next(s, a).workers && Next(s, a).workers[w].boot == s.workers[w].boot && Next(s, a).workers[w].fenced
  {
    hide Next, CanonicalKey, Judge;
    NextWorkers(s, a);
  }

  /** An absent device is not called eligible. */
  predicate AbsentDown(s: State, k: Text) {
    k in s.devices && s.devices[k].eligibility == Eligibility.ELIGIBLE ==> s.devices[k].present
  }

  lemma SilencedOne(s: State, key: Text, k: Text)
    ensures var t := Next(s, Silence(key));
            && t.workers == s.workers && (AbsentDown(t, k) <==> AbsentDown(s, k))
            && (Down(t, k) <==> if k == key then AbsentDown(s, k) else Down(s, k))
  {
    var a := Silence(key);
    hide Next, Silenced;
    NextWorkers(s, a);
    if k != key {
      OtherDevicesUntouched(s, a, k);
    } else {
      TargetDevice(s, a, k);
      if k in s.devices {
        SilencedDown(s.devices[k]);
      }
    }
  }

  lemma SilencedDown(d: DeviceState)
    ensures !Silenced(d).isFresh
    ensures Silenced(d).eligibility != Eligibility.ELIGIBLE <==> (d.eligibility == Eligibility.ELIGIBLE ==> d.present)
    ensures (Silenced(d).eligibility == Eligibility.ELIGIBLE ==> Silenced(d).present)
            <==> (d.eligibility == Eligibility.ELIGIBLE ==> d.present)
  {
  }

  /** Silencing the listed devices brings down exactly those, unless an absent one was called eligible. */
  lemma {:induction false} SilencedAll(s: State, keys: seq<Text>, k: Text)
    ensures var t := ApplyAll(s, SilenceActions(keys));
            t.workers == s.workers && (Down(t, k) <==> Down(s, k) || (k in keys && AbsentDown(s, k)))
    decreases keys
  {
    if keys != [] {
      SilencedOne(s, keys[0], k);
      SilencedAll(Next(s, Silence(keys[0])), keys[1..], k);
      hide Next;
    }
  }

  /** Marking a worker lost fences its incarnation, and leaves a device down exactly when it was down before, or the worker
    * lists it and it was not called eligible while absent.
    */
  lemma LossBringsDown(s: State, w: u64, k: Text)
    requires w in s.workers
    ensures var t := Step(s, MarkLost(w));
            && w in t.workers && t.workers[w].boot == s.workers[w].boot && t.workers[w].fenced
            && (Down(t, k) <==> Down(s, k) || (k in s.workers[w].devices && AbsentDown(s, k)))
  {
    var t := Next(s, Fence(w));
    assert t.devices == s.devices;
    assert t.workers[w].boot == s.workers[w].boot && t.workers[w].fenced;
    hide Next;
    SilencedAll(t, s.workers[w].devices, k);
    ApplyConcat(s, [Fence(w)], SilenceActions(s.workers[w].devices));
    One(s, Fence(w));
  }

  /** No resurrection: after a worker is lost, a device it lists, and that it alone reports, stays stale and not
    * eligible through every run in which the worker does not register under another boot.
    */
  lemma NoResurrection(s: State, w: u64, k: Text, ops: seq<Op>)
    requires w in s.workers && k in s.workers[w].devices && AbsentDown(s, k)
    requires forall op :: op in ops ==> GoneUnder(op, w, s.workers[w].boot, k)
    ensures Gone(Run(Step(s, MarkLost(w)), ops), w, s.workers[w].boot, k)
  {
    var boot := s.workers[w].boot;
    var lost := Step(s, MarkLost(w));
    LossBringsDown(s, w, k);
    hide Step, Gone, GoneUnder, Run;
    var p := (t: State) => Gone(t, w, boot, k);
    var allowed := (t: State, op: Op) => GoneUnder(op, w, boot, k);
    forall t, op | p(t) && allowed(t, op) ensures p(Step(t, op)) {
      StepGone(t, op, w, boot, k);
    }
    AlongAlways(lost, ops, allowed);
    RunKeeps(lost, ops, p, allowed);
  }
}
