/** Administration and accounting: what draining and quarantine do to eligibility, and what the counters mean. */
module FleetAdmin {
  import opened Basics
  import opened Identity
  import opened Device
  import opened Pipeline
  import opened Fleet
  import opened FleetRuns
  import opened FleetFencing
  import opened FleetStore

  // ---- The administrative axes ----

  /** The eligibility that the two axes leave to a device that is otherwise usable. */
  function AxesVerdict(d: DeviceState): Eligibility {
    if d.quarantined then Eligibility.QUARANTINED
    else if d.drain != DrainState.ACTIVE then Eligibility.DRAINING
    else Eligibility.ELIGIBLE
  }

  /** Usable but for the axes, and held back by nothing else. */
  predicate Usable(d: DeviceState) {
    && d.present && d.isFresh && d.health == HealthState.HEALTHY && d.coreValidationOk
    && d.eligibility == AxesVerdict(d)
  }

  lemma RecomputeUsable(d: DeviceState)
    requires d.present && d.isFresh && d.health == HealthState.HEALTHY && d.coreValidationOk
    ensures Usable(Recompute(d))
  {
  }

  predicate UsableAt(s: State, k: Text) { k in s.devices && Usable(s.devices[k]) }

  lemma NextUsable(s: State, a: Action, k: Text)
    requires UsableAt(s, k) && !a.Accept? && !a.Vanish? && !a.Silence?
    ensures UsableAt(Next(s, a), k)
  {
    hide Next, Recompute;
    if Target(a) != Some(k) {
      OtherDevicesUntouched(s, a, k);
    } else {
      TargetDevice(s, a, k);
      var d := s.devices[k];
      match a
      case Drain(_, to, _) => RecomputeUsable(d.(drain := to));
      case Hold(_, q, _) => RecomputeUsable(d.(quarantined := true, quarantine := q));
      case Release(_, _) => RecomputeUsable(d.(quarantined := false, quarantine := NO_QUARANTINE));
    }
  }

  lemma StepUsable(s: State, op: Op, k: Text)
    requires UsableAt(s, k) && !op.Ingest? && !op.MarkLost?
    ensures UsableAt(Step(s, op), k)
  {
    var p := (t: State) => UsableAt(t, k);
    forall t, a | p(t) && Enabled(t, a) && From(op, a) ensures p(Next(t, a)) {
      assert !a.Accept? && !a.Vanish? && !a.Silence?;
      hide Next, Enabled, From, UsableAt;
      NextUsable(t, a, k);
    }
    hide Step, Next, Enabled, From, PlanOf, UsableAt;
    StepKeeps(s, op, p);
  }

  /** From an eligible, validated device, through any sequence of draining, undraining, quarantine, clearance,
    * registrations, heartbeats and epoch changes, eligibility is what the two axes alone say.
    */
  lemma AxesIndependent(s: State, ops: seq<Op>, k: Text)
    requires k in s.devices && Sound(s.devices[k])
    requires s.devices[k].eligibility == Eligibility.ELIGIBLE && s.devices[k].coreValidationOk
    requires forall op :: op in ops ==> !op.Ingest? && !op.MarkLost?
    ensures k in Run(s, ops).devices
    ensures Run(s, ops).devices[k].eligibility == AxesVerdict(Run(s, ops).devices[k])
  {
    var p := (t: State) => UsableAt(t, k);
    var allowed := (t: State, op: Op) => !op.Ingest? && !op.MarkLost?;
    assert p(s);
    assert forall t :: UsableAt(t, k) ==> k in t.devices && t.devices[k].eligibility == AxesVerdict(t.devices[k]);
    hide Step, Run, UsableAt;
    forall t, op | p(t) && allowed(t, op) ensures p(Step(t, op)) {
      StepUsable(t, op, k);
    }
    AlongAlways(s, ops, allowed);
    RunKeeps(s, ops, p, allowed);
  }

  /** Draining and undraining once. */
  function DrainedAndBack(d: DeviceState): DeviceState {
    Recompute(Recompute(d.(drain := DrainState.DRAINING)).(drain := DrainState.ACTIVE))
  }

  /** What the device record itself knows in a device's favour. */
  predicate Recommended(d: DeviceState) {
    d.present && d.isFresh && d.health == HealthState.HEALTHY && d.coreValidationOk
  }

  /** Undraining recomputes eligibility from the device record alone: a device that was drained and undrained comes back
    * eligible exactly when it is not quarantined and its record recommends it, whatever it was before.
    */
  lemma UndrainExact(d: DeviceState)
    ensures DrainedAndBack(d).eligibility == Eligibility.ELIGIBLE <==> Recommended(d) && !d.quarantined
  {
    hide Recompute;
    DrainKeepsRecord(d);
    RecomputeEligible(Recompute(d.(drain := DrainState.DRAINING)).(drain := DrainState.ACTIVE));
  }

  lemma DrainKeepsRecord(d: DeviceState)
    ensures var e := Recompute(d.(drain := DrainState.DRAINING));
            && e.present == d.present && e.isFresh == d.isFresh && e.health == d.health
            && e.coreValidationOk == d.coreValidationOk && e.quarantined == d.quarantined
  {
    hide EvaluateEligibility;
  }

  /** For a device fresh from an observation, draining and undraining changes whether it is eligible exactly when
    * the policy and the core validation flag disagree about otherwise complete evidence. In particular a device
    * held back by an architecture, memory or capability policy alone comes back eligible.
    */
  lemma UndrainDropsPolicy(prior: DeviceState, o: Observation, policy: Policy, now: Timestamp, epoch: u64)
    requires prior.drain == DrainState.ACTIVE && !prior.quarantined
    ensures var d := ApplyObservation(prior, o, policy, now, epoch).state;
            var back := DrainedAndBack(d);
            var admitted := Meets(o, policy) && policy.requiredCapabilities == [];
            (back.eligibility == Eligibility.ELIGIBLE <==> d.eligibility == Eligibility.ELIGIBLE)
            <==> !(Fresh(prior, o, policy, now) && Proven(o) && admitted != o.coreValidationOk)
  {
    hide Diff, EvaluateHealth, EvaluateEligibility, DrainedAndBack, Fresh, Meets;
    var d := ApplyObservation(prior, o, policy, now, epoch).state;
    ApplySound(prior, o, policy, now, epoch);
    ExactEligibility(prior, o, policy, now, epoch);
    HealthExact(SignalsFromProbe(o, prior.present, !Fresh(prior, o, policy, now)));
    UndrainExact(d);
  }

  /** The record of a drain change names the kind of change that the two states show exactly when the device was active:
    * reaching DRAINED is recorded as a drain initiated, and undraining as a drain completed.
    */
  lemma DrainRecordAgreement(d: DeviceState, to: DrainState, now: Timestamp, epoch: u64)
    requires d.drain != to
    ensures Changed(DrainRecord(d, to, now, epoch).kind, d, Recompute(d.(drain := to))) <==> d.drain == DrainState.ACTIVE
  {
    hide EvaluateEligibility, CapabilitiesKey, Ascii, DrainName;
  }

  // ---- Accounting ----

  lemma WorkerCounters(ws: map<u64, WorkerRecord>)
    requires forall w :: w in ws ==> (ws[w].lost || !ws[w].alive ==> ws[w].fenced)
    ensures |WorkersWhere(ws, true)| + |WorkersWhere(ws, false)| == |ws|
    ensures WorkersWhere(ws, true) == set w | w in ws && !ws[w].fenced
  {
    var live, stale := WorkersWhere(ws, true), WorkersWhere(ws, false);
    assert live + stale == ws.Keys && live !! stale;
  }

  lemma DeviceCounters(ds: map<Text, DeviceState>)
    requires forall k :: k in ds ==> ds[k].eligibility != Eligibility.DEGRADED_ELIGIBLE
    ensures DevicesIn(ds, Eligibility.DEGRADED_ELIGIBLE) == {}
    ensures |DevicesIn(ds, Eligibility.ELIGIBLE)| + |DevicesIn(ds, Eligibility.QUARANTINED)|
            + |DevicesIn(ds, Eligibility.DRAINING)| <= |ds|
  {
    var e, q, r := DevicesIn(ds, Eligibility.ELIGIBLE), DevicesIn(ds, Eligibility.QUARANTINED),
                   DevicesIn(ds, Eligibility.DRAINING);
    assert e !! q && (e + q) !! r;
    SubsetSize(e + q + r, ds.Keys);
  }

  /** The counters of a consistent store: workers are live exactly when unfenced, live and stale ones add up, and the
    * device counters never exceed the devices.
    */
  lemma AccountingExact(s: State)
    requires Consistent(s)
    ensures var a := AccountingOf(s);
            && a.liveWorkers + a.staleWorkers == a.registeredWorkers
            && a.liveWorkers == a.activeRegistrations == |set w | w in s.workers && !s.workers[w].fenced|
            && a.eligibleDevices + a.degradedDevices + a.quarantinedDevices + a.drainedDevices <= a.devices
            && a.degradedDevices == 0
            && a.acceptedObservations == |s.accepts|
  {
    WorkerCounters(s.workers);
    hide WorkersWhere, CanonicalKey;
    DeviceCounters(s.devices);
    hide DevicesIn;
  }

  lemma SubsetSize<T>(a: set<T>, b: set<T>)
    requires a <= b
    ensures |a| <= |b|
  {
    assert b == a + (b - a);
  }

  /** The store's own validity test of the counters. */
  predicate IsValid(a: Accounting) {
    a.registeredWorkers >= a.liveWorkers && a.liveWorkers >= a.staleWorkers
  }

  /** The test holds exactly while fenced workers are no more than half. */
  lemma AccountingValidity(s: State)
    requires WorkersOk(s)
    ensures IsValid(AccountingOf(s)) <==> 2 * |set w | w in s.workers && s.workers[w].fenced| <= |s.workers|
  {
    hide DevicesIn, CanonicalKey, Sound;
    WorkerCounters(s.workers);
    var fenced := set w | w in s.workers && s.workers[w].fenced;
    assert WorkersWhere(s.workers, false) == fenced;
  }

  /** It fails in every fleet of one worker that has been lost. */
  lemma OneLostWorkerIsInvalid(coordinator: u64, epoch: u64, reg: Registration, now: Timestamp)
    requires reg.epoch == epoch && reg.protocolVersion != 0
    ensures !IsValid(AccountingOf(Run(Initial(coordinator, epoch), [Register(reg, now), MarkLost(reg.worker)])))
  {
    var s := Initial(coordinator, epoch);
    var a := Admit(RecordOf(reg, now), now);
    One(s, a);
    var t := Next(s, a);
    assert Step(s, Register(reg, now)) == t;
    var w := reg.worker;
    var u := Step(t, MarkLost(w));
    assert u.workers == map[w := t.workers[w].(lost := true, alive := false, fenced := true)] by {
      SilenceEnabled(Next(t, Fence(w)), t.workers[w].devices);
      One(t, Fence(w));
      ApplyConcat(t, [Fence(w)], SilenceActions(t.workers[w].devices));
    }
    assert WorkersWhere(u.workers, false) == {w} && WorkersWhere(u.workers, true) == {};
    assert Run(s, [Register(reg, now), MarkLost(w)]) == u by {
      hide Step;
      assert [Register(reg, now), MarkLost(w)][1..] == [MarkLost(w)] && [MarkLost(w)][1..] == [];
      assert Run(t, [MarkLost(w)]) == Run(u, []);
    }
  }
}
