/** What the store holds about a device is the evidence last accepted of it, over every run. */
module Evidence {
  import opened Basics
  import opened Identity
  import opened Device
  import opened Pipeline
  import opened Fleet
  import opened FleetRuns
  import opened FleetBatch
  import opened Sweeping

  // ---- What one accepted observation makes of a device ----

  /** Everything that an observation says about the device itself is stored as it says it. */
  predicate Holds(d: DeviceState, o: Observation) {
    && d.deviceId == o.deviceId && d.generation == o.deviceGeneration && d.identity == o.identity
    && d.totalMemory == o.totalMemory && d.usedMemory == o.usedMemory && d.freeMemory == o.freeMemory
    && d.temperature == o.temperature && d.power == o.power && d.capabilities == o.capabilities
    && d.coreValidationOk == o.coreValidationOk && d.validationDetail == o.validationDetail
    && d.lastObservedAt == o.observedAt && d.observationGeneration == o.observationGeneration
    && d.healthGeneration == o.healthGeneration && d.workerBoot == o.workerBoot
  }

  /** The observation is recent, and not from before the one that the device holds. */
  predicate Timely(o: Observation, heldSince: Timestamp, threshold: int, now: Timestamp) {
    && o.observedAt != 0 && now - o.observedAt <= threshold && (heldSince == 0 || heldSince <= o.observedAt)
  }

  predicate Passed(o: Observation) { o.memoryAllocOk && o.kernelExecOk && o.syncOk && o.d2hOk && o.verifyOk }

  /** Health of a device as an observation of it calls for it. */
  function Diagnosis(o: Observation, wasPresent: bool, timely: bool): HealthState {
    if !o.present then if wasPresent then HealthState.LOST else HealthState.OFFLINE
    else if !o.driverRuntimeOk || !o.cudaInitOk then HealthState.UNHEALTHY
    else if !timely then HealthState.RECOVERING
    else if Passed(o) then HealthState.HEALTHY
    else if o.coreValidationOk then HealthState.RECOVERING
    else HealthState.UNHEALTHY
  }

  // How it is put.

  function LostText(): Text { Ascii("lost: device was present but has disappeared and is not enumerable") }

  function OfflineText(): Text { Ascii("offline: device not enumerable and never previously observed") }

  function DriverText(): Text { Ascii("unhealthy: driver or runtime availability failed") }

  function CudaText(): Text { Ascii("unhealthy: CUDA initialization failed") }

  function StaleText(): Text { Ascii("recovering: last evidence is stale and is not fresh enough to be authoritative") }

  function ProvenText(): Text { Ascii("healthy: enumeration, driver/runtime, and core validation all proven") }

  function UnprovenText(): Text { Ascii("recovering: core validation not currently proven; last validation was OK") }

  function NeverProvenText(): Text { Ascii("unhealthy: core device validation not proven") }

  function Words(o: Observation, wasPresent: bool, timely: bool): Text {
    if !o.present then if wasPresent then LostText() else OfflineText()
    else if !o.driverRuntimeOk then DriverText()
    else if !o.cudaInitOk then CudaText()
    else if !timely then StaleText()
    else if Passed(o) then ProvenText()
    else if o.coreValidationOk then UnprovenText()
    else NeverProvenText()
  }

  /** The architecture and the compute capability are the ones required, as far as any are. */
  predicate Suits(id: DeviceIdentity, policy: Policy) {
    && (policy.requiredArchitecture == [] || id.architecture == policy.requiredArchitecture)
    && (id.computeCapability == ComputeCapability(0, 0) || policy.requiredComputeCapability == ComputeCapability(0, 0)
        || id.computeCapability.major > policy.requiredComputeCapability.major
        || (id.computeCapability.major == policy.requiredComputeCapability.major
            && id.computeCapability.minor >= policy.requiredComputeCapability.minor))
  }

  /** Eligibility of a device as an observation of it, its two axes and the policy call for it. */
  function Admission(o: Observation, drain: DrainState, quarantined: bool, timely: bool, policy: Policy): (Eligibility, seq<Reason>) {
    if quarantined then (Eligibility.QUARANTINED, [Reason.QUARANTINE])
    else if drain != DrainState.ACTIVE then (Eligibility.DRAINING, [Reason.DRAIN_POLICY])
    else if !timely then (Eligibility.STALE, [Reason.STALE_OBSERVATION])
    else if !o.present then (Eligibility.INELIGIBLE, [Reason.DEVICE_DISAPPEARANCE])
    else if !o.driverRuntimeOk || !o.cudaInitOk then (Eligibility.INELIGIBLE, [Reason.CUDA_UNAVAILABLE])
    else if !Suits(o.identity, policy) then (Eligibility.INELIGIBLE, [Reason.ARCHITECTURE_MISMATCH])
    else if o.totalMemory < policy.requiredMemory || o.freeMemory < policy.requiredMemory
    then (Eligibility.INELIGIBLE, [Reason.INSUFFICIENT_MEMORY])
    else if policy.requiredCapabilities != [] then (Eligibility.INELIGIBLE, [Reason.CAPABILITY_MISMATCH])
    else if Passed(o) then (Eligibility.ELIGIBLE, [])
    else if o.coreValidationOk then (Eligibility.STALE, [Reason.STALE_OBSERVATION])
    else (Eligibility.INELIGIBLE, [Reason.HEALTH_FAILURE])
  }

  /** d is what the observation makes of a device that was prior. */
  predicate Updated(prior: DeviceState, d: DeviceState, o: Observation, policy: Policy, now: Timestamp) {
    var timely := Timely(o, prior.lastObservedAt, policy.freshnessThresholdMs, now);
    var (eligibility, reasons) := Admission(o, prior.drain, prior.quarantined, timely, policy);
    && Holds(d, o) && d.present == o.present && d.isFresh == timely
    && d.health == Diagnosis(o, prior.present, timely) && d.healthExplanation == Words(o, prior.present, timely)
    && d.eligibility == eligibility && d.reasons == reasons
    && d.drain == prior.drain && d.quarantined == prior.quarantined && d.quarantine == prior.quarantine
    && d.lastValidatedAt == (if o.coreValidationOk then o.observedAt else prior.lastValidatedAt)
    && d.lastAuthoritativeAt
       == (if eligibility == Eligibility.ELIGIBLE || eligibility == Eligibility.INELIGIBLE then now else prior.lastAuthoritativeAt)
  }

  function Finding(o: Observation, wasPresent: bool, timely: bool): Verdict {
    if !o.present then if wasPresent then Disappeared else NeverSeen
    else if !o.driverRuntimeOk then NoDriver
    else if !o.cudaInitOk then NoCuda
    else if !timely then StaleEvidence
    else if Passed(o) then AllProven
    else if o.coreValidationOk then Unproven
    else NeverProven
  }

  lemma JudgedSo(o: Observation, wasPresent: bool, stale: bool)
    ensures JudgeHealth(SignalsFromProbe(o, wasPresent, stale)) == Finding(o, wasPresent, !stale)
  {
  }

  lemma DisappearedPut()
    ensures Disappeared.Explanation() == LostText()
  {
    hide Ascii, Decimal;
  }

  lemma NeverSeenPut()
    ensures NeverSeen.Explanation() == OfflineText()
  {
    hide Ascii, Decimal;
  }

  lemma NoDriverPut()
    ensures NoDriver.Explanation() == DriverText()
  {
    hide Ascii, Decimal;
  }

  lemma NoCudaPut()
    ensures NoCuda.Explanation() == CudaText()
  {
    hide Ascii, Decimal;
  }

  lemma StaleEvidencePut()
    ensures StaleEvidence.Explanation() == StaleText()
  {
    hide Ascii, Decimal;
  }

  lemma AllProvenPut()
    ensures AllProven.Explanation() == ProvenText()
  {
    hide Ascii, Decimal;
  }

  lemma UnprovenPut()
    ensures Unproven.Explanation() == UnprovenText()
  {
    hide Ascii, Decimal;
  }

  lemma NeverProvenPut()
    ensures NeverProven.Explanation() == NeverProvenText()
  {
    hide Ascii, Decimal;
  }

  lemma FoundSo(o: Observation, wasPresent: bool, timely: bool)
    ensures Finding(o, wasPresent, timely).State() == Diagnosis(o, wasPresent, timely)
    ensures Finding(o, wasPresent, timely).Explanation() == Words(o, wasPresent, timely)
  {
    hide Passed, Verdict.Explanation, LostText, OfflineText, DriverText, CudaText, StaleText,
         ProvenText, UnprovenText, NeverProvenText;
    DisappearedPut();
    NeverSeenPut();
    NoDriverPut();
    NoCudaPut();
    StaleEvidencePut();
    AllProvenPut();
    UnprovenPut();
    NeverProvenPut();
  }

  lemma DiagnosisIs(o: Observation, wasPresent: bool, stale: bool)
    ensures var h := EvaluateHealth(SignalsFromProbe(o, wasPresent, stale));
            h.state == Diagnosis(o, wasPresent, !stale) && h.explanation == Words(o, wasPresent, !stale)
  {
    hide JudgeHealth, SignalsFromProbe, Finding, Diagnosis, Words, Verdict.State, Verdict.Explanation;
    JudgedSo(o, wasPresent, stale);
    FoundSo(o, wasPresent, !stale);
  }

  lemma SuitsIs(id: DeviceIdentity, policy: Policy)
    ensures ArchitectureMatch(id, policy) <==> Suits(id, policy)
  {
  }

  lemma AdmissionIs(o: Observation, drain: DrainState, quarantined: bool, wasPresent: bool, timely: bool, policy: Policy)
    ensures var i := ObservationInput(o, Diagnosis(o, wasPresent, timely), timely, drain, quarantined, policy);
            var r := EvaluateEligibility(i);
            (r.state, r.reasons) == Admission(o, drain, quarantined, timely, policy)
  {
    hide ArchitectureMatch, Suits;
    SuitsIs(o.identity, policy);
  }

  lemma AdmissionStates(o: Observation, drain: DrainState, quarantined: bool, timely: bool, policy: Policy)
    ensures var e := Admission(o, drain, quarantined, timely, policy).0;
            (e == Eligibility.ELIGIBLE || e == Eligibility.INELIGIBLE)
            <==> (timely && e != Eligibility.STALE && e != Eligibility.QUARANTINED && e != Eligibility.DRAINING)
  {
    hide Suits, Passed;
  }

  lemma ApplyUpdates(prior: DeviceState, o: Observation, policy: Policy, now: Timestamp, epoch: u64)
    ensures Updated(prior, ApplyObservation(prior, o, policy, now, epoch).state.(healthGeneration := o.healthGeneration), o, policy, now)
  {
    hide Diff, EvaluateHealth, EvaluateEligibility, SignalsFromProbe, ObservationInput, Diagnosis, Words, Admission;
    var timely := Timely(o, prior.lastObservedAt, policy.freshnessThresholdMs, now);
    assert Fresh(prior, o, policy, now) == timely;
    DiagnosisIs(o, prior.present, !timely);
    AdmissionIs(o, prior.drain, prior.quarantined, prior.present, timely, policy);
    AdmissionStates(o, prior.drain, prior.quarantined, timely, policy);
  }

  /** The state in which a device is before its first observation. */
  predicate Unknown(d: DeviceState) {
    && !d.present && d.lastObservedAt == 0 && d.lastValidatedAt == 0 && d.lastAuthoritativeAt == 0
    && d.deviceId == 0 && d.workerBoot == 0 && !d.isFresh && d.health == HealthState.UNKNOWN
    && d.eligibility == Eligibility.UNKNOWN && d.identity == NO_IDENTITY && d.totalMemory == 0 && d.capabilities == []
    && d.drain == DrainState.ACTIVE && !d.quarantined && d.quarantine == QuarantineRecord([], [], 0, 0, 0, 0)
  }

  lemma BlankUnknown()
    ensures Unknown(BLANK)
  {
  }

  /** One accepted observation: what it makes of its device, known or unknown, and that it touches no other. */
  lemma AcceptEffect(s: State, w: u64, o: Observation, policy: Policy, now: Timestamp, k: Text)
    ensures var t := Next(s, Accept(w, o, policy, now));
            && (k != Key(o) ==> Lookup(t, k) == Lookup(s, k))
            && (k == Key(o) ==>
                  && k in t.devices
                  && (k in s.devices ==> Updated(s.devices[k], t.devices[k], o, policy, now))
                  && (k !in s.devices ==> Unknown(BLANK) && Updated(BLANK, t.devices[k], o, policy, now)))
  {
    hide Next, CanonicalKey, Updated, ApplyObservation;
    AcceptLooksUp(s, w, o, policy, now, k);
    BlankUnknown();
    ApplyUpdates(Prior(s, k), o, policy, now, s.epoch);
  }

  // ---- Over runs ----

  /** The position of the last acceptance of k, or -1. */
  function LastOf(accepts: seq<Acceptance>, k: Text): (i: int)
    ensures -1 <= i < |accepts|
    ensures i >= 0 ==> accepts[i].key == k
    ensures forall j :: i < j < |accepts| ==> accepts[j].key != k
  {
    if accepts == [] then -1
    else if accepts[|accepts| - 1].key == k then |accepts| - 1
    else LastOf(accepts[..|accepts| - 1], k)
  }

  /** The time of the last acceptance of k that carried a passed core validation, or zero. */
  function ValidatedAt(accepts: seq<Acceptance>, k: Text): Timestamp {
    if accepts == [] then 0
    else
      var n := |accepts| - 1;
      if accepts[n].key == k && accepts[n].evidence.coreValidationOk then accepts[n].evidence.observedAt
      else ValidatedAt(accepts[..n], k)
  }

  /** The device is known exactly when an observation of it was accepted, and holds what the last one said. */
  predicate HoldsLast(s: State, k: Text) {
    && (k in s.devices <==> LastOf(s.accepts, k) >= 0)
    && (k in s.devices ==>
          && Holds(s.devices[k], s.accepts[LastOf(s.accepts, k)].evidence)
          && s.devices[k].lastValidatedAt == ValidatedAt(s.accepts, k)
          && (s.devices[k].present ==> s.accepts[LastOf(s.accepts, k)].evidence.present))
  }

  lemma LastSnoc(accepts: seq<Acceptance>, a: Acceptance, k: Text)
    ensures LastOf(accepts + [a], k) == if a.key == k then |accepts| else LastOf(accepts, k)
    ensures ValidatedAt(accepts + [a], k)
            == if a.key == k && a.evidence.coreValidationOk then a.evidence.observedAt else ValidatedAt(accepts, k)
  {
    assert (accepts + [a])[..|accepts|] == accepts;
  }

  predicate SameReport(d: DeviceState, e: DeviceState) {
    && e.deviceId == d.deviceId && e.generation == d.generation && e.identity == d.identity
    && e.totalMemory == d.totalMemory && e.usedMemory == d.usedMemory && e.freeMemory == d.freeMemory
    && e.temperature == d.temperature && e.power == d.power && e.capabilities == d.capabilities
    && e.coreValidationOk == d.coreValidationOk && e.validationDetail == d.validationDetail
    && e.lastObservedAt == d.lastObservedAt && e.observationGeneration == d.observationGeneration
    && e.healthGeneration == d.healthGeneration && e.workerBoot == d.workerBoot
    && e.lastValidatedAt == d.lastValidatedAt && (e.present ==> d.present)
  }

  lemma OthersSameReport(s: State, a: Action, k: Text)
    requires !a.Accept?
    ensures k in Next(s, a).devices <==> k in s.devices
    ensures k in s.devices ==> SameReport(s.devices[k], Next(s, a).devices[k])
  {
    hide Next, EvaluateEligibility;
    if Target(a) == Some(k) {
      TargetDevice(s, a, k);
    } else {
      OtherDevicesUntouched(s, a, k);
    }
  }

  lemma NextHoldsLast(s: State, a: Action, k: Text)
    requires HoldsLast(s, k)
    ensures HoldsLast(Next(s, a), k)
  {
    hide Next, CanonicalKey, Timely, Diagnosis, Words, Admission, Emitted, LastOf, ValidatedAt;
    NextEmits(s, a);
    if a.Accept? {
      AcceptEffect(s, a.worker, a.o, a.policy, a.now, k);
      LastSnoc(s.accepts, AcceptanceOf(a.worker, a.o), k);
      if k !in s.devices {
        NeverValidated(s.accepts, k);
      }
    } else {
      assert s.accepts + [] == s.accepts;
      OthersSameReport(s, a, k);
    }
  }

  lemma {:induction false} NeverValidated(accepts: seq<Acceptance>, k: Text)
    requires LastOf(accepts, k) < 0
    ensures ValidatedAt(accepts, k) == 0
  {
    if accepts != [] {
      NeverValidated(accepts[..|accepts| - 1], k);
    }
  }

  /** Over every run, a device is known exactly when an observation of it was accepted; it holds what the last of them said, and
    * the time of the last one that was validated; and it is not called present unless that one did.
    */
  lemma EvidenceHeld(s: State, ops: seq<Op>, k: Text)
    requires HoldsLast(s, k)
    ensures HoldsLast(Run(s, ops), k)
  {
    hide Next, Enabled, Run, HoldsLast;
    var p := (t: State) => HoldsLast(t, k);
    forall t, a | p(t) && Enabled(t, a) ensures p(Next(t, a)) {
      NextHoldsLast(t, a, k);
    }
    EveryRunKeeps(s, ops, p);
  }

  lemma InitialHoldsLast(coordinator: u64, epoch: u64, k: Text)
    ensures HoldsLast(Initial(coordinator, epoch), k)
  {
  }

  // ---- What a call makes of the devices it renews ----

  /** When the device was last observed before the given acceptance of it, or zero. */
  function HeldSince(before: seq<Acceptance>, k: Text): Timestamp {
    if LastOf(before, k) < 0 then 0 else before[LastOf(before, k)].evidence.observedAt
  }

  /** Whether the device was present when the given acceptance of it came, in a call made in s. */
  predicate WasPresent(s: State, before: seq<Acceptance>, k: Text) {
    if LastOf(before, k) >= |s.accepts| then before[LastOf(before, k)].evidence.present
    else k in s.devices && s.devices[k].present
  }

  function DrainIn(s: State, k: Text): DrainState { if k in s.devices then s.devices[k].drain else DrainState.ACTIVE }

  predicate HeldIn(s: State, k: Text) { k in s.devices && s.devices[k].quarantined }

  /** The device is as the last acceptance of it in a call made in s calls for. */
  predicate AsLastAccepted(s: State, t: State, policy: Policy, now: Timestamp, k: Text) {
    var j := LastOf(t.accepts, k);
    && j >= 0 && k in t.devices
    && var o, before := t.accepts[j].evidence, t.accepts[..j];
       var timely := Timely(o, HeldSince(before, k), policy.freshnessThresholdMs, now);
       var d := t.devices[k];
       && Holds(d, o) && d.present == o.present && d.isFresh == timely
       && d.health == Diagnosis(o, WasPresent(s, before, k), timely)
       && d.healthExplanation == Words(o, WasPresent(s, before, k), timely)
       && (d.eligibility, d.reasons) == Admission(o, DrainIn(s, k), HeldIn(s, k), timely, policy)
       && d.drain == DrainIn(s, k) && d.quarantined == HeldIn(s, k)
       && d.lastValidatedAt == ValidatedAt(t.accepts, k)
       && (d.eligibility == Eligibility.ELIGIBLE || d.eligibility == Eligibility.INELIGIBLE ==> d.lastAuthoritativeAt == now)
  }

  /** What holds of k while a batch is taken in. */
  predicate Underway(s: State, u: State, policy: Policy, now: Timestamp, k: Text) {
    && s.accepts <= u.accepts && HoldsLast(u, k)
    && (if LastOf(u.accepts, k) >= |s.accepts| then AsLastAccepted(s, u, policy, now, k)
        else LastOf(u.accepts, k) == LastOf(s.accepts, k) && Lookup(u, k) == Lookup(s, k))
  }

  lemma PriorAxes(s: State, u: State, policy: Policy, now: Timestamp, k: Text)
    requires Underway(s, u, policy, now, k)
    ensures Prior(u, k).drain == DrainIn(s, k) && Prior(u, k).quarantined == HeldIn(s, k)
    ensures Prior(u, k).present == WasPresent(s, u.accepts, k)
    ensures Prior(u, k).lastObservedAt == HeldSince(u.accepts, k)
    ensures Prior(u, k).lastValidatedAt == ValidatedAt(u.accepts, k)
  {
    hide Timely, Diagnosis, Words, Admission, ValidatedAt, LastOf;
    if k !in u.devices {
      NeverValidated(u.accepts, k);
    }
  }

  lemma AcceptUnderway(s: State, u: State, a: Action, k: Text)
    requires a.Accept? && Underway(s, u, a.policy, a.now, k)
    ensures Underway(s, Next(u, a), a.policy, a.now, k)
  {
    hide Next, CanonicalKey, Timely, Diagnosis, Words, Admission, Emitted, LastOf, ValidatedAt, HeldSince, WasPresent, Holds;
    var v := Next(u, a);
    NextEmits(u, a);
    AcceptEffect(u, a.worker, a.o, a.policy, a.now, k);
    LastSnoc(u.accepts, AcceptanceOf(a.worker, a.o), k);
    NextHoldsLast(u, a, k);
    assert v.accepts[..|u.accepts|] == u.accepts;
    if k == Key(a.o) {
      PriorAxes(s, u, a.policy, a.now, k);
    } else {
      var j := LastOf(u.accepts, k);
      assert j >= 0 ==> v.accepts[..j] == u.accepts[..j];
    }
  }

  lemma TakenUnderway(s: State, w: u64, obs: seq<Observation>, policy: Policy, now: Timestamp, k: Text)
    requires w in s.workers && !s.workers[w].lost && !s.workers[w].fenced && HoldsLast(s, k)
    ensures Underway(s, ApplyAll(s, TakeAll(s, w, obs, policy, now, NOTHING_APPLIED).actions), policy, now, k)
  {
    hide TakeAll, Next, Enabled, CanonicalKey, Underway, HoldsLast;
    var acts := TakeAll(s, w, obs, policy, now, NOTHING_APPLIED).actions;
    var p := (u: State) => Underway(s, u, policy, now, k);
    var ok := (u: State, a: Action) => a.Accept? && a.policy == policy && a.now == now;
    TakeAllEnabled(s, w, obs, policy, now, NOTHING_APPLIED);
    TakeAllFrom(s, w, obs, policy, now, NOTHING_APPLIED);
    AlwaysOk(s, acts, ok);
    NotYetUnderway(s, policy, now, k);
    forall u, a | p(u) && Enabled(u, a) && ok(u, a) ensures p(Next(u, a)) {
      AcceptUnderway(s, u, a, k);
    }
    ActionsKeep(s, acts, p, ok);
  }

  lemma NotYetUnderway(s: State, policy: Policy, now: Timestamp, k: Text)
    requires HoldsLast(s, k)
    ensures Underway(s, s, policy, now, k)
  {
    hide HoldsLast, AsLastAccepted;
  }

  lemma AcceptedLast(s: State, t: State, k: Text)
    requires AcceptedIn(s, t, k)
    ensures LastOf(t.accepts, k) >= |s.accepts|
  {
  }

  /** The parts of a batch that is refused, or that nobody was allowed to send. */
  lemma RefusedParts(s: State, w: u64, obs: seq<Observation>, policy: Policy, now: Timestamp)
    requires !Succeeds(s, w, obs, policy, now)
    ensures var t := Step(s, Ingest(w, obs, policy, now));
            if w in s.workers && !s.workers[w].lost && !s.workers[w].fenced
            then t == ApplyAll(s, TakeAll(s, w, obs, policy, now, NOTHING_APPLIED).actions) else t == s
  {
    hide TakeAll, SweepActions, Next;
  }

  /** Over every call of every run, whether the batch is taken to its end or refused on the way: a device that the call has
    * accepted an observation of is as the last of them calls for. In particular it is fresh exactly when that was taken at a
    * set time, within the threshold, and not before the last accepted observation of the device with a time set.
    */
  lemma CallRenews(s: State, w: u64, obs: seq<Observation>, policy: Policy, now: Timestamp, k: Text)
    requires HoldsLast(s, k) && AcceptedIn(s, Step(s, Ingest(w, obs, policy, now)), k)
    ensures AsLastAccepted(s, Step(s, Ingest(w, obs, policy, now)), policy, now, k)
  {
    hide TakeAll, ApplyAll, SweepActions, Next, Step, Succeeds, HoldsLast, AsLastAccepted, AcceptedIn, LastOf;
    var t := Step(s, Ingest(w, obs, policy, now));
    AcceptedLast(s, t, k);
    if Succeeds(s, w, obs, policy, now) {
      SuccessMeans(s, w, obs, policy, now);
      TakenUnderway(s, w, obs, policy, now, k);
      BatchParts(s, w, obs, policy, now);
      StepAccepts(s, w, obs, policy, now, k);
      var taken := TakeAll(s, w, obs, policy, now, NOTHING_APPLIED);
      var u := ApplyAll(s, taken.actions);
      var v := ApplyAll(u, SweepActions(u.workers[w].devices, taken.seen, now));
      SweepEffect(u, u.workers[w].devices, taken.seen, now, k);
      BeatOnly(v, w, now);
      SameView(s, u, t, policy, now, k);
    } else {
      RefusedParts(s, w, obs, policy, now);
      if w in s.workers && !s.workers[w].lost && !s.workers[w].fenced {
        TakenUnderway(s, w, obs, policy, now, k);
      }
    }
  }

  lemma SameView(s: State, u: State, t: State, policy: Policy, now: Timestamp, k: Text)
    requires Underway(s, u, policy, now, k) && LastOf(t.accepts, k) >= |s.accepts|
    requires t.accepts == u.accepts && Lookup(t, k) == Lookup(u, k)
    ensures AsLastAccepted(s, t, policy, now, k)
  {
    hide Timely, Diagnosis, Words, Admission, ValidatedAt, LastOf, HeldSince, WasPresent, Holds, HoldsLast;
  }
}
