/** The observation pipeline: what applying one observation makes of a device, and the changes it reports. */
module Pipeline {
  import opened Basics
  import opened Identity
  import opened Device

  newtype ChangeKind = x: int | 0 <= x < 256 {
    static const DEVICE_APPEARED: ChangeKind := 1
    static const DEVICE_DISAPPEARED: ChangeKind := 2
    static const IDENTITY_CHANGED: ChangeKind := 3
    static const DRIVER_RUNTIME_CHANGED: ChangeKind := 4
    static const MEMORY_CAPACITY_CHANGED: ChangeKind := 5
    static const HEALTH_CHANGED: ChangeKind := 6
    static const CAPABILITY_CHANGED: ChangeKind := 7
    static const ELIGIBILITY_CHANGED: ChangeKind := 8
    static const WORKER_RESTARTED: ChangeKind := 9
    static const OBSERVATION_STALE: ChangeKind := 10
    static const DRAIN_INITIATED: ChangeKind := 11
    static const DRAIN_COMPLETED: ChangeKind := 12
    static const QUARANTINE_APPLIED: ChangeKind := 13
    static const QUARANTINE_CLEARED: ChangeKind := 14
  }

  /** A change that only an administrator can cause. */
  predicate Administrative(k: ChangeKind) { ChangeKind.DRAIN_INITIATED <= k <= ChangeKind.QUARANTINE_CLEARED }

  datatype ChangeRecord = ChangeRecord(
    kind: ChangeKind, deviceId: u64, at: Timestamp, generation: u64, epoch: u64, detail: Text, from: Text, to: Text)

  // ---- Change detection ----

  function CapabilitiesKey(cs: seq<Capability>): Text {
    if cs == [] then [] else
      var c := cs[|cs| - 1];
      CapabilitiesKey(cs[..|cs| - 1]) + c.name + Ascii("=") + c.value + Ascii(";")
  }

  /** Whether two states differ on the axis that a kind of change reports. */
  predicate Changed(k: ChangeKind, p: DeviceState, c: DeviceState) {
    if k == ChangeKind.DEVICE_APPEARED then !p.present && c.present
    else if k == ChangeKind.DEVICE_DISAPPEARED then p.present && !c.present
    else if k == ChangeKind.IDENTITY_CHANGED then p.identity != c.identity
    else if k == ChangeKind.DRIVER_RUNTIME_CHANGED then p.identity.driverVersion != c.identity.driverVersion
    else if k == ChangeKind.MEMORY_CAPACITY_CHANGED then p.totalMemory != c.totalMemory && c.totalMemory != 0
    else if k == ChangeKind.HEALTH_CHANGED then p.health != c.health
    else if k == ChangeKind.CAPABILITY_CHANGED then CapabilitiesKey(p.capabilities) != CapabilitiesKey(c.capabilities)
    else if k == ChangeKind.ELIGIBILITY_CHANGED then p.eligibility != c.eligibility
    else if k == ChangeKind.WORKER_RESTARTED then p.workerBoot != c.workerBoot
    else if k == ChangeKind.OBSERVATION_STALE then p.isFresh && !c.isFresh
    else if k == ChangeKind.DRAIN_INITIATED then p.drain == DrainState.ACTIVE && c.drain != DrainState.ACTIVE
    else if k == ChangeKind.DRAIN_COMPLETED then p.drain == DrainState.DRAINING && c.drain == DrainState.DRAINED
    else if k == ChangeKind.QUARANTINE_APPLIED then !p.quarantined && c.quarantined
    else if k == ChangeKind.QUARANTINE_CLEARED then p.quarantined && !c.quarantined
    else false
  }

  function Detail(k: ChangeKind): Text {
    Ascii(if k == ChangeKind.DEVICE_APPEARED then "device became present"
          else if k == ChangeKind.DEVICE_DISAPPEARED then "device became absent"
          else if k == ChangeKind.IDENTITY_CHANGED then "device identity changed"
          else if k == ChangeKind.DRIVER_RUNTIME_CHANGED then "driver/runtime changed"
          else if k == ChangeKind.MEMORY_CAPACITY_CHANGED then "memory capacity changed"
          else if k == ChangeKind.HEALTH_CHANGED then "health changed"
          else if k == ChangeKind.CAPABILITY_CHANGED then "capability set changed"
          else if k == ChangeKind.ELIGIBILITY_CHANGED then "eligibility changed"
          else if k == ChangeKind.WORKER_RESTARTED then "source worker incarnation changed"
          else if k == ChangeKind.OBSERVATION_STALE then "observation became stale"
          else if k == ChangeKind.DRAIN_INITIATED then "drain initiated"
          else if k == ChangeKind.DRAIN_COMPLETED then "drain completed"
          else if k == ChangeKind.QUARANTINE_APPLIED then "quarantine applied"
          else "quarantine cleared")
  }

  /** How a state prints on the axis that a kind of change reports. */
  function Shown(k: ChangeKind, d: DeviceState): Text {
    if k == ChangeKind.DEVICE_APPEARED || k == ChangeKind.DEVICE_DISAPPEARED then
      Ascii(if d.present then "present" else "absent")
    else if k == ChangeKind.IDENTITY_CHANGED then d.identity.uuid
    else if k == ChangeKind.DRIVER_RUNTIME_CHANGED then d.identity.driverVersion
    else if k == ChangeKind.MEMORY_CAPACITY_CHANGED then Decimal(d.totalMemory)
    else if k == ChangeKind.HEALTH_CHANGED then HealthName(d.health)
    else if k == ChangeKind.CAPABILITY_CHANGED then CapabilitiesKey(d.capabilities)
    else if k == ChangeKind.ELIGIBILITY_CHANGED then EligibilityName(d.eligibility)
    else if k == ChangeKind.WORKER_RESTARTED then Decimal(d.workerBoot)
    else if k == ChangeKind.OBSERVATION_STALE then Ascii(if d.isFresh then "fresh" else "stale")
    else if k == ChangeKind.DRAIN_INITIATED || k == ChangeKind.DRAIN_COMPLETED then DrainName(d.drain)
    else Ascii(if d.quarantined then "true" else "false")
  }

  /** The changes of kind k and later, in the order of their kinds. */
  function DiffFrom(k: nat, p: DeviceState, c: DeviceState, at: Timestamp, gen: u64, epoch: u64): seq<ChangeRecord>
    requires 1 <= k
    decreases 15 - k, p
  {
    if k > 14 then [] else
      var kind := k as ChangeKind;
      var rest := DiffFrom(k + 1, p, c, at, gen, epoch);
      if Changed(kind, p, c) then
        [ChangeRecord(kind, c.deviceId, at, gen, epoch, Detail(kind), Shown(kind, p), Shown(kind, c))] + rest
      else rest
  }

  /** The changes from prior to cand, one record per changed axis. */
  function Diff(prior: DeviceState, cand: DeviceState, at: Timestamp, gen: u64, epoch: u64): seq<ChangeRecord> {
    DiffFrom(1, prior, cand, at, gen, epoch)
  }

  /** The one record by which a kind of change is reported. */
  function RecordFor(k: ChangeKind, p: DeviceState, c: DeviceState, at: Timestamp, gen: u64, epoch: u64): ChangeRecord {
    ChangeRecord(k, c.deviceId, at, gen, epoch, Detail(k), Shown(k, p), Shown(k, c))
  }

  lemma DiffStep(k: nat, p: DeviceState, c: DeviceState, at: Timestamp, gen: u64, epoch: u64)
    requires 1 <= k <= 14
    ensures var kind := k as ChangeKind;
            DiffFrom(k, p, c, at, gen, epoch)
            == (if Changed(kind, p, c) then [RecordFor(kind, p, c, at, gen, epoch)] else []) + DiffFrom(k + 1, p, c, at, gen, epoch)
  {
    hide Detail, Shown, Changed;
    assert [] + DiffFrom(k + 1, p, c, at, gen, epoch) == DiffFrom(k + 1, p, c, at, gen, epoch);
  }

  /** Appends the record of one kind of change when its axis has changed. */
  method PushChange(out: seq<ChangeRecord>, k: ChangeKind, changed: bool, p: DeviceState, c: DeviceState, at: Timestamp,
                    gen: u64, epoch: u64)
    returns (r: seq<ChangeRecord>)
    requires 1 <= k <= 14 && changed == Changed(k, p, c)
    ensures r + DiffFrom(k as nat + 1, p, c, at, gen, epoch) == out + DiffFrom(k as nat, p, c, at, gen, epoch)
  {
    hide Changed, DiffFrom, RecordFor;
    DiffStep(k as nat, p, c, at, gen, epoch);
    r := out;
    if changed {
      r := r + [RecordFor(k, p, c, at, gen, epoch)];
    }
  }

  /** The capability axis compares the printed lists. */
  method CapabilitiesDiffer(p: DeviceState, c: DeviceState) returns (differ: bool)
    ensures differ == Changed(ChangeKind.CAPABILITY_CHANGED, p, c)
  {
    hide CapabilitiesKey;
    var was := ComputeCapabilitiesKey(p.capabilities);
    var is_ := ComputeCapabilitiesKey(c.capabilities);
    differ := was != is_;
  }

  /** The axes up to capabilities, one after another, each pushing its record. */
  method DiffEvidence(p: DeviceState, c: DeviceState, at: Timestamp, gen: u64, epoch: u64) returns (out: seq<ChangeRecord>)
    ensures out + DiffFrom(8, p, c, at, gen, epoch) == [] + DiffFrom(1, p, c, at, gen, epoch)
  {
    hide DiffFrom, CapabilitiesKey;
    out := [];
    out := PushChange(out, ChangeKind.DEVICE_APPEARED, !p.present && c.present, p, c, at, gen, epoch);
    out := PushChange(out, ChangeKind.DEVICE_DISAPPEARED, p.present && !c.present, p, c, at, gen, epoch);
    out := PushChange(out, ChangeKind.IDENTITY_CHANGED, p.identity != c.identity, p, c, at, gen, epoch);
    out := PushChange(out, ChangeKind.DRIVER_RUNTIME_CHANGED, p.identity.driverVersion != c.identity.driverVersion, p, c,
                      at, gen, epoch);
    out := PushChange(out, ChangeKind.MEMORY_CAPACITY_CHANGED, p.totalMemory != c.totalMemory && c.totalMemory != 0, p, c,
                      at, gen, epoch);
    out := PushChange(out, ChangeKind.HEALTH_CHANGED, p.health != c.health, p, c, at, gen, epoch);
    var differ := CapabilitiesDiffer(p, c);
    out := PushChange(out, ChangeKind.CAPABILITY_CHANGED, differ, p, c, at, gen, epoch);
  }

  /** All axes: those of the evidence, then eligibility, incarnation, freshness and administration. */
  method ComputeDiff(p: DeviceState, c: DeviceState, at: Timestamp, gen: u64, epoch: u64) returns (out: seq<ChangeRecord>)
    ensures out == Diff(p, c, at, gen, epoch)
  {
    hide DiffFrom, CapabilitiesKey;
    out := DiffEvidence(p, c, at, gen, epoch);
    out := PushChange(out, ChangeKind.ELIGIBILITY_CHANGED, p.eligibility != c.eligibility, p, c, at, gen, epoch);
    out := PushChange(out, ChangeKind.WORKER_RESTARTED, p.workerBoot != c.workerBoot, p, c, at, gen, epoch);
    out := PushChange(out, ChangeKind.OBSERVATION_STALE, p.isFresh && !c.isFresh, p, c, at, gen, epoch);
    out := PushChange(out, ChangeKind.DRAIN_INITIATED, p.drain == DrainState.ACTIVE && c.drain != DrainState.ACTIVE, p, c,
                      at, gen, epoch);
    out := PushChange(out, ChangeKind.DRAIN_COMPLETED, p.drain == DrainState.DRAINING && c.drain == DrainState.DRAINED, p, c,
                      at, gen, epoch);
    out := PushChange(out, ChangeKind.QUARANTINE_APPLIED, !p.quarantined && c.quarantined, p, c, at, gen, epoch);
    out := PushChange(out, ChangeKind.QUARANTINE_CLEARED, p.quarantined && !c.quarantined, p, c, at, gen, epoch);
    NoFurtherKinds(p, c, at, gen, epoch);
    assert out + [] == out && [] + DiffFrom(1, p, c, at, gen, epoch) == DiffFrom(1, p, c, at, gen, epoch);
  }

  lemma NoFurtherKinds(p: DeviceState, c: DeviceState, at: Timestamp, gen: u64, epoch: u64)
    ensures DiffFrom(15, p, c, at, gen, epoch) == []
  {
  }

  lemma {:induction false} DiffFromExact(k: nat, p: DeviceState, c: DeviceState, at: Timestamp, gen: u64, epoch: u64)
    requires 1 <= k
    ensures var d := DiffFrom(k, p, c, at, gen, epoch);
            && (forall i, j :: 0 <= i < j < |d| ==> d[i].kind < d[j].kind)
            && (forall r :: r in d ==>
                  k <= r.kind as nat <= 14 && Changed(r.kind, p, c) && r == RecordFor(r.kind, p, c, at, gen, epoch))
            && (forall kind :: k <= kind as nat <= 14 && Changed(kind, p, c) ==>
                  RecordFor(kind, p, c, at, gen, epoch) in d)
    decreases 15 - k
  {
    hide Changed, RecordFor, DiffFrom;
    if k <= 14 {
      assert RecordFor(k as ChangeKind, p, c, at, gen, epoch).kind == k as ChangeKind by { KindOf(k as ChangeKind, p, c, at, gen, epoch); }
      DiffStep(k, p, c, at, gen, epoch);
      DiffFromExact(k + 1, p, c, at, gen, epoch);
    } else {
      NothingBeyond(k, p, c, at, gen, epoch);
    }
  }

  lemma KindOf(k: ChangeKind, p: DeviceState, c: DeviceState, at: Timestamp, gen: u64, epoch: u64)
    ensures RecordFor(k, p, c, at, gen, epoch).kind == k
  {
  }

  lemma NothingBeyond(k: nat, p: DeviceState, c: DeviceState, at: Timestamp, gen: u64, epoch: u64)
    requires k > 14
    ensures DiffFrom(k, p, c, at, gen, epoch) == []
  {
  }

  lemma Unchanged(p: DeviceState)
    ensures forall kind :: !Changed(kind, p, p)
  {
  }

  /** The changes reported are exactly the axes that changed, each once, in the order of their kinds; between equal
    * states there are none.
    */
  lemma DiffExact(p: DeviceState, c: DeviceState, at: Timestamp, gen: u64, epoch: u64)
    ensures var d := Diff(p, c, at, gen, epoch);
            && (forall i, j :: 0 <= i < j < |d| ==> d[i].kind < d[j].kind)
            && (forall kind :: 1 <= kind <= 14 ==> (Changed(kind, p, c) <==> exists r :: r in d && r.kind == kind))
            && (forall r :: r in d ==> r == RecordFor(r.kind, p, c, at, gen, epoch))
            && (p == c ==> d == [])
  {
    hide RecordFor, DiffFrom, CapabilitiesKey;
    DiffFromExact(1, p, c, at, gen, epoch);
    var d := Diff(p, c, at, gen, epoch);
    forall kind: ChangeKind | 1 <= kind <= 14 && Changed(kind, p, c) ensures exists r :: r in d && r.kind == kind {
      KindOf(kind, p, c, at, gen, epoch);
      assert RecordFor(kind, p, c, at, gen, epoch) in d;
    }
    assert d != [] ==> d[0] in d && Changed(d[0].kind, p, c);
    Unchanged(p);
  }

  method ComputeCapabilitiesKey(cs: seq<Capability>) returns (s: Text)
    ensures s == CapabilitiesKey(cs)
  {
    s := [];
    for i := 0 to |cs|
      invariant s == CapabilitiesKey(cs[..i])
    {
      assert cs[..i + 1][..i] == cs[..i];
      s := s + cs[i].name + Ascii("=") + cs[i].value + Ascii(";");
    }
    assert cs[..|cs|] == cs;
  }

  // ---- Applying an observation ----

  datatype Policy = Policy(
    freshnessThresholdMs: i64, requiredArchitecture: Text, requiredComputeCapability: ComputeCapability,
    requiredMemory: u64, requireCoreValidation: bool, requiredCapabilities: seq<Text>)

  datatype Applied = Applied(
    state: DeviceState, changes: seq<ChangeRecord>, eligibility: EligibilityResult, isFresh: bool, accepted: bool)

  const NOTHING_APPLIED: Applied := Applied(BLANK, [], EligibilityResult(Eligibility.UNKNOWN, []), false, false)

  predicate Fresh(prior: DeviceState, o: Observation, policy: Policy, now: Timestamp) {
    && o.observedAt != NO_TIME
    && now - o.observedAt <= policy.freshnessThresholdMs
    && (o.observedAt >= prior.lastObservedAt || prior.lastObservedAt == NO_TIME)
  }

  function SignalsFromProbe(o: Observation, wasKnown: bool, stale: bool): HealthSignals {
    HealthSignals(o.enumerated, o.present, wasKnown, o.driverRuntimeOk, o.cudaInitOk, o.memoryAllocOk,
                  o.kernelExecOk, o.syncOk, o.d2hOk && o.verifyOk, false, true, true,
                  if o.coreValidationOk then 0 else 1, stale, false, false, false, o.coreValidationOk, 3)
  }

  predicate ArchitectureMatch(id: DeviceIdentity, policy: Policy) {
    var none := ComputeCapability(0, 0);
    && (policy.requiredArchitecture == [] || id.architecture == policy.requiredArchitecture)
    && (id.computeCapability != none && policy.requiredComputeCapability != none ==>
          id.computeCapability.AtLeast(policy.requiredComputeCapability))
  }

  /** The flag starts as "nothing is required"; meeting a requirement never sets it, missing one clears it. */
  predicate CapabilityMatch(required: seq<Text>, cs: seq<Capability>) {
    required == []
  }

  function ObservationInput(o: Observation, health: HealthState, isFresh: bool, drain: DrainState,
                            quarantined: bool, policy: Policy): EligibilityInput
  {
    EligibilityInput(health, isFresh, o.deviceGeneration, o.deviceGeneration, ArchitectureMatch(o.identity, policy),
                     o.totalMemory >= policy.requiredMemory, true, o.driverRuntimeOk && o.cudaInitOk,
                     CapabilityMatch(policy.requiredCapabilities, o.capabilities), drain != DrainState.ACTIVE,
                     quarantined, true, o.present, false, policy.requiredMemory, o.freeMemory)
  }

  function ApplyObservation(prior: DeviceState, o: Observation, policy: Policy, now: Timestamp, epoch: u64): Applied {
    var isFresh := Fresh(prior, o, policy, now);
    var health := EvaluateHealth(SignalsFromProbe(o, prior.present, !isFresh));
    var elig := EvaluateEligibility(ObservationInput(o, health.state, isFresh, prior.drain, prior.quarantined, policy));
    var authoritative := isFresh && elig.state != Eligibility.STALE && elig.state != Eligibility.QUARANTINED
                         && elig.state != Eligibility.DRAINING;
    var cand := DeviceState(
      o.deviceId, o.deviceGeneration, o.identity, o.present, health.state, health.explanation,
      elig.state, elig.reasons, prior.drain, prior.quarantined, prior.quarantine,
      o.totalMemory, o.usedMemory, o.freeMemory, o.temperature, o.power, o.capabilities,
      o.coreValidationOk, o.validationDetail, o.observedAt,
      if o.coreValidationOk then o.observedAt else prior.lastValidatedAt,
      if authoritative then now else prior.lastAuthoritativeAt,
      o.observationGeneration, 0, o.workerBoot, isFresh);
    Applied(cand, Diff(prior, cand, o.observedAt, o.deviceGeneration, epoch), elig, isFresh, true)
  }

  method ComputeCapabilityMatch(required: seq<Text>, cs: seq<Capability>) returns (match_: bool)
    ensures match_ == CapabilityMatch(required, cs)
  {
    match_ := required == [];
    for i := 0 to |required|
      invariant match_ == (required == [])
    {
      var has := false;
      for j := 0 to |cs| {
        if cs[j].name == required[i] && cs[j].kind != CapabilityKind.UNKNOWN {
          has := true;
          break;
        }
      }
      if !has {
        match_ := false;
        break;
      }
    }
  }

  method ComputeArchitectureMatch(id: DeviceIdentity, policy: Policy) returns (match_: bool)
    ensures match_ == ArchitectureMatch(id, policy)
  {
    match_ := policy.requiredArchitecture == [] || id.architecture == policy.requiredArchitecture;
    if id.computeCapability != ComputeCapability(0, 0) && policy.requiredComputeCapability != ComputeCapability(0, 0) {
      match_ := match_ && id.computeCapability.AtLeast(policy.requiredComputeCapability);
    }
  }

  /** Eligibility of one observation, its input filled field by field. */
  method ComputeEligibility(o: Observation, health: HealthState, isFresh: bool, drain: DrainState, quarantined: bool,
                            policy: Policy)
    returns (elig: EligibilityResult)
    ensures elig == EvaluateEligibility(ObservationInput(o, health, isFresh, drain, quarantined, policy))
  {
    hide EvaluateEligibility, ArchitectureMatch, CapabilityMatch;
    var architecture := ComputeArchitectureMatch(o.identity, policy);
    var capability := ComputeCapabilityMatch(policy.requiredCapabilities, o.capabilities);
    elig := EvaluateEligibility(EligibilityInput(
      health, isFresh, o.deviceGeneration, o.deviceGeneration, architecture,
      o.totalMemory >= policy.requiredMemory, true, o.driverRuntimeOk && o.cudaInitOk, capability,
      drain != DrainState.ACTIVE, quarantined, true, o.present, false, policy.requiredMemory, o.freeMemory));
  }

  method ComputeObservation(prior: DeviceState, o: Observation, policy: Policy, now: Timestamp, epoch: u64)
    returns (out: Applied)
    ensures out == ApplyObservation(prior, o, policy, now, epoch)
  {
    hide EvaluateHealth, EvaluateEligibility, Diff, SignalsFromProbe, ObservationInput;
    var isFresh := o.observedAt != NO_TIME && now - o.observedAt <= policy.freshnessThresholdMs
                   && (o.observedAt >= prior.lastObservedAt || prior.lastObservedAt == NO_TIME);
    var health := EvaluateHealth(SignalsFromProbe(o, prior.present, !isFresh));
    var elig := ComputeEligibility(o, health.state, isFresh, prior.drain, prior.quarantined, policy);
    var lastValidatedAt := prior.lastValidatedAt;
    if o.coreValidationOk {
      lastValidatedAt := o.observedAt;
    }
    var lastAuthoritativeAt := prior.lastAuthoritativeAt;
    if isFresh && elig.state != Eligibility.STALE && elig.state != Eligibility.QUARANTINED
       && elig.state != Eligibility.DRAINING {
      lastAuthoritativeAt := now;
    }
    var cand := DeviceState(
      o.deviceId, o.deviceGeneration, o.identity, o.present, health.state, health.explanation,
      elig.state, elig.reasons, prior.drain, prior.quarantined, prior.quarantine,
      o.totalMemory, o.usedMemory, o.freeMemory, o.temperature, o.power, o.capabilities,
      o.coreValidationOk, o.validationDetail, o.observedAt, lastValidatedAt, lastAuthoritativeAt,
      o.observationGeneration, 0, o.workerBoot, isFresh);
    var changes := ComputeDiff(prior, cand, o.observedAt, cand.generation, epoch);
    out := Applied(cand, changes, elig, isFresh, true);
  }

  // ---- What the evaluations mean ----

  /** The evidence an observation has to carry for the device to be called healthy. */
  predicate Proven(o: Observation) {
    && o.present && o.driverRuntimeOk && o.cudaInitOk && o.memoryAllocOk && o.kernelExecOk && o.syncOk
    && o.d2hOk && o.verifyOk
  }

  predicate Meets(o: Observation, policy: Policy) {
    && ArchitectureMatch(o.identity, policy)
    && o.totalMemory >= policy.requiredMemory && o.freeMemory >= policy.requiredMemory
  }

  lemma JudgeExact(s: HealthSignals)
    ensures JudgeHealth(s).AllProven?
            <==> (&& !s.quarantined && !s.explicitlyDrained && s.devicePresent && !s.fatalError && s.driverRuntimeOk
                  && s.cudaInitOk && s.consecutiveFailures < s.failureThreshold && !s.observationStale
                  && s.memoryAllocOk && s.kernelExecOk && s.syncOk && s.memRoundtripOk
                  && s.temperatureWithinLimits && s.powerWithinLimits)
    ensures JudgeHealth(s).OutsideLimits? ==> !s.temperatureWithinLimits || !s.powerWithinLimits
  {
  }

  /** When health comes out as healthy; with no limit reported as violated it never comes out as degraded. */
  lemma HealthExact(s: HealthSignals)
    ensures EvaluateHealth(s).state == HealthState.HEALTHY
            <==> (&& !s.quarantined && !s.explicitlyDrained && s.devicePresent && !s.fatalError && s.driverRuntimeOk
                  && s.cudaInitOk && s.consecutiveFailures < s.failureThreshold && !s.observationStale
                  && s.memoryAllocOk && s.kernelExecOk && s.syncOk && s.memRoundtripOk
                  && s.temperatureWithinLimits && s.powerWithinLimits)
    ensures s.temperatureWithinLimits && s.powerWithinLimits ==> EvaluateHealth(s).state != HealthState.DEGRADED
  {
    hide JudgeHealth, Ascii;
    JudgeExact(s);
  }

  /** When an evaluation comes out as eligible, that every other outcome is explained, and where degradation comes from. */
  lemma EligibilityExact(i: EligibilityInput)
    ensures EvaluateEligibility(i).state == Eligibility.ELIGIBLE
            <==> (&& !i.quarantine && !i.drainActive && !i.workerRestarted && i.workerAlive
                  && i.observedGeneration == i.currentGeneration && i.observationFresh && i.devicePresent
                  && i.cudaAvailable && i.driverMatch && i.architectureMatch && i.sufficientMemory
                  && i.availableMemory >= i.requiredMemory && i.capabilityMatch
                  && i.health == HealthState.HEALTHY)
    ensures EvaluateEligibility(i).reasons == [] <==> EvaluateEligibility(i).state == Eligibility.ELIGIBLE
    ensures |EvaluateEligibility(i).reasons| <= 1
    ensures EvaluateEligibility(i).state == Eligibility.DEGRADED_ELIGIBLE ==> i.health == HealthState.DEGRADED
  {
  }

  predicate Unmanaged(s: HealthSignals) { !s.quarantined && !s.explicitlyDrained }

  predicate Running(s: HealthSignals) {
    && Unmanaged(s) && s.devicePresent && !s.fatalError && s.driverRuntimeOk && s.cudaInitOk
    && s.consecutiveFailures < s.failureThreshold
  }

  predicate CoreProven(s: HealthSignals) { s.memoryAllocOk && s.kernelExecOk && s.syncOk && s.memRoundtripOk }

  lemma JudgeClassified(s: HealthSignals)
    ensures var v := JudgeHealth(s);
            && (v.Fenced? <==> s.quarantined)
            && (v.DrainingWithWork? <==> !s.quarantined && s.explicitlyDrained && s.inflightWorkRemaining)
            && (v.DrainedOfWork? <==> !s.quarantined && s.explicitlyDrained && !s.inflightWorkRemaining)
            && (v.NeverSeen? <==> Unmanaged(s) && !s.devicePresent && !s.wasKnown)
            && (v.Disappeared? <==> Unmanaged(s) && !s.devicePresent && s.wasKnown)
            && (v.Fatal? || v.NoDriver? || v.NoCuda? || v.Failing? <==> Unmanaged(s) && s.devicePresent && !Running(s))
            && (v.StaleEvidence? <==> Running(s) && s.observationStale)
            && (v.Unproven? <==> Running(s) && !s.observationStale && !CoreProven(s) && s.lastValidationOk)
            && (v.NeverProven? <==> Running(s) && !s.observationStale && !CoreProven(s) && !s.lastValidationOk)
            && (v.OutsideLimits? <==> Running(s) && !s.observationStale && CoreProven(s)
                                      && !(s.temperatureWithinLimits && s.powerWithinLimits))
  {
  }

  lemma VerdictStates(v: Verdict)
    ensures var h := v.State();
            && (h == HealthState.QUARANTINED <==> v.Fenced?)
            && (h == HealthState.DRAINING <==> v.DrainingWithWork?)
            && (h == HealthState.DRAINED <==> v.DrainedOfWork?)
            && (h == HealthState.OFFLINE <==> v.NeverSeen?)
            && (h == HealthState.LOST <==> v.Disappeared?)
            && (h == HealthState.RECOVERING <==> v.StaleEvidence? || v.Unproven?)
            && (h == HealthState.UNHEALTHY <==> v.Fatal? || v.NoDriver? || v.NoCuda? || v.Failing? || v.NeverProven?)
            && (h == HealthState.DEGRADED <==> v.OutsideLimits?)
  {
  }

  /** Which signals lead to which health, whatever the order in which they are looked at. */
  lemma HealthClassified(s: HealthSignals)
    ensures var h := EvaluateHealth(s).state;
            && (h == HealthState.QUARANTINED <==> s.quarantined)
            && (h == HealthState.DRAINING <==> !s.quarantined && s.explicitlyDrained && s.inflightWorkRemaining)
            && (h == HealthState.DRAINED <==> !s.quarantined && s.explicitlyDrained && !s.inflightWorkRemaining)
            && (h == HealthState.OFFLINE <==> Unmanaged(s) && !s.devicePresent && !s.wasKnown)
            && (h == HealthState.LOST <==> Unmanaged(s) && !s.devicePresent && s.wasKnown)
            && (h == HealthState.RECOVERING <==>
                  Running(s) && (s.observationStale || (!CoreProven(s) && s.lastValidationOk)))
            && (h == HealthState.UNHEALTHY <==>
                  Unmanaged(s) && s.devicePresent
                  && (!Running(s) || (!s.observationStale && !CoreProven(s) && !s.lastValidationOk)))
            && (h == HealthState.DEGRADED <==>
                  Running(s) && !s.observationStale && CoreProven(s) && !(s.temperatureWithinLimits && s.powerWithinLimits))
  {
    hide JudgeHealth, Verdict.State, Verdict.Explanation, Running, CoreProven;
    JudgeClassified(s);
    VerdictStates(JudgeHealth(s));
  }

  /** The evidence is current: from a live incarnation, of the right generation, and fresh. */
  predicate Current(i: EligibilityInput) {
    !i.workerRestarted && i.workerAlive && i.observedGeneration == i.currentGeneration && i.observationFresh
  }

  /** The device meets every requirement but health. */
  predicate Admitted(i: EligibilityInput) {
    && i.devicePresent && i.cudaAvailable && i.driverMatch && i.architectureMatch && i.sufficientMemory
    && i.availableMemory >= i.requiredMemory && i.capabilityMatch
  }

  /** Which inputs lead to which eligibility, and that at most one reason is ever given. */
  lemma EligibilityClassified(i: EligibilityInput)
    ensures var r := EvaluateEligibility(i);
            var open := !i.quarantine && !i.drainActive;
            var judged := open && Current(i) && Admitted(i);
            && (r.state == Eligibility.QUARANTINED <==> i.quarantine || (judged && i.health == HealthState.QUARANTINED))
            && (r.state == Eligibility.DRAINING <==>
                  (!i.quarantine && i.drainActive)
                  || (judged && (i.health == HealthState.DRAINING || i.health == HealthState.DRAINED)))
            && (r.state == Eligibility.STALE <==> (open && !Current(i)) || (judged && i.health == HealthState.RECOVERING))
            && (r.state == Eligibility.ELIGIBLE <==> judged && i.health == HealthState.HEALTHY)
            && (r.state == Eligibility.DEGRADED_ELIGIBLE <==> judged && i.health == HealthState.DEGRADED)
            && (open && Current(i) && !Admitted(i) ==> r.state == Eligibility.INELIGIBLE)
            && r.state != Eligibility.UNKNOWN
            && |r.reasons| <= 1
            && (i.quarantine ==> r.reasons == [Reason.QUARANTINE])
            && (!i.quarantine && i.drainActive ==> r.reasons == [Reason.DRAIN_POLICY])
            && (open && Current(i) && !i.devicePresent ==> r.reasons == [Reason.DEVICE_DISAPPEARANCE])
            && (open && Current(i) && r.reasons == [Reason.INSUFFICIENT_MEMORY] ==>
                  !i.sufficientMemory || i.availableMemory < i.requiredMemory)
  {
  }

  /** Exactly which observations make a device eligible. A policy that requires any capability admits none. */
  lemma ExactEligibility(prior: DeviceState, o: Observation, policy: Policy, now: Timestamp, epoch: u64)
    ensures ApplyObservation(prior, o, policy, now, epoch).state.eligibility == Eligibility.ELIGIBLE
            <==> (&& Fresh(prior, o, policy, now) && Proven(o) && Meets(o, policy)
                  && prior.drain == DrainState.ACTIVE && !prior.quarantined
                  && policy.requiredCapabilities == [])
  {
    hide Diff, EvaluateHealth, EvaluateEligibility;
    var isFresh := Fresh(prior, o, policy, now);
    var signals := SignalsFromProbe(o, prior.present, !isFresh);
    HealthExact(signals);
    EligibilityExact(ObservationInput(o, EvaluateHealth(signals).state, isFresh, prior.drain, prior.quarantined, policy));
  }

  /** The promise behind required capabilities, that a device which has them all is admitted, fails. */
  lemma RequiredCapabilityNeverAdmits(prior: DeviceState, o: Observation, policy: Policy, now: Timestamp, epoch: u64)
    requires policy.requiredCapabilities != []
    ensures ApplyObservation(prior, o, policy, now, epoch).state.eligibility != Eligibility.ELIGIBLE
  {
    ExactEligibility(prior, o, policy, now, epoch);
  }

  /** What every stored device satisfies. */
  predicate Sound(d: DeviceState) {
    && (d.eligibility == Eligibility.ELIGIBLE ==>
          d.present && d.isFresh && d.health == HealthState.HEALTHY && d.drain == DrainState.ACTIVE && !d.quarantined)
    && (d.reasons == [] <==> d.eligibility == Eligibility.ELIGIBLE) && |d.reasons| <= 1
    && d.eligibility != Eligibility.DEGRADED_ELIGIBLE
    && d.health != HealthState.DEGRADED
  }

  /** The pipeline stores only sound devices, keeps the administrative axes and reports no administrative change. */
  lemma ApplySound(prior: DeviceState, o: Observation, policy: Policy, now: Timestamp, epoch: u64)
    ensures var a := ApplyObservation(prior, o, policy, now, epoch);
            && Sound(a.state)
            && a.state.drain == prior.drain && a.state.quarantined == prior.quarantined
            && a.state.quarantine == prior.quarantine
            && forall c :: c in a.changes ==> c.epoch == epoch && !Administrative(c.kind)
  {
    hide EvaluateEligibility, EvaluateHealth, Diff;
    var isFresh := Fresh(prior, o, policy, now);
    var signals := SignalsFromProbe(o, prior.present, !isFresh);
    HealthExact(signals);
    EligibilityExact(ObservationInput(o, EvaluateHealth(signals).state, isFresh, prior.drain, prior.quarantined, policy));
    DiffPlain(prior, ApplyObservation(prior, o, policy, now, epoch).state, o.observedAt, o.deviceGeneration, epoch);
  }

  /** Between states with the same administrative axes, no change is administrative; all carry the given epoch. */
  lemma {:induction false} DiffFromPlain(k: nat, p: DeviceState, c: DeviceState, at: Timestamp, gen: u64, epoch: u64)
    requires 1 <= k
    ensures forall r :: r in DiffFrom(k, p, c, at, gen, epoch) ==> r.epoch == epoch
    ensures p.drain == c.drain && p.quarantined == c.quarantined ==>
              forall r :: r in DiffFrom(k, p, c, at, gen, epoch) ==> !Administrative(r.kind)
    decreases 15 - k
  {
    hide Detail, Shown, CapabilitiesKey;
    if k <= 14 {
      DiffFromPlain(k + 1, p, c, at, gen, epoch);
    }
  }

  lemma DiffPlain(p: DeviceState, c: DeviceState, at: Timestamp, gen: u64, epoch: u64)
    ensures forall r :: r in Diff(p, c, at, gen, epoch) ==> r.epoch == epoch
    ensures p.drain == c.drain && p.quarantined == c.quarantined ==>
              forall r :: r in Diff(p, c, at, gen, epoch) ==> !Administrative(r.kind)
  {
    hide DiffFrom;
    DiffFromPlain(1, p, c, at, gen, epoch);
  }
}
