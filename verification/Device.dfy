/** Device records, and the pure evaluations of health and eligibility. */
module Device {
  import opened Basics
  import opened Identity

  newtype HealthState = x: int | 0 <= x < 256 {
    static const UNKNOWN: HealthState := 0
    static const HEALTHY: HealthState := 1
    static const DEGRADED: HealthState := 2
    static const UNHEALTHY: HealthState := 3
    static const DRAINING: HealthState := 4
    static const DRAINED: HealthState := 5
    static const OFFLINE: HealthState := 6
    static const LOST: HealthState := 7
    static const RECOVERING: HealthState := 8
    static const QUARANTINED: HealthState := 9
  }

  newtype Eligibility = x: int | 0 <= x < 256 {
    static const UNKNOWN: Eligibility := 0
    static const ELIGIBLE: Eligibility := 1
    static const DEGRADED_ELIGIBLE: Eligibility := 2
    static const INELIGIBLE: Eligibility := 3
    static const DRAINING: Eligibility := 4
    static const STALE: Eligibility := 5
    static const QUARANTINED: Eligibility := 6
  }

  newtype Reason = x: int | 0 <= x < 256 {
    static const STALE_OBSERVATION: Reason := 1
    static const ARCHITECTURE_MISMATCH: Reason := 2
    static const INSUFFICIENT_MEMORY: Reason := 3
    static const DRIVER_MISMATCH: Reason := 4
    static const CUDA_UNAVAILABLE: Reason := 5
    static const HEALTH_FAILURE: Reason := 6
    static const DRAIN_POLICY: Reason := 7
    static const GENERATION_MISMATCH: Reason := 8
    static const WORKER_RESTART: Reason := 9
    static const DEVICE_DISAPPEARANCE: Reason := 10
    static const QUARANTINE: Reason := 11
    static const CAPABILITY_MISMATCH: Reason := 12
  }

  newtype DrainState = x: int | 0 <= x < 256 {
    static const ACTIVE: DrainState := 0
    static const DRAINING: DrainState := 1
    static const DRAINED: DrainState := 2
  }

  newtype CapabilityKind = x: int | 0 <= x < 256 {
    static const UNKNOWN: CapabilityKind := 0
  }

  datatype Capability = Capability(id: u64, name: Text, kind: CapabilityKind, value: Text, description: Text)

  datatype QuarantineRecord = QuarantineRecord(
    reason: Text, source: Text, generation: u64, at: Timestamp, deviceId: u64, authority: u64)

  const NO_QUARANTINE: QuarantineRecord := QuarantineRecord([], [], 0, NO_TIME, 0, 0)

  /** One published frame of evidence. Doubles are kept as their 64 bits. */
  datatype Observation = Observation(
    deviceId: u64, observationGeneration: u64, healthGeneration: u64, observedAt: Timestamp,
    workerBoot: u64, worker: u64, node: u64, epoch: u64, deviceGeneration: u64,
    health: HealthState, healthExplanation: Text,
    totalMemory: u64, usedMemory: u64, freeMemory: u64, temperature: Option<u64>, power: Option<u64>,
    capabilities: seq<Capability>, coreValidationOk: bool, validationDetail: Text,
    enumerated: bool, present: bool, driverRuntimeOk: bool, cudaInitOk: bool, memoryAllocOk: bool,
    h2dOk: bool, kernelExecOk: bool, syncOk: bool, d2hOk: bool, verifyOk: bool,
    identity: DeviceIdentity)

  /** The authoritative view of one device. */
  datatype DeviceState = DeviceState(
    deviceId: u64, generation: u64, identity: DeviceIdentity, present: bool,
    health: HealthState, healthExplanation: Text,
    eligibility: Eligibility, reasons: seq<Reason>,
    drain: DrainState, quarantined: bool, quarantine: QuarantineRecord,
    totalMemory: u64, usedMemory: u64, freeMemory: u64, temperature: Option<u64>, power: Option<u64>,
    capabilities: seq<Capability>, coreValidationOk: bool, validationDetail: Text,
    lastObservedAt: Timestamp, lastValidatedAt: Timestamp, lastAuthoritativeAt: Timestamp,
    observationGeneration: u64, healthGeneration: u64, workerBoot: u64, isFresh: bool)

  /** The state of a device nobody has reported yet. */
  const BLANK: DeviceState := DeviceState(
    0, 0, NO_IDENTITY, false, HealthState.UNKNOWN, [], Eligibility.UNKNOWN, [],
    DrainState.ACTIVE, false, NO_QUARANTINE, 0, 0, 0, None, None, [], false, [],
    NO_TIME, NO_TIME, NO_TIME, 0, 0, 0, false)

  // ---- Health ----

  datatype HealthSignals = HealthSignals(
    enumerated: bool, devicePresent: bool, wasKnown: bool, driverRuntimeOk: bool, cudaInitOk: bool,
    memoryAllocOk: bool, kernelExecOk: bool, syncOk: bool, memRoundtripOk: bool, fatalError: bool,
    temperatureWithinLimits: bool, powerWithinLimits: bool, consecutiveFailures: nat, observationStale: bool,
    explicitlyDrained: bool, inflightWorkRemaining: bool, quarantined: bool, lastValidationOk: bool,
    failureThreshold: nat)

  datatype HealthResult = HealthResult(state: HealthState, explanation: Text)

  /** The outcome of the decision, before it is put into words. */
  datatype Verdict =
    | Fenced | DrainingWithWork | DrainedOfWork | NeverSeen | Disappeared | Fatal | NoDriver | NoCuda
    | Failing(count: nat) | StaleEvidence | Unproven | NeverProven | OutsideLimits | AllProven
  {
    function State(): HealthState {
      match this
      case Fenced => HealthState.QUARANTINED
      case DrainingWithWork => HealthState.DRAINING
      case DrainedOfWork => HealthState.DRAINED
      case NeverSeen => HealthState.OFFLINE
      case Disappeared => HealthState.LOST
      case Fatal | NoDriver | NoCuda | Failing(_) | NeverProven => HealthState.UNHEALTHY
      case StaleEvidence | Unproven => HealthState.RECOVERING
      case OutsideLimits => HealthState.DEGRADED
      case AllProven => HealthState.HEALTHY
    }

    function Explanation(): Text {
      match this
      case Fenced => Ascii("quarantined: administratively or automatically fenced; ineligible until validly cleared")
      case DrainingWithWork => Ascii("draining: rejecting new eligibility, in-flight work still reported present")
      case DrainedOfWork => Ascii("drained: rejecting new eligibility and awaiting drain completion")
      case NeverSeen => Ascii("offline: device not enumerable and never previously observed")
      case Disappeared => Ascii("lost: device was present but has disappeared and is not enumerable")
      case Fatal => Ascii("unhealthy: fatal accelerator error recorded")
      case NoDriver => Ascii("unhealthy: driver or runtime availability failed")
      case NoCuda => Ascii("unhealthy: CUDA initialization failed")
      case Failing(n) => Ascii("unhealthy: repeated operation failures (") + Decimal(n) + Ascii(" consecutive)")
      case StaleEvidence => Ascii("recovering: last evidence is stale and is not fresh enough to be authoritative")
      case Unproven => Ascii("recovering: core validation not currently proven; last validation was OK")
      case NeverProven => Ascii("unhealthy: core device validation not proven")
      case OutsideLimits => Ascii("degraded: core validation passed but temperature or power is outside limits")
      case AllProven => Ascii("healthy: enumeration, driver/runtime, and core validation all proven")
    }
  }

  function JudgeHealth(s: HealthSignals): Verdict {
    if s.quarantined then Fenced
    else if s.explicitlyDrained then
      if s.inflightWorkRemaining then DrainingWithWork else DrainedOfWork
    else if !s.devicePresent then
      if !s.wasKnown then NeverSeen else Disappeared
    else if s.fatalError then Fatal
    else if !s.driverRuntimeOk then NoDriver
    else if !s.cudaInitOk then NoCuda
    else if s.consecutiveFailures >= s.failureThreshold then Failing(s.consecutiveFailures)
    else if s.observationStale then StaleEvidence
    else if !(s.memoryAllocOk && s.kernelExecOk && s.syncOk && s.memRoundtripOk) then
      if s.lastValidationOk then Unproven else NeverProven
    else if !s.temperatureWithinLimits || !s.powerWithinLimits then OutsideLimits
    else AllProven
  }

  function EvaluateHealth(s: HealthSignals): HealthResult {
    HealthResult(JudgeHealth(s).State(), JudgeHealth(s).Explanation())
  }

  // ---- Eligibility ----

  datatype EligibilityInput = EligibilityInput(
    health: HealthState, observationFresh: bool, observedGeneration: u64, currentGeneration: u64,
    architectureMatch: bool, sufficientMemory: bool, driverMatch: bool, cudaAvailable: bool,
    capabilityMatch: bool, drainActive: bool, quarantine: bool, workerAlive: bool, devicePresent: bool,
    workerRestarted: bool, requiredMemory: u64, availableMemory: u64)

  datatype EligibilityResult = EligibilityResult(state: Eligibility, reasons: seq<Reason>)

  function BaselineEligibility(h: HealthState): Eligibility {
    if h == HealthState.HEALTHY then Eligibility.ELIGIBLE
    else if h == HealthState.DEGRADED then Eligibility.DEGRADED_ELIGIBLE
    else if h == HealthState.DRAINING || h == HealthState.DRAINED then Eligibility.DRAINING
    else if h == HealthState.QUARANTINED then Eligibility.QUARANTINED
    else if h == HealthState.OFFLINE || h == HealthState.LOST then Eligibility.INELIGIBLE
    else if h == HealthState.RECOVERING then Eligibility.STALE
    else if h == HealthState.UNHEALTHY then Eligibility.INELIGIBLE
    else Eligibility.UNKNOWN
  }

  function EvaluateEligibility(i: EligibilityInput): EligibilityResult {
    if i.quarantine then EligibilityResult(Eligibility.QUARANTINED, [Reason.QUARANTINE])
    else if i.drainActive then EligibilityResult(Eligibility.DRAINING, [Reason.DRAIN_POLICY])
    else if i.workerRestarted || !i.workerAlive then EligibilityResult(Eligibility.STALE, [Reason.WORKER_RESTART])
    else if i.observedGeneration != i.currentGeneration then EligibilityResult(Eligibility.STALE, [Reason.GENERATION_MISMATCH])
    else if !i.observationFresh then EligibilityResult(Eligibility.STALE, [Reason.STALE_OBSERVATION])
    else if !i.devicePresent then EligibilityResult(Eligibility.INELIGIBLE, [Reason.DEVICE_DISAPPEARANCE])
    else if !i.cudaAvailable then EligibilityResult(Eligibility.INELIGIBLE, [Reason.CUDA_UNAVAILABLE])
    else if !i.driverMatch then EligibilityResult(Eligibility.INELIGIBLE, [Reason.DRIVER_MISMATCH])
    else if !i.architectureMatch then EligibilityResult(Eligibility.INELIGIBLE, [Reason.ARCHITECTURE_MISMATCH])
    else if !i.sufficientMemory || i.availableMemory < i.requiredMemory then
      EligibilityResult(Eligibility.INELIGIBLE, [Reason.INSUFFICIENT_MEMORY])
    else if !i.capabilityMatch then EligibilityResult(Eligibility.INELIGIBLE, [Reason.CAPABILITY_MISMATCH])
    else
      var b := BaselineEligibility(i.health);
      if b == Eligibility.ELIGIBLE then EligibilityResult(Eligibility.ELIGIBLE, [])
      else if b == Eligibility.DEGRADED_ELIGIBLE then EligibilityResult(b, [Reason.HEALTH_FAILURE])
      else if b == Eligibility.STALE then EligibilityResult(b, [Reason.STALE_OBSERVATION])
      else if b == Eligibility.QUARANTINED then EligibilityResult(b, [Reason.QUARANTINE])
      else if b == Eligibility.DRAINING then EligibilityResult(b, [Reason.DRAIN_POLICY])
      else EligibilityResult(Eligibility.INELIGIBLE, [Reason.HEALTH_FAILURE])
  }

  // ---- Names ----

  function HealthName(h: HealthState): Text {
    Ascii(if h == HealthState.HEALTHY then "HEALTHY" else if h == HealthState.DEGRADED then "DEGRADED"
          else if h == HealthState.UNHEALTHY then "UNHEALTHY" else if h == HealthState.DRAINING then "DRAINING"
          else if h == HealthState.DRAINED then "DRAINED" else if h == HealthState.OFFLINE then "OFFLINE"
          else if h == HealthState.LOST then "LOST" else if h == HealthState.RECOVERING then "RECOVERING"
          else if h == HealthState.QUARANTINED then "QUARANTINED" else "UNKNOWN")
  }

  function EligibilityName(e: Eligibility): Text {
    Ascii(if e == Eligibility.ELIGIBLE then "ELIGIBLE" else if e == Eligibility.DEGRADED_ELIGIBLE then "DEGRADED_ELIGIBLE"
          else if e == Eligibility.INELIGIBLE then "INELIGIBLE" else if e == Eligibility.DRAINING then "DRAINING"
          else if e == Eligibility.STALE then "STALE" else if e == Eligibility.QUARANTINED then "QUARANTINED"
          else "UNKNOWN")
  }

  function DrainName(d: DrainState): Text {
    Ascii(if d == DrainState.DRAINING then "DRAINING" else if d == DrainState.DRAINED then "DRAINED" else "ACTIVE")
  }
}
