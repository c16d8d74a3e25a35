/** What the store reports, spelled out: changes between device states, names, counters, the change log. */
module Reports {
  import opened Basics
  import opened Identity
  import opened Device
  import opened Pipeline
  import opened Fleet
  import opened FleetRuns
  import opened FleetStore
  import opened FleetBatch
  import opened Sweeping

  // ---- Names ----

  lemma HealthNames()
    ensures HealthName(HealthState.HEALTHY) == Ascii("HEALTHY") && HealthName(HealthState.DEGRADED) == Ascii("DEGRADED")
    ensures HealthName(HealthState.UNHEALTHY) == Ascii("UNHEALTHY") && HealthName(HealthState.DRAINING) == Ascii("DRAINING")
    ensures HealthName(HealthState.DRAINED) == Ascii("DRAINED") && HealthName(HealthState.OFFLINE) == Ascii("OFFLINE")
    ensures HealthName(HealthState.LOST) == Ascii("LOST") && HealthName(HealthState.RECOVERING) == Ascii("RECOVERING")
    ensures HealthName(HealthState.QUARANTINED) == Ascii("QUARANTINED")
    ensures forall h :: h == HealthState.UNKNOWN || h > HealthState.QUARANTINED ==> HealthName(h) == Ascii("UNKNOWN")
  {
    hide Ascii;
  }

  lemma EligibilityNames()
    ensures EligibilityName(Eligibility.ELIGIBLE) == Ascii("ELIGIBLE")
    ensures EligibilityName(Eligibility.DEGRADED_ELIGIBLE) == Ascii("DEGRADED_ELIGIBLE")
    ensures EligibilityName(Eligibility.INELIGIBLE) == Ascii("INELIGIBLE")
    ensures EligibilityName(Eligibility.DRAINING) == Ascii("DRAINING") && EligibilityName(Eligibility.STALE) == Ascii("STALE")
    ensures EligibilityName(Eligibility.QUARANTINED) == Ascii("QUARANTINED")
    ensures forall e :: e == Eligibility.UNKNOWN || e > Eligibility.QUARANTINED ==> EligibilityName(e) == Ascii("UNKNOWN")
  {
    hide Ascii;
  }

  // ---- Capabilities in print ----

  function PrintedOne(c: Capability): Text { c.name + [61] + c.value + [59] }

  lemma PrintedLast(cs: seq<Capability>)
    requires cs != []
    ensures CapabilitiesKey(cs) == CapabilitiesKey(cs[..|cs| - 1]) + PrintedOne(cs[|cs| - 1])
  {
    var c, k := cs[|cs| - 1], CapabilitiesKey(cs[..|cs| - 1]);
    SignsPrinted();
    hide Ascii;
    Grouped(k, c.name, [61]);
    Grouped(k, c.name + [61], c.value);
    Grouped(k, c.name + [61] + c.value, [59]);
  }

  lemma SignsPrinted()
    ensures Ascii("=") == [61] && Ascii(";") == [59]
  {
  }

  lemma {:induction false} PrintedConcat(a: seq<Capability>, b: seq<Capability>)
    ensures CapabilitiesKey(a + b) == CapabilitiesKey(a) + CapabilitiesKey(b)
  {
    hide CapabilitiesKey, PrintedOne;
    if b == [] {
      assert a + b == a;
      PrintedNone();
      assert CapabilitiesKey(a) + [] == CapabilitiesKey(a);
    } else {
      var n := |b| - 1;
      assert (a + b)[..|a| + n] == a + b[..n];
      PrintedConcat(a, b[..n]);
      PrintedLast(a + b);
      PrintedLast(b);
      assert (a + b)[|a| + n] == b[n];
      Grouped(CapabilitiesKey(a), CapabilitiesKey(b[..n]), PrintedOne(b[n]));
    }
  }

  lemma PrintedNone()
    ensures CapabilitiesKey([]) == []
  {
  }

  lemma Grouped(a: Text, b: Text, c: Text)
    ensures (a + b) + c == a + (b + c)
  {
  }

  /** A capability prints as its name, an equals sign, its value and a semicolon; a list prints as its elements in order. */
  lemma Printed(c: Capability, rest: seq<Capability>)
    ensures CapabilitiesKey([]) == []
    ensures CapabilitiesKey([c] + rest) == PrintedOne(c) + CapabilitiesKey(rest)
  {
    hide CapabilitiesKey, PrintedOne;
    PrintedNone();
    PrintedConcat([c], rest);
    PrintedLast([c]);
    assert [c][..0] == [];
  }

  // ---- Changes ----

  /** What the records of one comparison have in common. */
  datatype Stamp = Stamp(deviceId: u64, at: Timestamp, generation: u64, epoch: u64)

  /** A record of a change, if there was one. */
  function When(changed: bool, kind: ChangeKind, e: Stamp, detail: string, from: Text, to: Text): seq<ChangeRecord> {
    if changed then [ChangeRecord(kind, e.deviceId, e.at, e.generation, e.epoch, Ascii(detail), from, to)] else []
  }

  lemma OneKind(k: nat, p: DeviceState, c: DeviceState, e: Stamp, changed: bool, detail: string, from: Text, to: Text)
    requires 1 <= k <= 14 && e.deviceId == c.deviceId
    requires changed == Changed(k as ChangeKind, p, c)
    requires Detail(k as ChangeKind) == Ascii(detail)
    requires changed ==> Shown(k as ChangeKind, p) == from && Shown(k as ChangeKind, c) == to
    ensures Rest(k, p, c, e) == When(changed, k as ChangeKind, e, detail, from, to) + Rest(k + 1, p, c, e)
  {
    hide Detail, Shown, Changed, Ascii, DiffFrom;
    DiffStep(k, p, c, e.at, e.generation, e.epoch);
  }

  /** What is reported of the kinds from k on. */
  function Rest(k: nat, p: DeviceState, c: DeviceState, e: Stamp): seq<ChangeRecord>
    requires 1 <= k <= 15
  {
    DiffFrom(k, p, c, e.at, e.generation, e.epoch)
  }

  /** Changes of presence. */
  function Presence(p: DeviceState, c: DeviceState, e: Stamp): seq<ChangeRecord> {
    When(!p.present && c.present,
         ChangeKind.DEVICE_APPEARED, e, "device became present", Ascii("absent"), Ascii("present"))
    + (When(p.present && !c.present,
            ChangeKind.DEVICE_DISAPPEARED, e, "device became absent", Ascii("present"), Ascii("absent")))
  }

  /** Changes of identity, driver and memory. */
  function Description(p: DeviceState, c: DeviceState, e: Stamp): seq<ChangeRecord> {
    When(p.identity != c.identity,
         ChangeKind.IDENTITY_CHANGED, e, "device identity changed", p.identity.uuid, c.identity.uuid)
    + (When(p.identity.driverVersion != c.identity.driverVersion,
            ChangeKind.DRIVER_RUNTIME_CHANGED, e, "driver/runtime changed",
            p.identity.driverVersion, c.identity.driverVersion)
    + (When(p.totalMemory != c.totalMemory && c.totalMemory != 0,
            ChangeKind.MEMORY_CAPACITY_CHANGED, e, "memory capacity changed",
            Decimal(p.totalMemory), Decimal(c.totalMemory))))
  }

  /** Changes of health, capabilities, eligibility and incarnation. */
  function Verdicts(p: DeviceState, c: DeviceState, e: Stamp): seq<ChangeRecord> {
    When(p.health != c.health,
         ChangeKind.HEALTH_CHANGED, e, "health changed", HealthName(p.health), HealthName(c.health))
    + (When(CapabilitiesKey(p.capabilities) != CapabilitiesKey(c.capabilities),
            ChangeKind.CAPABILITY_CHANGED, e, "capability set changed",
            CapabilitiesKey(p.capabilities), CapabilitiesKey(c.capabilities))
    + (When(p.eligibility != c.eligibility,
            ChangeKind.ELIGIBILITY_CHANGED, e, "eligibility changed",
            EligibilityName(p.eligibility), EligibilityName(c.eligibility))
    + (When(p.workerBoot != c.workerBoot,
            ChangeKind.WORKER_RESTARTED, e, "source worker incarnation changed",
            Decimal(p.workerBoot), Decimal(c.workerBoot)))))
  }

  /** Changes of freshness and drain. */
  function Withdrawals(p: DeviceState, c: DeviceState, e: Stamp): seq<ChangeRecord> {
    When(p.isFresh && !c.isFresh,
         ChangeKind.OBSERVATION_STALE, e, "observation became stale", Ascii("fresh"), Ascii("stale"))
    + (When(p.drain == DrainState.ACTIVE && c.drain != DrainState.ACTIVE,
            ChangeKind.DRAIN_INITIATED, e, "drain initiated", DrainName(p.drain), DrainName(c.drain))
    + (When(p.drain == DrainState.DRAINING && c.drain == DrainState.DRAINED,
            ChangeKind.DRAIN_COMPLETED, e, "drain completed", DrainName(p.drain), DrainName(c.drain))))
  }

  /** Changes of quarantine. */
  function Holds(p: DeviceState, c: DeviceState, e: Stamp): seq<ChangeRecord> {
    When(!p.quarantined && c.quarantined,
         ChangeKind.QUARANTINE_APPLIED, e, "quarantine applied", Ascii("false"), Ascii("true"))
    + (When(p.quarantined && !c.quarantined,
            ChangeKind.QUARANTINE_CLEARED, e, "quarantine cleared", Ascii("true"), Ascii("false")))
  }

  lemma PresenceListed(p: DeviceState, c: DeviceState, e: Stamp)
    requires e.deviceId == c.deviceId
    ensures Rest(1, p, c, e) == Presence(p, c, e) + Rest(3, p, c, e)
  {
    hide Ascii, Rest, CapabilitiesKey, HealthName, EligibilityName, DrainName, Decimal, When;
    OneKind(1, p, c, e, !p.present && c.present, "device became present", Ascii("absent"), Ascii("present"));
    OneKind(2, p, c, e, p.present && !c.present, "device became absent", Ascii("present"), Ascii("absent"));
  }

  lemma DescriptionListed(p: DeviceState, c: DeviceState, e: Stamp)
    requires e.deviceId == c.deviceId
    ensures Rest(3, p, c, e) == Description(p, c, e) + Rest(6, p, c, e)
  {
    hide Ascii, Rest, CapabilitiesKey, HealthName, EligibilityName, DrainName, Decimal, When;
    OneKind(3, p, c, e, p.identity != c.identity, "device identity changed", p.identity.uuid, c.identity.uuid);
    OneKind(4, p, c, e, p.identity.driverVersion != c.identity.driverVersion, "driver/runtime changed",
            p.identity.driverVersion, c.identity.driverVersion);
    OneKind(5, p, c, e, p.totalMemory != c.totalMemory && c.totalMemory != 0, "memory capacity changed",
            Decimal(p.totalMemory), Decimal(c.totalMemory));
  }

  lemma VerdictsListed(p: DeviceState, c: DeviceState, e: Stamp)
    requires e.deviceId == c.deviceId
    ensures Rest(6, p, c, e) == Verdicts(p, c, e) + Rest(10, p, c, e)
  {
    hide Ascii, Rest, CapabilitiesKey, HealthName, EligibilityName, DrainName, Decimal, When;
    OneKind(6, p, c, e, p.health != c.health, "health changed", HealthName(p.health), HealthName(c.health));
    OneKind(7, p, c, e, CapabilitiesKey(p.capabilities) != CapabilitiesKey(c.capabilities), "capability set changed",
            CapabilitiesKey(p.capabilities), CapabilitiesKey(c.capabilities));
    OneKind(8, p, c, e, p.eligibility != c.eligibility, "eligibility changed",
            EligibilityName(p.eligibility), EligibilityName(c.eligibility));
    OneKind(9, p, c, e, p.workerBoot != c.workerBoot, "source worker incarnation changed",
            Decimal(p.workerBoot), Decimal(c.workerBoot));
  }

  lemma WithdrawalsListed(p: DeviceState, c: DeviceState, e: Stamp)
    requires e.deviceId == c.deviceId
    ensures Rest(10, p, c, e) == Withdrawals(p, c, e) + Rest(13, p, c, e)
  {
    hide Ascii, Rest, CapabilitiesKey, HealthName, EligibilityName, DrainName, Decimal, When;
    OneKind(10, p, c, e, p.isFresh && !c.isFresh, "observation became stale", Ascii("fresh"), Ascii("stale"));
    OneKind(11, p, c, e, p.drain == DrainState.ACTIVE && c.drain != DrainState.ACTIVE, "drain initiated",
            DrainName(p.drain), DrainName(c.drain));
    OneKind(12, p, c, e, p.drain == DrainState.DRAINING && c.drain == DrainState.DRAINED, "drain completed",
            DrainName(p.drain), DrainName(c.drain));
  }

  lemma HoldsListed(p: DeviceState, c: DeviceState, e: Stamp)
    requires e.deviceId == c.deviceId
    ensures Rest(13, p, c, e) == Holds(p, c, e) + Rest(15, p, c, e)
  {
    hide Ascii, Rest, CapabilitiesKey, HealthName, EligibilityName, DrainName, Decimal, When;
    OneKind(13, p, c, e, !p.quarantined && c.quarantined, "quarantine applied", Ascii("false"), Ascii("true"));
    OneKind(14, p, c, e, p.quarantined && !c.quarantined, "quarantine cleared", Ascii("true"), Ascii("false"));
  }

  /** All that is reported of a change from p to c, in order. */
  lemma DiffListed(p: DeviceState, c: DeviceState, at: Timestamp, gen: u64, epoch: u64)
    ensures var e := Stamp(c.deviceId, at, gen, epoch);
            Diff(p, c, at, gen, epoch)
            == Presence(p, c, e) + (Description(p, c, e) + (Verdicts(p, c, e) + (Withdrawals(p, c, e) + Holds(p, c, e))))
  {
    hide DiffFrom, Presence, Description, Verdicts, Withdrawals, Holds;
    var e := Stamp(c.deviceId, at, gen, epoch);
    PresenceListed(p, c, e);
    DescriptionListed(p, c, e);
    VerdictsListed(p, c, e);
    WithdrawalsListed(p, c, e);
    HoldsListed(p, c, e);
    NoFurtherKinds(p, c, at, gen, epoch);
    assert Holds(p, c, e) + [] == Holds(p, c, e);
  }

  /** All of it, in order. */
  function Reported(p: DeviceState, c: DeviceState, e: Stamp): seq<ChangeRecord> {
    Presence(p, c, e) + (Description(p, c, e) + (Verdicts(p, c, e) + (Withdrawals(p, c, e) + Holds(p, c, e))))
  }

  lemma ReportedSame(p: DeviceState, c: DeviceState, g: u64, e: Stamp)
    ensures Reported(p, c.(healthGeneration := g), e) == Reported(p, c, e)
  {
    hide When, Decimal, HealthName, EligibilityName, DrainName, CapabilitiesKey;
  }

  /** What an accepted observation adds to the history: the changes it makes to its device, at the time, the generation and the
    * epoch it was taken under.
    */
  lemma AcceptReports(s: State, w: u64, o: Observation, policy: Policy, now: Timestamp)
    ensures Key(o) in Next(s, Accept(w, o, policy, now)).devices
    ensures var t, k := Next(s, Accept(w, o, policy, now)), Key(o);
            t.records == s.records + Reported(if k in s.devices then s.devices[k] else BLANK, t.devices[k],
                                              Stamp(o.deviceId, o.observedAt, o.deviceGeneration, s.epoch))
  {
    hide *;
    var k := Key(o);
    var p, c := Prior(s, k), ApplyObservation(Prior(s, k), o, policy, now, s.epoch).state;
    var e := Stamp(o.deviceId, o.observedAt, o.deviceGeneration, s.epoch);
    NextEmits(s, Accept(w, o, policy, now));
    AcceptedAs(s, w, o, policy, now);
    DiffListed(p, c, o.observedAt, o.deviceGeneration, s.epoch);
    ReportedIs(p, c, e);
    ReportedSame(p, c, o.healthGeneration, e);
  }

  lemma ReportedIs(p: DeviceState, c: DeviceState, e: Stamp)
    ensures Reported(p, c, e)
            == Presence(p, c, e) + (Description(p, c, e) + (Verdicts(p, c, e) + (Withdrawals(p, c, e) + Holds(p, c, e))))
  {
    hide Presence, Description, Verdicts, Withdrawals, Holds;
  }

  lemma AcceptedAs(s: State, w: u64, o: Observation, policy: Policy, now: Timestamp)
    ensures var k, t := Key(o), Next(s, Accept(w, o, policy, now));
            var a := ApplyObservation(Prior(s, k), o, policy, now, s.epoch);
            && Prior(s, k) == (if k in s.devices then s.devices[k] else BLANK)
            && Emitted(s, Accept(w, o, policy, now)) == a.changes && a.state.deviceId == o.deviceId
            && a.changes == Diff(Prior(s, k), a.state, o.observedAt, o.deviceGeneration, s.epoch)
            && k in t.devices && t.devices[k] == a.state.(healthGeneration := o.healthGeneration)
            && AppliedTo(s, o, policy, now) == a.(state := t.devices[k])
  {
    hide CanonicalKey, Diff, EvaluateHealth, EvaluateEligibility, SignalsFromProbe, ObservationInput, Fresh, PushAll;
  }

  // ---- Answers to batches ----

  /** The answer to a batch that took s to t: what was stored on the last acceptance, or that nothing was accepted. */
  predicate Answers(s: State, t: State, last: Applied, before: Applied) {
    if |t.accepts| == |s.accepts| then last == before
    else
      && |t.accepts| > |s.accepts| && t.accepts[|t.accepts| - 1].key in t.devices
      && var d := t.devices[t.accepts[|t.accepts| - 1].key];
         && last.accepted && last.state == d && last.isFresh == d.isFresh
         && last.eligibility == EligibilityResult(d.eligibility, d.reasons)
  }

  lemma {:induction false} TakenAnswers(s: State, w: u64, obs: seq<Observation>, policy: Policy, now: Timestamp, last: Applied)
    ensures var taken := TakeAll(s, w, obs, policy, now, last);
            var u := ApplyAll(s, taken.actions);
            Answers(s, u, taken.last, last) && (|u.accepts| == |s.accepts| ==> u == s)
    decreases obs
  {
    hide Next, Judge, AppliedTo, CanonicalKey;
    if obs != [] {
      match Judge(s, w, obs[0])
      case Refused(_) =>
      case Skipped => TakenAnswers(s, w, obs[1..], policy, now, last);
      case Taken =>
        var a := Accept(w, obs[0], policy, now);
        TakenAnswers(Next(s, a), w, obs[1..], policy, now, AppliedTo(s, obs[0], policy, now));
        NextEmits(s, a);
        OneAnswers(s, w, obs[0], policy, now, last);
    }
  }

  lemma OneAnswers(s: State, w: u64, o: Observation, policy: Policy, now: Timestamp, before: Applied)
    ensures Answers(s, Next(s, Accept(w, o, policy, now)), AppliedTo(s, o, policy, now), before)
  {
    hide Next, CanonicalKey, Diff, EvaluateHealth, EvaluateEligibility, SignalsFromProbe, ObservationInput, Fresh, Emitted;
    NextEmits(s, Accept(w, o, policy, now));
    AcceptedAs(s, w, o, policy, now);
  }

  /** The answer to a successful batch: what the store holds of the device accepted last, or an answer that says that nothing
    * was accepted.
    */
  lemma BatchAnswers(s: State, w: u64, obs: seq<Observation>, policy: Policy, now: Timestamp)
    requires Succeeds(s, w, obs, policy, now)
    ensures Answers(s, Step(s, Ingest(w, obs, policy, now)), TakeAll(s, w, obs, policy, now, NOTHING_APPLIED).last, NOTHING_APPLIED)
    ensures !NOTHING_APPLIED.accepted
  {
    hide TakeAll, ApplyAll, SweepActions, Next, Step, Succeeds, AcceptedIn;
    BatchParts(s, w, obs, policy, now);
    TakenAnswers(s, w, obs, policy, now, NOTHING_APPLIED);
    var taken := TakeAll(s, w, obs, policy, now, NOTHING_APPLIED);
    var u := ApplyAll(s, taken.actions);
    var t := Step(s, Ingest(w, obs, policy, now));
    var k := if |u.accepts| > 0 then u.accepts[|u.accepts| - 1].key else [];
    SweepEffect(u, u.workers[w].devices, taken.seen, now, k);
    BeatOnly(ApplyAll(u, SweepActions(u.workers[w].devices, taken.seen, now)), w, now);
    if |u.accepts| > |s.accepts| {
      LastAccepted(s, u, k);
      SeenAccepted(s, w, obs, policy, now, NOTHING_APPLIED, k);
      assert Lookup(t, k) == Lookup(u, k);
    }
  }

  lemma LastAccepted(s: State, u: State, k: Text)
    requires |u.accepts| > |s.accepts| && u.accepts[|u.accepts| - 1].key == k
    ensures AcceptedIn(s, u, k)
  {
  }

  // ---- Counters ----

  /** What the counters count. */
  lemma AccountingMeans(s: State)
    ensures var a := AccountingOf(s);
            && a.registeredWorkers == |s.workers| && a.devices == |s.devices| && a.acceptedObservations == s.acceptedCount
            && a.liveWorkers == a.activeRegistrations
               == |set w | w in s.workers && s.workers[w].alive && !s.workers[w].lost && !s.workers[w].fenced|
            && a.staleWorkers == |set w | w in s.workers && (s.workers[w].lost || s.workers[w].fenced || !s.workers[w].alive)|
            && a.eligibleDevices == |set k | k in s.devices && s.devices[k].eligibility == Eligibility.ELIGIBLE|
            && a.degradedDevices == |set k | k in s.devices && s.devices[k].eligibility == Eligibility.DEGRADED_ELIGIBLE|
            && a.quarantinedDevices == |set k | k in s.devices && s.devices[k].eligibility == Eligibility.QUARANTINED|
            && a.drainedDevices == |set k | k in s.devices && s.devices[k].eligibility == Eligibility.DRAINING|
  {
    assert WorkersWhere(s.workers, true)
           == set w | w in s.workers && s.workers[w].alive && !s.workers[w].lost && !s.workers[w].fenced;
    assert WorkersWhere(s.workers, false)
           == set w | w in s.workers && (s.workers[w].lost || s.workers[w].fenced || !s.workers[w].alive);
  }

  // ---- The log ----

  /** Over every run from an empty store the log is what was recorded last, at most 10000 records of it. */
  lemma LogIsLast(coordinator: u64, epoch: u64, ops: seq<Op>)
    ensures var s := Run(Initial(coordinator, epoch), ops);
            && |s.log| == (if |s.records| <= 10000 then |s.records| else 10000)
            && s.log == s.records[|s.records| - |s.log|..]
            && s.acceptedCount == |s.accepts|
  {
    hide Run, WorkersOk, AllSound, KeysOk, Initial;
    InitialInvariant(coordinator, epoch);
    RunInvariant(Initial(coordinator, epoch), ops);
  }
}
