/** What each call on the store does to its fields, stated outright: statuses, records, devices, log. */
module Effects {
  import opened Basics
  import opened Identity
  import opened Device
  import opened Pipeline
  import opened Fleet
  import opened FleetRuns
  import opened FleetBatch

  // ---- Epochs ----

  /** t is s at a newer epoch and the next fleet generation, which wraps; an epoch that is not newer leaves s as it is. */
  predicate Rolls(s: State, t: State, e: u64) {
    t == if e <= s.epoch then s
         else s.(epoch := e,
                 fleetGeneration := if s.fleetGeneration == 0xFFFF_FFFF_FFFF_FFFF then 0 else s.fleetGeneration + 1)
  }

  lemma RollEffect(s: State, e: u64)
    ensures PlanOf(s, RollEpoch(e)).status == if e <= s.epoch then Stale else Ok
    ensures Rolls(s, Step(s, RollEpoch(e)), e)
  {
    if e > s.epoch {
      One(s, Roll(e));
    }
  }

  // ---- Registration ----

  /** The record of an incarnation that has just registered. */
  predicate Newly(wr: WorkerRecord, reg: Registration, now: Timestamp) {
    && wr.worker == reg.worker && wr.boot == reg.boot && wr.registrationGeneration == reg.registrationGeneration
    && wr.node == reg.node && wr.agent == (if reg.worker == 0xFFFF_FFFF_FFFF_FFFF then 0 else reg.worker + 1)
    && wr.agentVersion == reg.agentVersion && wr.protocolVersion == reg.protocolVersion
    && wr.osPlatform == reg.osPlatform && wr.driverVersion == reg.driverVersion
    && wr.devices == reg.devices && wr.capabilities == reg.capabilities
    && wr.registeredAt == now && wr.lastHeartbeat == now && wr.registeredEpoch == reg.epoch
    && wr.alive && !wr.fenced && !wr.lost
  }

  /** The incarnation has registered before. */
  predicate Same(s: State, reg: Registration) { reg.worker in s.workers && s.workers[reg.worker].boot == reg.boot }

  /** Another incarnation of the worker still holds its place. */
  predicate Taken(s: State, reg: Registration) {
    && reg.worker in s.workers && s.workers[reg.worker].boot != reg.boot
    && !s.workers[reg.worker].fenced && !s.workers[reg.worker].lost && s.workers[reg.worker].alive
  }

  function RegisterStatus(s: State, reg: Registration): Status {
    if reg.epoch != s.epoch then Stale
    else if reg.protocolVersion == 0 then ProtocolMismatch
    else if Same(s, reg) && reg.registrationGeneration <= s.workers[reg.worker].registrationGeneration then Stale
    else if Taken(s, reg) then Duplicate
    else Ok
  }

  lemma RegisterRefused(s: State, reg: Registration, now: Timestamp)
    ensures PlanOf(s, Register(reg, now)).status == RegisterStatus(s, reg)
    ensures RegisterStatus(s, reg) != Ok ==> Step(s, Register(reg, now)) == s
  {
    hide AdmitNext, ReaffirmNext, RecordOf;
  }

  /** A registration renewed by the same incarnation: its generation, heartbeat and device list, and it counts as alive. */
  predicate Reaffirms(s: State, t: State, reg: Registration, now: Timestamp)
    requires reg.worker in s.workers
  {
    t == s.(workers := s.workers[reg.worker := s.workers[reg.worker].(
           registrationGeneration := reg.registrationGeneration, lastHeartbeat := now, alive := true, lost := false,
           devices := reg.devices)])
  }

  /** A first or superseding registration: the record is made of the registration and the clock, the node is created when it is
    * unknown, and nothing else that the store keeps changes.
    */
  predicate Admits(s: State, t: State, reg: Registration, now: Timestamp) {
    && t.workers.Keys == s.workers.Keys + {reg.worker} && Newly(t.workers[reg.worker], reg, now)
    && (forall v :: v in s.workers && v != reg.worker ==> t.workers[v] == s.workers[v])
    && t.nodes == (if reg.node in s.nodes then s.nodes else s.nodes[reg.node := NodeRecord(reg.node, 1, now)])
    && t == s.(workers := t.workers, nodes := t.nodes, retired := t.retired)
  }

  /** What a registration makes of the store. */
  predicate Registers(s: State, t: State, reg: Registration, now: Timestamp) {
    if RegisterStatus(s, reg) != Ok then t == s
    else if Same(s, reg) then Reaffirms(s, t, reg, now)
    else Admits(s, t, reg, now)
  }

  lemma Reaffirmed(s: State, reg: Registration, now: Timestamp)
    requires RegisterStatus(s, reg) == Ok && Same(s, reg)
    ensures Reaffirms(s, Step(s, Register(reg, now)), reg, now)
  {
    hide AdmitNext, RecordOf;
    One(s, Reaffirm(reg.worker, reg.registrationGeneration, reg.devices, now));
  }

  lemma NewlyAdmitted(s: State, reg: Registration, now: Timestamp)
    requires RegisterStatus(s, reg) == Ok && !Same(s, reg)
    ensures Admits(s, Step(s, Register(reg, now)), reg, now)
  {
    One(s, Admit(RecordOf(reg, now), now));
  }

  /** A registration is refused in this order: for its epoch, its protocol, its generation, or an incarnation still in place. */
  lemma RegisterEffect(s: State, reg: Registration, now: Timestamp)
    ensures PlanOf(s, Register(reg, now)).status == RegisterStatus(s, reg)
    ensures Registers(s, Step(s, Register(reg, now)), reg, now)
  {
    hide *;
    hide RegisterStatus, Same, Reaffirms, Admits, Step, PlanOf;
    RegisterRefused(s, reg, now);
    RegistersBy(s, Step(s, Register(reg, now)), reg, now);
    if RegisterStatus(s, reg) == Ok {
      if Same(s, reg) {
        Reaffirmed(s, reg, now);
      } else {
        NewlyAdmitted(s, reg, now);
      }
    }
  }

  lemma RegistersBy(s: State, t: State, reg: Registration, now: Timestamp)
    ensures Same(s, reg) ==> reg.worker in s.workers
    ensures RegisterStatus(s, reg) != Ok && t == s ==> Registers(s, t, reg, now)
    ensures RegisterStatus(s, reg) == Ok && Same(s, reg) && Reaffirms(s, t, reg, now) ==> Registers(s, t, reg, now)
    ensures RegisterStatus(s, reg) == Ok && !Same(s, reg) && Admits(s, t, reg, now) ==> Registers(s, t, reg, now)
  {
    hide Reaffirms, Admits;
  }

  // ---- Loss ----

  /** A device of a worker that is lost: no longer fresh, and if it was present, absent and out of use for that reason. */
  predicate Orphaned(d: DeviceState, e: DeviceState) {
    e == if d.present
         then d.(isFresh := false, present := false, health := HealthState.LOST, eligibility := Eligibility.INELIGIBLE,
                 reasons := [Reason.WORKER_RESTART])
         else d.(isFresh := false)
  }

  lemma SilencedIs(d: DeviceState)
    ensures Orphaned(d, Silenced(d)) && Silenced(Silenced(d)) == Silenced(d)
  {
  }

  lemma SilenceOne(s: State, key: Text, k: Text)
    ensures var t := Next(s, Silence(key));
            && t == s.(devices := t.devices)
            && Lookup(t, k) == if k == key && k in s.devices then Some(Silenced(s.devices[k])) else Lookup(s, k)
  {
    hide Silenced;
  }

  lemma {:induction false} SilenceEffect(s: State, keys: seq<Text>, k: Text)
    ensures var t := ApplyAll(s, SilenceActions(keys));
            && t == s.(devices := t.devices)
            && Lookup(t, k) == if k in keys && k in s.devices then Some(Silenced(s.devices[k])) else Lookup(s, k)
    decreases keys
  {
    hide Next, Silenced;
    if keys != [] {
      SilenceOne(s, keys[0], k);
      SilenceEffect(Next(s, Silence(keys[0])), keys[1..], k);
      if k in s.devices {
        SilencedIs(s.devices[k]);
      }
    }
  }

  /** Worker w is lost, as far as device k goes: its three flags, every known device it lists, and nothing else. An unknown
    * worker leaves s as it is.
    */
  predicate Loses(s: State, t: State, w: u64, k: Text) {
    if w !in s.workers then t == s else
      && t == s.(workers := s.workers[w := s.workers[w].(lost := true, alive := false, fenced := true)], devices := t.devices)
      && t.devices.Keys == s.devices.Keys
      && (k in s.devices && k in s.workers[w].devices ==> Orphaned(s.devices[k], t.devices[k]))
      && (k in s.devices && k !in s.workers[w].devices ==> t.devices[k] == s.devices[k])
  }

  lemma LossEffect(s: State, w: u64, k: Text)
    ensures Loses(s, Step(s, MarkLost(w)), w, k)
  {
    if w in s.workers {
      var f := Next(s, Fence(w));
      var keys := s.workers[w].devices;
      assert f == s.(workers := s.workers[w := s.workers[w].(lost := true, alive := false, fenced := true)]);
      hide Next, Silenced, Orphaned;
      One(s, Fence(w));
      ApplyConcat(s, [Fence(w)], SilenceActions(keys));
      forall j ensures j in Step(s, MarkLost(w)).devices <==> j in s.devices {
        SilenceEffect(f, keys, j);
      }
      SilenceEffect(f, keys, k);
      if k in s.devices {
        SilencedIs(s.devices[k]);
      }
    }
  }

  // ---- Heartbeats ----

  /** A heartbeat of another epoch, an unknown worker or another boot leaves s as it is; any other touches three fields. */
  predicate Beats(s: State, t: State, w: u64, boot: u64, epoch: u64, now: Timestamp) {
    t == if epoch == s.epoch && w in s.workers && s.workers[w].boot == boot
         then s.(workers := s.workers[w := s.workers[w].(lastHeartbeat := now, alive := true, lost := false)])
         else s
  }

  lemma HeartbeatEffect(s: State, w: u64, boot: u64, epoch: u64, now: Timestamp)
    ensures PlanOf(s, Heartbeat(w, boot, epoch, now)).status
            == if epoch != s.epoch then Stale else if w !in s.workers then NotFound
               else if s.workers[w].boot != boot then Stale else Ok
    ensures Beats(s, Step(s, Heartbeat(w, boot, epoch, now)), w, boot, epoch, now)
  {
    if epoch == s.epoch && w in s.workers && s.workers[w].boot == boot {
      One(s, Heart(w, now));
    }
  }

  // ---- Administration ----

  /** The eligibility and reasons that a device record alone calls for. */
  function Standing(d: DeviceState): (Eligibility, seq<Reason>) {
    if d.quarantined then (Eligibility.QUARANTINED, [Reason.QUARANTINE])
    else if d.drain != DrainState.ACTIVE then (Eligibility.DRAINING, [Reason.DRAIN_POLICY])
    else if !d.isFresh then (Eligibility.STALE, [Reason.STALE_OBSERVATION])
    else if !d.present then (Eligibility.INELIGIBLE, [Reason.DEVICE_DISAPPEARANCE])
    else if !d.coreValidationOk then (Eligibility.INELIGIBLE, [Reason.CUDA_UNAVAILABLE])
    else if d.health == HealthState.HEALTHY then (Eligibility.ELIGIBLE, [])
    else if d.health == HealthState.DEGRADED then (Eligibility.DEGRADED_ELIGIBLE, [Reason.HEALTH_FAILURE])
    else if d.health == HealthState.RECOVERING then (Eligibility.STALE, [Reason.STALE_OBSERVATION])
    else if d.health == HealthState.QUARANTINED then (Eligibility.QUARANTINED, [Reason.QUARANTINE])
    else if d.health == HealthState.DRAINING || d.health == HealthState.DRAINED
    then (Eligibility.DRAINING, [Reason.DRAIN_POLICY])
    else (Eligibility.INELIGIBLE, [Reason.HEALTH_FAILURE])
  }

  /** e is d on its feet again: with the eligibility and reasons its record calls for. */
  predicate Restated(d: DeviceState, e: DeviceState) { e == d.(eligibility := Standing(d).0, reasons := Standing(d).1) }

  lemma RecomputeRestates(d: DeviceState)
    ensures Restated(d, Recompute(d))
  {
  }

  /** One record more, and the log the last 10000 of all. */
  predicate Logged(s: State, t: State, rs: seq<ChangeRecord>) { t.records == s.records + rs && t.log == PushAll(s.log, rs) }

  /** t is s but for device k, and the log. */
  predicate OnlyDevice(s: State, t: State, k: Text, e: DeviceState) {
    t == s.(devices := s.devices[k := e], log := t.log, records := t.records)
  }

  function DrainText(d: DrainState): string {
    if d == DrainState.DRAINING then "DRAINING" else if d == DrainState.DRAINED then "DRAINED" else "ACTIVE"
  }

  /** A drain: nothing for an unknown device or one already in that state, otherwise the axis, the eligibility that follows,
    * and one record.
    */
  predicate Drains(s: State, t: State, k: Text, to: DrainState, now: Timestamp) {
    if k !in s.devices || s.devices[k].drain == to then t == s else
      var d := s.devices[k];
      && k in t.devices && Restated(d.(drain := to), t.devices[k]) && OnlyDevice(s, t, k, t.devices[k])
      && Logged(s, t, [ChangeRecord(
           if to == DrainState.ACTIVE then ChangeKind.DRAIN_COMPLETED else ChangeKind.DRAIN_INITIATED,
           d.deviceId, now, d.generation, s.epoch, Ascii("drain state changed"), Ascii(DrainText(d.drain)),
           Ascii(DrainText(to)))])
  }

  lemma DrainEffect(s: State, k: Text, to: DrainState, now: Timestamp)
    ensures PlanOf(s, SetDrain(k, to, now)).status == if k in s.devices then Ok else NotFound
    ensures Drains(s, Step(s, SetDrain(k, to, now)), k, to, now)
  {
    hide Recompute, Standing, PushAll, Ascii;
    if k in s.devices && s.devices[k].drain != to {
      One(s, Drain(k, to, now));
      RecomputeRestates(s.devices[k].(drain := to));
    }
  }

  /** A quarantine: nothing for an unknown device or a generation older than the device's, otherwise the record given, the
    * eligibility that follows, and one record when the device was not quarantined.
    */
  predicate Quarantines(s: State, t: State, k: Text, q: QuarantineRecord, now: Timestamp) {
    if k !in s.devices || q.generation < s.devices[k].generation then t == s else
      var d := s.devices[k];
      && k in t.devices && Restated(d.(quarantined := true, quarantine := q), t.devices[k])
      && OnlyDevice(s, t, k, t.devices[k])
      && Logged(s, t, if d.quarantined then [] else
           [ChangeRecord(ChangeKind.QUARANTINE_APPLIED, d.deviceId, now, d.generation, s.epoch, q.reason,
                         Ascii("false"), Ascii("true"))])
  }

  lemma QuarantineEffect(s: State, k: Text, q: QuarantineRecord, now: Timestamp)
    ensures PlanOf(s, SetQuarantine(k, q, now)).status
            == if k !in s.devices then NotFound
               else if q.generation < s.devices[k].generation then InvalidGeneration else Ok
    ensures Quarantines(s, Step(s, SetQuarantine(k, q, now)), k, q, now)
  {
    hide Recompute, Standing, PushAll, Ascii;
    if k in s.devices && q.generation >= s.devices[k].generation {
      One(s, Hold(k, q, now));
      RecomputeRestates(s.devices[k].(quarantined := true, quarantine := q));
    }
  }

  const CLEARED: QuarantineRecord := QuarantineRecord([], [], 0, 0, 0, 0)

  /** A clearance: nothing for another epoch, an unknown device or one that is not quarantined, otherwise the quarantine
    * emptied, the eligibility that follows, and one record.
    */
  predicate Clears(s: State, t: State, k: Text, epoch: u64, now: Timestamp) {
    if epoch != s.epoch || k !in s.devices || !s.devices[k].quarantined then t == s else
      var d := s.devices[k];
      && k in t.devices && Restated(d.(quarantined := false, quarantine := CLEARED), t.devices[k])
      && OnlyDevice(s, t, k, t.devices[k])
      && Logged(s, t, [ChangeRecord(ChangeKind.QUARANTINE_CLEARED, d.deviceId, now, d.generation, s.epoch,
                                    Ascii("quarantine cleared"), Ascii("true"), Ascii("false"))])
  }

  lemma ClearEffect(s: State, k: Text, epoch: u64, now: Timestamp)
    ensures PlanOf(s, ClearQuarantine(k, epoch, now)).status
            == if epoch != s.epoch then Stale
               else if k !in s.devices || !s.devices[k].quarantined then NotFound else Ok
    ensures Clears(s, Step(s, ClearQuarantine(k, epoch, now)), k, epoch, now)
  {
    hide Recompute, Standing, PushAll, Ascii;
    if epoch == s.epoch && k in s.devices && s.devices[k].quarantined {
      One(s, Release(k, now));
      RecomputeRestates(s.devices[k].(quarantined := false, quarantine := CLEARED));
    }
  }
}
