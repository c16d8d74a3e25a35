/** The store itself: maps updated in place, one call at a time. */
module FleetStore {
  import opened Basics
  import opened Identity
  import opened Device
  import opened Pipeline
  import opened Fleet

  datatype Accounting = Accounting(
    registeredWorkers: nat, liveWorkers: nat, staleWorkers: nat, devices: nat, eligibleDevices: nat,
    degradedDevices: nat, quarantinedDevices: nat, drainedDevices: nat, activeRegistrations: nat, acceptedObservations: nat)

  const NO_ACCOUNTING: Accounting := Accounting(0, 0, 0, 0, 0, 0, 0, 0, 0, 0)

  /** A consistent copy of the store. */
  datatype Snapshot = Snapshot(
    coordinator: u64, epoch: u64, fleetGeneration: u64, nodeGeneration: u64,
    nodes: map<u64, NodeRecord>, workers: map<u64, WorkerRecord>, devices: map<Text, DeviceState>,
    log: seq<ChangeRecord>, accounting: Accounting)

  predicate Live(wr: WorkerRecord) { wr.alive && !wr.lost && !wr.fenced }

  function WorkersWhere(ws: map<u64, WorkerRecord>, live: bool): set<u64> {
    set w | w in ws && Live(ws[w]) == live
  }

  function DevicesIn(ds: map<Text, DeviceState>, e: Eligibility): set<Text> {
    set k | k in ds && ds[k].eligibility == e
  }

  /** The counters as the sizes of the sets they name. */
  function AccountingOf(s: State): Accounting {
    Accounting(|s.workers|, |WorkersWhere(s.workers, true)|, |WorkersWhere(s.workers, false)|, |s.devices|,
               |DevicesIn(s.devices, Eligibility.ELIGIBLE)|, |DevicesIn(s.devices, Eligibility.DEGRADED_ELIGIBLE)|,
               |DevicesIn(s.devices, Eligibility.QUARANTINED)|, |DevicesIn(s.devices, Eligibility.DRAINING)|,
               |WorkersWhere(s.workers, true)|, s.acceptedCount)
  }

  function SnapshotOf(s: State): Snapshot {
    Snapshot(s.coordinator, s.epoch, s.fleetGeneration, s.nodeGeneration, s.nodes, s.workers, s.devices, s.log,
             AccountingOf(s))
  }

  /** A device as it is after recovery: never fresh, and held back until it is observed again. */
  function Recovered(d: DeviceState): DeviceState {
    var e := d.(isFresh := false);
    if e.quarantined then e.(eligibility := Eligibility.QUARANTINED)
    else if e.drain != DrainState.ACTIVE then e.(eligibility := Eligibility.DRAINING)
    else e.(eligibility := Eligibility.STALE, reasons := [Reason.STALE_OBSERVATION])
  }

  function RecoverAll(ds: map<Text, DeviceState>): map<Text, DeviceState> {
    map k | k in ds :: Recovered(ds[k])
  }

  /** The state after restoring a snapshot. The history starts over: the recovered log, nothing accepted yet. */
  function Restored(s: Snapshot): State {
    State(s.coordinator, s.epoch, s.fleetGeneration, s.nodeGeneration, s.nodes, s.workers, RecoverAll(s.devices),
          s.log, 0, s.log, [], {})
  }

  lemma Idle(s: State)
    ensures ApplyAll(s, []) == s
  {
  }

  lemma Holding(s: State, k: Text, q: QuarantineRecord, now: Timestamp)
    requires k in s.devices
    ensures Next(s, Hold(k, q, now)) == HoldNext(s, k, q, now)
  {
    hide HoldNext;
  }

  lemma Releasing(s: State, k: Text, now: Timestamp)
    requires k in s.devices
    ensures Next(s, Release(k, now)) == ReleaseNext(s, k, now)
  {
    hide ReleaseNext;
  }

  class FleetStateStore {
    var coordinator: u64
    var epoch: u64
    var fleetGeneration: u64
    var nodeGeneration: u64
    var nodes: map<u64, NodeRecord>
    var workers: map<u64, WorkerRecord>
    var devices: map<Text, DeviceState>
    var log: seq<ChangeRecord>
    var acceptedCount: nat
    ghost var records: seq<ChangeRecord>
    ghost var accepts: seq<Acceptance>
    ghost var retired: set<(u64, u64)>

    ghost function Abs(): State
      reads this
    {
      State(coordinator, epoch, fleetGeneration, nodeGeneration, nodes, workers, devices, log, acceptedCount,
            records, accepts, retired)
    }

    constructor (coordinator: u64, epoch: u64)
      ensures Abs() == Initial(coordinator, epoch)
    {
      this.coordinator := coordinator;
      this.epoch := epoch;
      fleetGeneration := 1;
      nodeGeneration := 1;
      nodes := map[];
      workers := map[];
      devices := map[];
      log := [];
      acceptedCount := 0;
      records := [];
      accepts := [];
      retired := {};
    }

    method Record(r: ChangeRecord)
      modifies this`log, this`records
      ensures log == PushAll(old(log), [r]) && records == old(records) + [r]
    {
      PushOne(log, r);
      log := log + [r];
      if |log| > MAX_LOG {
        log := log[1..];
      }
      records := records + [r];
    }

    method RollEpoch(ne: u64) returns (status: Status)
      modifies this
      ensures var p := PlanOf(old(Abs()), Op.RollEpoch(ne));
              status == p.status && Abs() == ApplyAll(old(Abs()), p.actions)
    {
      hide RegisterPlan, MarkLostPlan, IngestPlan, HeartbeatPlan, DrainPlan, QuarantinePlan, ClearPlan, AdmitNext,
           ReaffirmNext, AcceptNext, VanishNext, DrainNext, HoldNext, ReleaseNext;
      if ne <= epoch {
        return Stale;
      }
      epoch := ne;
      fleetGeneration := NextGeneration(fleetGeneration);
      One(old(Abs()), Roll(ne));
      return Ok;
    }

    /** Registers a worker; a success yields the registration id. */
    method RegisterWorker(reg: Registration, now: Timestamp) returns (r: Result<u64>)
      modifies this
      ensures var p := PlanOf(old(Abs()), Register(reg, now));
              && r == (if p.status == Ok then Success(NextGeneration(reg.registrationGeneration)) else Failure(p.status))
              && Abs() == ApplyAll(old(Abs()), p.actions)
    {
      hide MarkLostPlan, IngestPlan, HeartbeatPlan, DrainPlan, QuarantinePlan, ClearPlan, AcceptNext, VanishNext,
           DrainNext, HoldNext, ReleaseNext;
      ghost var s := Abs();
      if reg.epoch != epoch {
        return Failure(Stale);
      }
      if reg.protocolVersion == 0 {
        return Failure(ProtocolMismatch);
      }
      if reg.worker in workers {
        var wr := workers[reg.worker];
        if wr.boot == reg.boot {
          if reg.registrationGeneration <= wr.registrationGeneration {
            return Failure(Stale);
          }
          workers := workers[reg.worker := wr.(registrationGeneration := reg.registrationGeneration,
                                               lastHeartbeat := now, alive := true, lost := false,
                                               devices := reg.devices)];
          One(s, Reaffirm(reg.worker, reg.registrationGeneration, reg.devices, now));
          return Success(NextGeneration(reg.registrationGeneration));
        }
        if !wr.fenced && !wr.lost && wr.alive {
          return Failure(Duplicate);
        }
        retired := retired + {(reg.worker, wr.boot)};
      }
      var record := WorkerRecord(
        reg.worker, reg.boot, reg.registrationGeneration, reg.node, NextGeneration(reg.worker), reg.agentVersion,
        reg.protocolVersion, reg.osPlatform, reg.driverVersion, reg.devices, reg.capabilities, now, now, reg.epoch,
        true, false, false);
      workers := workers[reg.worker := record];
      if reg.node !in nodes {
        nodes := nodes[reg.node := NodeRecord(reg.node, 1, now)];
      }
      One(s, Admit(record, now));
      return Success(NextGeneration(reg.registrationGeneration));
    }

    method MarkWorkerLost(w: u64)
      modifies this
      ensures Abs() == Step(old(Abs()), MarkLost(w))
    {
      hide RegisterPlan, IngestPlan, HeartbeatPlan, DrainPlan, QuarantinePlan, ClearPlan, AdmitNext, ReaffirmNext,
           AcceptNext, VanishNext, DrainNext, HoldNext, ReleaseNext;
      if w !in workers {
        return;
      }
      ghost var s := Abs();
      var keys := workers[w].devices;
      workers := workers[w := workers[w].(lost := true, alive := false, fenced := true)];
      assert Abs() == Next(s, Fence(w));
      ghost var t := Abs();
      for i := 0 to |keys|
        invariant ApplyAll(t, SilenceActions(keys)) == ApplyAll(Abs(), SilenceActions(keys[i..]))
      {
        ghost var u := Abs();
        var k := keys[i];
        if k in devices {
          var d := devices[k].(isFresh := false);
          if d.present {
            d := d.(present := false, health := HealthState.LOST, eligibility := Eligibility.INELIGIBLE,
                    reasons := [Reason.WORKER_RESTART]);
          }
          devices := devices[k := d];
        }
        assert Abs() == Next(u, Silence(k));
        assert SilenceActions(keys[i..]) == [Silence(k)] + SilenceActions(keys[i + 1..]);
        ApplyConcat(u, [Silence(k)], SilenceActions(keys[i + 1..]));
        One(u, Silence(k));
      }
      assert keys[|keys|..] == [];
      One(s, Fence(w));
      ApplyConcat(s, [Fence(w)], SilenceActions(keys));
    }

    method Heartbeat(w: u64, boot: u64, epoch: u64, now: Timestamp) returns (status: Status)
      modifies this
      ensures var p := PlanOf(old(Abs()), Op.Heartbeat(w, boot, epoch, now));
              status == p.status && Abs() == ApplyAll(old(Abs()), p.actions)
    {
      hide RegisterPlan, MarkLostPlan, IngestPlan, DrainPlan, QuarantinePlan, ClearPlan, AdmitNext, ReaffirmNext,
           AcceptNext, VanishNext, DrainNext, HoldNext, ReleaseNext;
      if epoch != this.epoch {
        return Stale;
      }
      if w !in workers {
        return NotFound;
      }
      if workers[w].boot != boot {
        return Stale;
      }
      workers := workers[w := workers[w].(lastHeartbeat := now, alive := true, lost := false)];
      One(old(Abs()), Heart(w, now));
      return Ok;
    }

    method SetDrain(k: Text, to: DrainState, now: Timestamp) returns (status: Status)
      modifies this
      ensures var p := PlanOf(old(Abs()), Op.SetDrain(k, to, now));
              status == p.status && Abs() == ApplyAll(old(Abs()), p.actions)
    {
      hide RegisterPlan, MarkLostPlan, IngestPlan, HeartbeatPlan, QuarantinePlan, ClearPlan, AdmitNext, ReaffirmNext,
           AcceptNext, VanishNext, HoldNext, ReleaseNext, PushAll, Recompute, DrainRecord, QuarantineChange,
           ClearChange;
      if k !in devices {
        return NotFound;
      }
      var d := devices[k];
      if d.drain == to {
        return Ok;
      }
      devices := devices[k := Recompute(d.(drain := to))];
      Record(DrainRecord(d, to, now, epoch));
      One(old(Abs()), Drain(k, to, now));
      return Ok;
    }

    method SetQuarantine(k: Text, q: QuarantineRecord, now: Timestamp) returns (status: Status)
      modifies this
      ensures var p := PlanOf(old(Abs()), Op.SetQuarantine(k, q, now));
              status == p.status && Abs() == ApplyAll(old(Abs()), p.actions)
    {
      hide RegisterPlan, MarkLostPlan, IngestPlan, HeartbeatPlan, DrainPlan, ClearPlan, PushAll, Recompute, QuarantineChange,
           ApplyAll, Next;
      Idle(old(Abs()));
      if k !in devices {
        return NotFound;
      }
      var d := devices[k];
      if q.generation < d.generation {
        return InvalidGeneration;
      }
      devices := devices[k := Recompute(d.(quarantined := true, quarantine := q))];
      if !d.quarantined {
        Record(QuarantineChange(d, q.reason, now, epoch));
      }
      assert old(records) + [] == old(records);
      PushNone(old(log));
      Holding(old(Abs()), k, q, now);
      One(old(Abs()), Hold(k, q, now));
      return Ok;
    }

    method ClearQuarantine(k: Text, epoch: u64, now: Timestamp) returns (status: Status)
      modifies this
      ensures var p := PlanOf(old(Abs()), Op.ClearQuarantine(k, epoch, now));
              status == p.status && Abs() == ApplyAll(old(Abs()), p.actions)
    {
      hide RegisterPlan, MarkLostPlan, IngestPlan, HeartbeatPlan, DrainPlan, QuarantinePlan, PushAll, Recompute, ClearChange,
           ApplyAll, Next;
      Idle(old(Abs()));
      if epoch != this.epoch {
        return Stale;
      }
      if k !in devices {
        return NotFound;
      }
      var d := devices[k];
      if !d.quarantined {
        return NotFound;
      }
      devices := devices[k := Recompute(d.(quarantined := false, quarantine := NO_QUARANTINE))];
      Record(ClearChange(d, now, this.epoch));
      Releasing(old(Abs()), k, now);
      One(old(Abs()), Release(k, now));
      return Ok;
    }

    method RecordAll(rs: seq<ChangeRecord>)
      modifies this`log, this`records
      ensures log == PushAll(old(log), rs) && records == old(records) + rs
    {
      for i := 0 to |rs|
        invariant PushAll(log, rs[i..]) == PushAll(old(log), rs)
        invariant records == old(records) + rs[..i]
      {
        PushOne(log, rs[i]);
        assert rs[i..][1..] == rs[i + 1..];
        Record(rs[i]);
      }
      assert rs[|rs|..] == [] && rs[..|rs|] == rs;
    }

    /** One observation that passed the gates becomes the device's state. */
    method AcceptOne(w: u64, o: Observation, policy: Policy, now: Timestamp) returns (applied: Applied)
      requires w in workers
      modifies this
      ensures Abs() == AcceptNext(old(Abs()), w, o, policy, now)
      ensures applied == AppliedTo(old(Abs()), o, policy, now)
    {
      hide ApplyObservation, PushAll, CanonicalKey, AcceptanceOf;
      ghost var s := Abs();
      var key := Key(o);
      hide Key;
      var known := key in devices;
      applied := ComputeObservation(if known then devices[key] else BLANK, o, policy, now, epoch);
      applied := applied.(state := applied.state.(healthGeneration := o.healthGeneration));
      assert applied == AppliedTo(s, o, policy, now);
      hide AppliedTo;
      devices := devices[key := applied.state];
      assert Abs() == WithDevice(s, key, applied.state);
      RecordAll(applied.changes);
      ghost var t := Abs();
      assert t == Emit(WithDevice(s, key, applied.state), applied.changes) && key == Key(o) && t.workers == s.workers;
      hide Emit, WithDevice;
      if !known {
        workers := workers[w := workers[w].(devices := workers[w].devices + [key])];
      }
      acceptedCount := acceptedCount + 1;
      accepts := accepts + [AcceptanceOf(w, o)];
    }

    /** Takes in a batch until its end or its first refusal; what was accepted before a refusal stays. */
    method TakeIn(w: u64, obs: seq<Observation>, policy: Policy, now: Timestamp)
      returns (status: Status, seen: set<Text>, last: Applied)
      requires w in workers
      modifies this
      ensures w in workers
      ensures var t := TakeAll(old(Abs()), w, obs, policy, now, NOTHING_APPLIED);
              && Abs() == ApplyAll(old(Abs()), t.actions)
              && status == t.status && (status == Ok ==> seen == t.seen && last == t.last)
    {
      hide AcceptNext, AppliedTo, CanonicalKey, Next;
      ghost var s := Abs();
      ghost var done: seq<Action> := [];
      seen := {};
      last := NOTHING_APPLIED;
      for i := 0 to |obs|
        invariant w in workers
        invariant Abs() == ApplyAll(s, done)
        invariant TakeAll(s, w, obs, policy, now, NOTHING_APPLIED)
                  == Continued(done, seen, TakeAll(Abs(), w, obs[i..], policy, now, last))
      {
        ghost var t := Abs();
        var o := obs[i];
        assert obs[i..][1..] == obs[i + 1..];
        assert done + [] == done;
        if o.epoch != epoch {
          return Stale, seen, last;
        }
        if o.workerBoot != workers[w].boot {
          return Stale, seen, last;
        }
        if o.worker != w {
          return IdentityMismatch, seen, last;
        }
        var key := Key(o);
        var skip := false;
        if key in devices && o.workerBoot == devices[key].workerBoot {
          if o.observationGeneration <= devices[key].observationGeneration {
            skip := true;
          } else if o.deviceGeneration < devices[key].generation {
            return InvalidGeneration, seen, last;
          } else if o.healthGeneration < devices[key].healthGeneration {
            return InvalidGeneration, seen, last;
          }
        }
        if !skip {
          assert Fleet.Judge(t, w, o) == Taken;
          AcceptKeepsStanding(t, w, o, policy, now);
          AcceptIsNext(t, w, o, policy, now);
          last := AcceptOne(w, o, policy, now);
          ApplySnoc(s, done, Accept(w, o, policy, now));
          ContinuedOnce(done, seen, Accept(w, o, policy, now), key, TakeAll(Abs(), w, obs[i + 1..], policy, now, last));
          done := done + [Accept(w, o, policy, now)];
          seen := seen + {key};
        }
      }
      assert obs[|obs|..] == [];
      status := Ok;
      assert done + [] == done && seen + {} == seen;
    }

    /** Ingests one worker's full device snapshot. */
    method IngestSnapshot(w: u64, obs: seq<Observation>, policy: Policy, now: Timestamp) returns (r: Result<Applied>)
      modifies this
      ensures var p := PlanOf(old(Abs()), Op.Ingest(w, obs, policy, now));
              && Abs() == ApplyAll(old(Abs()), p.actions)
              && r == (if p.status == Ok then Success(TakeAll(old(Abs()), w, obs, policy, now, NOTHING_APPLIED).last)
                       else Failure(p.status))
    {
      hide RegisterPlan, MarkLostPlan, HeartbeatPlan, DrainPlan, QuarantinePlan, ClearPlan, AdmitNext, ReaffirmNext,
           AcceptNext, VanishNext, DrainNext, HoldNext, ReleaseNext, TakeAll, SweepActions;
      if w !in workers {
        return Failure(NotFound);
      }
      if workers[w].lost || workers[w].fenced {
        return Failure(NotAuthoritative);
      }
      ghost var s := Abs();
      ghost var t := TakeAll(s, w, obs, policy, now, NOTHING_APPLIED);
      var status, seen, last := TakeIn(w, obs, policy, now);
      if status != Ok {
        return Failure(status);
      }
      ghost var u := Abs();
      var keys := workers[w].devices;
      Sweep(keys, seen, now);
      ghost var v := Abs();
      workers := workers[w := workers[w].(lastHeartbeat := now, alive := true)];
      assert Abs() == Next(v, Beat(w, now));
      hide Next;
      ghost var sweep := SweepActions(keys, seen, now);
      ApplyConcat(s, t.actions, sweep);
      ApplySnoc(s, t.actions + sweep, Beat(w, now));
      return Success(last);
    }

    /** Listed devices that the batch did not renew are marked lost, not dropped. */
    method Sweep(keys: seq<Text>, seen: set<Text>, now: Timestamp)
      modifies this
      ensures Abs() == ApplyAll(old(Abs()), SweepActions(keys, seen, now)) && workers == old(workers)
    {
      hide PushAll, VanishRecord, AcceptNext, AdmitNext, ReaffirmNext, DrainNext, HoldNext, ReleaseNext;
      for i := 0 to |keys|
        invariant workers == old(workers)
        invariant ApplyAll(Abs(), SweepActions(keys[i..], seen, now)) == ApplyAll(old(Abs()), SweepActions(keys, seen, now))
      {
        ghost var u := Abs();
        var k := keys[i];
        SweepStep(keys[i..], seen, now);
        assert keys[i..][1..] == keys[i + 1..];
        if k !in seen {
          if k in devices {
            Record(VanishRecord(devices[k], now, epoch));
            devices := devices[k := devices[k].(present := false, isFresh := false, health := HealthState.LOST,
                                                eligibility := Eligibility.INELIGIBLE,
                                                reasons := [Reason.DEVICE_DISAPPEARANCE])];
          }
          assert Abs() == Next(u, Vanish(k, now));
          ApplyConcat(u, [Vanish(k, now)], SweepActions(keys[i + 1..], seen, now));
          One(u, Vanish(k, now));
        }
      }
      assert keys[|keys|..] == [];
    }

    static method RecoverDevice(d: DeviceState) returns (e: DeviceState)
      ensures e == Recovered(d)
    {
      e := d.(isFresh := false);
      if e.quarantined {
        e := e.(eligibility := Eligibility.QUARANTINED);
      } else if e.drain != DrainState.ACTIVE {
        e := e.(eligibility := Eligibility.DRAINING);
      } else {
        e := e.(eligibility := Eligibility.STALE, reasons := [Reason.STALE_OBSERVATION]);
      }
    }

    /** Every device of a recovered map, one after another. */
    static method RecoverDevices(ds: map<Text, DeviceState>) returns (r: map<Text, DeviceState>)
      ensures r == RecoverAll(ds)
    {
      hide Recovered;
      r := ds;
      var todo := ds.Keys;
      while todo != {}
        invariant todo <= ds.Keys == r.Keys
        invariant forall k :: k in ds ==> r[k] == if k in todo then ds[k] else Recovered(ds[k])
        decreases |todo|
      {
        var k :| k in todo;
        todo := todo - {k};
        var d := RecoverDevice(r[k]);
        r := r[k := d];
      }
    }

    /** Recovers a persisted snapshot; what it says about devices is never treated as fresh. */
    method Restore(s: Snapshot)
      modifies this
      ensures Abs() == Restored(s)
    {
      hide RecoverAll;
      coordinator := s.coordinator;
      epoch := s.epoch;
      fleetGeneration := s.fleetGeneration;
      nodeGeneration := s.nodeGeneration;
      nodes := s.nodes;
      workers := s.workers;
      devices := RecoverDevices(s.devices);
      log := s.log;
      acceptedCount := 0;
      records := s.log;
      accepts := [];
      retired := {};
    }

    method ComputeAccounting() returns (a: Accounting)
      ensures a == AccountingOf(Abs())
    {
      var registered, live, stale := CountWorkers();
      var eligible, degraded, quarantined, drained := CountDevices();
      a := Accounting(registered, live, stale, |devices|, eligible, degraded, quarantined, drained, live, acceptedCount);
    }

    method CountWorkers() returns (registered: nat, live: nat, stale: nat)
      ensures registered == |workers|
      ensures live == |WorkersWhere(workers, true)| && stale == |WorkersWhere(workers, false)|
    {
      registered, live, stale := 0, 0, 0;
      var todo := workers.Keys;
      ghost var done: set<u64> := {};
      while todo != {}
        invariant done + todo == workers.Keys && done !! todo
        invariant registered == |done|
        invariant live == |WorkersAmong(workers, done, true)| && stale == |WorkersAmong(workers, done, false)|
        decreases |todo|
      {
        var w :| w in todo;
        WorkersAmongGrow(workers, done, w);
        todo := todo - {w};
        done := done + {w};
        registered := registered + 1;
        if workers[w].alive && !workers[w].lost && !workers[w].fenced {
          live := live + 1;
        }
        if workers[w].lost || workers[w].fenced || !workers[w].alive {
          stale := stale + 1;
        }
      }
      assert done == workers.Keys;
      WorkersAmongAll(workers);
    }

    method CountDevices() returns (eligible: nat, degraded: nat, quarantined: nat, drained: nat)
      ensures eligible == |DevicesIn(devices, Eligibility.ELIGIBLE)|
      ensures degraded == |DevicesIn(devices, Eligibility.DEGRADED_ELIGIBLE)|
      ensures quarantined == |DevicesIn(devices, Eligibility.QUARANTINED)|
      ensures drained == |DevicesIn(devices, Eligibility.DRAINING)|
    {
      hide Among, DevicesIn;
      AmongNone(devices);
      eligible, degraded, quarantined, drained := 0, 0, 0, 0;
      var todo := devices.Keys;
      ghost var done: set<Text> := {};
      while todo != {}
        invariant done + todo == devices.Keys && done !! todo
        invariant eligible == |Among(devices, done, Eligibility.ELIGIBLE)|
        invariant degraded == |Among(devices, done, Eligibility.DEGRADED_ELIGIBLE)|
        invariant quarantined == |Among(devices, done, Eligibility.QUARANTINED)|
        invariant drained == |Among(devices, done, Eligibility.DRAINING)|
        decreases |todo|
      {
        var k :| k in todo;
        AmongGrows(devices, done, k, Eligibility.ELIGIBLE);
        AmongGrows(devices, done, k, Eligibility.DEGRADED_ELIGIBLE);
        AmongGrows(devices, done, k, Eligibility.QUARANTINED);
        AmongGrows(devices, done, k, Eligibility.DRAINING);
        todo := todo - {k};
        done := done + {k};
        var e := devices[k].eligibility;
        if e == Eligibility.ELIGIBLE {
          eligible := eligible + 1;
        } else if e == Eligibility.DEGRADED_ELIGIBLE {
          degraded := degraded + 1;
        } else if e == Eligibility.QUARANTINED {
          quarantined := quarantined + 1;
        } else if e == Eligibility.DRAINING {
          drained := drained + 1;
        }
      }
      assert done == devices.Keys;
      AmongAll(devices, Eligibility.ELIGIBLE);
      AmongAll(devices, Eligibility.DEGRADED_ELIGIBLE);
      AmongAll(devices, Eligibility.QUARANTINED);
      AmongAll(devices, Eligibility.DRAINING);
    }

    method TakeSnapshot() returns (s: Snapshot)
      ensures s == SnapshotOf(Abs())
    {
      var a := ComputeAccounting();
      s := Snapshot(coordinator, epoch, fleetGeneration, nodeGeneration, nodes, workers, devices, log, a);
    }
  }

  function WorkersAmong(ws: map<u64, WorkerRecord>, done: set<u64>, live: bool): set<u64> {
    set w | w in done && w in ws && Live(ws[w]) == live
  }

  lemma WorkersAmongGrow(ws: map<u64, WorkerRecord>, done: set<u64>, w: u64)
    requires w in ws && w !in done
    ensures forall live ::
              |WorkersAmong(ws, done + {w}, live)| == |WorkersAmong(ws, done, live)| + if Live(ws[w]) == live then 1 else 0
  {
    forall live ensures |WorkersAmong(ws, done + {w}, live)|
                        == |WorkersAmong(ws, done, live)| + if Live(ws[w]) == live then 1 else 0
    {
      if Live(ws[w]) == live {
        assert WorkersAmong(ws, done + {w}, live) == WorkersAmong(ws, done, live) + {w};
      } else {
        assert WorkersAmong(ws, done + {w}, live) == WorkersAmong(ws, done, live);
      }
    }
  }

  lemma WorkersAmongAll(ws: map<u64, WorkerRecord>)
    ensures forall live :: WorkersAmong(ws, ws.Keys, live) == WorkersWhere(ws, live)
  {
  }

  function Among(ds: map<Text, DeviceState>, done: set<Text>, e: Eligibility): set<Text> {
    set k | k in done && k in ds && ds[k].eligibility == e
  }

  lemma AmongNone(ds: map<Text, DeviceState>)
    ensures forall e :: Among(ds, {}, e) == {}
  {
  }

  lemma AmongGrows(ds: map<Text, DeviceState>, done: set<Text>, k: Text, e: Eligibility)
    requires k in ds && k !in done
    ensures |Among(ds, done + {k}, e)| == |Among(ds, done, e)| + if ds[k].eligibility == e then 1 else 0
  {
    if ds[k].eligibility == e {
      assert Among(ds, done + {k}, e) == Among(ds, done, e) + {k};
    } else {
      assert Among(ds, done + {k}, e) == Among(ds, done, e);
    }
  }

  lemma AmongAll(ds: map<Text, DeviceState>, e: Eligibility)
    ensures Among(ds, ds.Keys, e) == DevicesIn(ds, e)
  {
  }

  // ---- Steps of the proofs above ----

  lemma SweepStep(keys: seq<Text>, seen: set<Text>, now: Timestamp)
    requires keys != []
    ensures keys[0] in seen ==> SweepActions(keys, seen, now) == SweepActions(keys[1..], seen, now)
    ensures keys[0] !in seen ==>
              SweepActions(keys, seen, now) == [Vanish(keys[0], now)] + SweepActions(keys[1..], seen, now)
  {
    assert [] + SweepActions(keys[1..], seen, now) == SweepActions(keys[1..], seen, now);
  }

  lemma PushOne(log: seq<ChangeRecord>, r: ChangeRecord)
    ensures PushAll(log, [r]) == Push(log, r)
  {
    assert [r][1..] == [];
  }

  lemma PushNone(log: seq<ChangeRecord>)
    ensures PushAll(log, []) == log
  {
  }

  /** A batch whose first part has been taken in. */
  ghost function Continued(done: seq<Action>, seen: set<Text>, t: Intake): Intake {
    Intake(done + t.actions, seen + t.seen, t.status, t.last)
  }

  lemma ContinuedOnce(done: seq<Action>, seen: set<Text>, a: Action, key: Text, t: Intake)
    ensures Continued(done, seen, t.(actions := [a] + t.actions, seen := {key} + t.seen))
            == Continued(done + [a], seen + {key}, t)
  {
    assert done + ([a] + t.actions) == (done + [a]) + t.actions;
    assert seen + ({key} + t.seen) == (seen + {key}) + t.seen;
  }

  lemma AcceptIsNext(s: State, w: u64, o: Observation, policy: Policy, now: Timestamp)
    ensures Next(s, Accept(w, o, policy, now)) == AcceptNext(s, w, o, policy, now)
  {
    hide AcceptNext;
  }
}
