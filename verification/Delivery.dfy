/** Delivering a batch to the store: a batch that is due is accepted whole, and leaves the store ready for the next. */
module Delivery {
  import opened Basics
  import opened Codec
  import opened Identity
  import opened Device
  import opened Pipeline
  import opened Fleet
  import opened FleetRuns
  import opened FleetFencing
  import opened FleetReplay
  import opened FleetBatch
  import opened Agent
  import ObservationCodec

  /** The authority and the generations of the next batch due from a worker. */
  datatype Due = Due(worker: u64, boot: u64, epoch: u64, observation: int, device: int, health: int)

  /** The worker is registered and unfenced, its boot is its own, and every device it was last to report holds older
    * evidence than the batch that is due.
    */
  predicate Prepared(s: State, due: Due) {
    && s.epoch == due.epoch
    && due.worker in s.workers
    && (var wr := s.workers[due.worker]; wr.boot == due.boot && wr.alive && !wr.fenced && !wr.lost)
    && (forall v :: v in s.workers && v != due.worker ==> s.workers[v].boot != due.boot)
    && (forall k :: k in s.devices ==> OlderThan(s.devices[k], due))
  }

  predicate OlderThan(d: DeviceState, due: Due) {
    d.workerBoot == due.boot ==>
      d.observationGeneration < due.observation && d.generation <= due.device && d.healthGeneration <= due.health
  }

  /** The observation is of the batch that is due. */
  predicate Bears(o: Observation, due: Due) {
    && o.worker == due.worker && o.workerBoot == due.boot && o.epoch == due.epoch
    && o.observationGeneration == due.observation && o.deviceGeneration == due.device && o.healthGeneration == due.health
  }

  predicate DistinctDevices(obs: seq<Observation>) {
    forall i, j :: 0 <= i < j < |obs| ==> Key(obs[i]) != Key(obs[j])
  }

  predicate DueBatch(obs: seq<Observation>, due: Due) {
    DistinctDevices(obs) && forall o :: o in obs ==> Bears(o, due)
  }

  function Later(due: Due): Due { due.(observation := due.observation + 1, device := due.device + 1) }

  // ---- Delivering one batch ----

  lemma DueTaken(s: State, due: Due, o: Observation)
    requires Prepared(s, due) && Bears(o, due)
    ensures Judge(s, due.worker, o) == Taken
  {
    hide CanonicalKey;
  }

  lemma JudgeElsewhere(s: State, w: u64, o: Observation, p: Observation, policy: Policy, now: Timestamp)
    requires w in s.workers && Key(o) != Key(p)
    ensures Judge(Next(s, Accept(w, o, policy, now)), w, p) == Judge(s, w, p)
  {
    hide CanonicalKey, AppliedTo, PushAll;
  }

  function AcceptAll(w: u64, obs: seq<Observation>, policy: Policy, now: Timestamp): seq<Action> {
    MapSeq((o: Observation) => Accept(w, o, policy, now), obs)
  }

  function Acceptances(w: u64, obs: seq<Observation>): seq<Acceptance> {
    MapSeq((o: Observation) => AcceptanceOf(w, o), obs)
  }

  lemma RestTaken(s: State, w: u64, obs: seq<Observation>, policy: Policy, now: Timestamp)
    requires w in s.workers && DistinctDevices(obs) && obs != []
    requires forall o :: o in obs ==> Judge(s, w, o) == Taken
    ensures var t := Next(s, Accept(w, obs[0], policy, now));
            && w in t.workers && DistinctDevices(obs[1..]) && forall o :: o in obs[1..] ==> Judge(t, w, o) == Taken
  {
    hide Judge, Next, CanonicalKey;
    var t := Next(s, Accept(w, obs[0], policy, now));
    StillListed(s, w, obs[0], policy, now);
    forall p | p in obs[1..] ensures Judge(t, w, p) == Taken {
      var i :| 0 <= i < |obs[1..]| && obs[1..][i] == p;
      assert obs[i + 1] == p && Key(obs[0]) != Key(obs[i + 1]);
      JudgeElsewhere(s, w, obs[0], p, policy, now);
    }
    forall i, j | 0 <= i < j < |obs[1..]| ensures Key(obs[1..][i]) != Key(obs[1..][j]) {
      assert Key(obs[i + 1]) != Key(obs[j + 1]);
    }
  }

  lemma AcceptAllCons(w: u64, obs: seq<Observation>, policy: Policy, now: Timestamp)
    requires obs != []
    ensures var rest := AcceptAll(w, obs[1..], policy, now);
            AcceptAll(w, obs, policy, now) == [Accept(w, obs[0], policy, now)] + rest
            && AcceptAll(w, obs, policy, now)[1..] == rest
    ensures Acceptances(w, obs) == [AcceptanceOf(w, obs[0])] + Acceptances(w, obs[1..])
  {
    hide AcceptanceOf;
  }

  lemma AcceptancesConcat(w: u64, a: seq<Observation>, b: seq<Observation>)
    ensures Acceptances(w, a + b) == Acceptances(w, a) + Acceptances(w, b)
  {
    hide AcceptanceOf;
  }

  /** Taking in observations adds their acceptances, in order. */
  lemma {:induction false} AcceptsGrow(s: State, w: u64, obs: seq<Observation>, policy: Policy, now: Timestamp)
    ensures ApplyAll(s, AcceptAll(w, obs, policy, now)).accepts == s.accepts + Acceptances(w, obs)
    decreases obs
  {
    hide Next, AcceptanceOf, AcceptAll, Acceptances;
    if obs == [] {
      NoAcceptances(w);
    } else {
      AcceptAllCons(w, obs, policy, now);
      AcceptsGrow(Next(s, Accept(w, obs[0], policy, now)), w, obs[1..], policy, now);
      OneAccepted(s, w, obs[0], policy, now);
    }
  }

  lemma NoAcceptances(w: u64)
    ensures Acceptances(w, []) == []
    ensures forall policy, now :: AcceptAll(w, [], policy, now) == []
  {
  }

  lemma OneAccepted(s: State, w: u64, o: Observation, policy: Policy, now: Timestamp)
    ensures Next(s, Accept(w, o, policy, now)).accepts == s.accepts + [AcceptanceOf(w, o)]
  {
    hide Next, AcceptanceOf, Emitted, PushAll;
    NextEmits(s, Accept(w, o, policy, now));
  }

  /** Observations of distinct devices, each of which would be taken now, are all taken. */
  lemma {:induction false} AllTaken(s: State, w: u64, obs: seq<Observation>, policy: Policy, now: Timestamp, last: Applied)
    requires w in s.workers && DistinctDevices(obs)
    requires forall o :: o in obs ==> Judge(s, w, o) == Taken
    ensures var t := TakeAll(s, w, obs, policy, now, last);
            t.status == Ok && t.actions == AcceptAll(w, obs, policy, now)
    ensures Reached(s, w, obs, policy, now) == |obs|
    decreases obs
  {
    hide Judge, Next, CanonicalKey, AppliedTo, DistinctDevices;
    if obs != [] {
      var o := obs[0];
      assert obs[0] in obs;
      RestTaken(s, w, obs, policy, now);
      AllTaken(Next(s, Accept(w, o, policy, now)), w, obs[1..], policy, now, AppliedTo(s, o, policy, now));
      AcceptAllCons(w, obs, policy, now);
    }
  }

  /** With distinct devices, a device's own history of a batch is the one observation of it. */
  lemma {:induction false} FoldDistinct(cur: Option<DeviceState>, obs: seq<Observation>, i: nat, policy: Policy, now: Timestamp, epoch: u64)
    requires i < |obs| && DistinctDevices(obs) && !Repeats(cur, obs[i])
    ensures KeyFold(cur, Key(obs[i]), obs, policy, now, epoch) == Folded(Some(FleetBatch.Renewed(cur, obs[i], policy, now, epoch)), 1)
    decreases obs
  {
    hide CanonicalKey, FleetBatch.Renewed, Repeats;
    var k := Key(obs[i]);
    if i == 0 {
      forall j | 0 <= j < |obs[1..]| ensures Key(obs[1..][j]) != k {
        assert Key(obs[0]) != Key(obs[j + 1]);
      }
      FoldNone(Some(FleetBatch.Renewed(cur, obs[0], policy, now, epoch)), k, obs[1..], policy, now, epoch);
    } else {
      assert Key(obs[0]) != Key(obs[i]);
      forall x, y | 0 <= x < y < |obs[1..]| ensures Key(obs[1..][x]) != Key(obs[1..][y]) {
        assert Key(obs[x + 1]) != Key(obs[y + 1]);
      }
      FoldDistinct(cur, obs[1..], i - 1, policy, now, epoch);
    }
  }

  lemma {:induction false} FoldNone(cur: Option<DeviceState>, k: Text, obs: seq<Observation>, policy: Policy, now: Timestamp, epoch: u64)
    requires forall j :: 0 <= j < |obs| ==> Key(obs[j]) != k
    ensures KeyFold(cur, k, obs, policy, now, epoch) == Folded(cur, 0)
    decreases obs
  {
    hide CanonicalKey, FleetBatch.Renewed, Repeats;
    if obs != [] {
      FoldNone(cur, k, obs[1..], policy, now, epoch);
    }
  }

  lemma DueTakenAll(s: State, due: Due, obs: seq<Observation>, policy: Policy, now: Timestamp)
    requires Prepared(s, due) && DueBatch(obs, due)
    ensures Reached(s, due.worker, obs, policy, now) == |obs|
    ensures var t := TakeAll(s, due.worker, obs, policy, now, NOTHING_APPLIED);
            t.status == Ok && t.actions == AcceptAll(due.worker, obs, policy, now)
    ensures ApplyAll(s, AcceptAll(due.worker, obs, policy, now)).accepts == s.accepts + Acceptances(due.worker, obs)
  {
    hide Judge, Next, CanonicalKey, AppliedTo, Bears, Acceptances, AcceptAll;
    AcceptsGrow(s, due.worker, obs, policy, now);
    forall o | o in obs ensures Judge(s, due.worker, o) == Taken {
      DueTaken(s, due, o);
    }
    AllTaken(s, due.worker, obs, policy, now, NOTHING_APPLIED);
  }

  /** The batch that is due is accepted whole, in order. */
  lemma DueAccepted(s: State, due: Due, obs: seq<Observation>, policy: Policy, now: Timestamp)
    requires Prepared(s, due) && DueBatch(obs, due)
    ensures var op := Ingest(due.worker, obs, policy, now);
            PlanOf(s, op).status == Ok && Step(s, op).accepts == s.accepts + Acceptances(due.worker, obs)
  {
    hide Judge, Next, CanonicalKey, AppliedTo, TakeAll, SweepActions, Acceptances, DueBatch;
    var w := due.worker;
    DueTakenAll(s, due, obs, policy, now);
    var t := TakeAll(s, w, obs, policy, now, NOTHING_APPLIED);
    var u := ApplyAll(s, t.actions);
    var added := TakeAllLists(s, w, obs, policy, now, NOTHING_APPLIED);
    var sweep := SweepActions(u.workers[w].devices, t.seen, now);
    SweepEffect(u, u.workers[w].devices, t.seen, now, []);
    ApplyConcat(s, t.actions, sweep);
    ApplySnoc(s, t.actions + sweep, Beat(w, now));
    NextEmits(ApplyAll(u, sweep), Beat(w, now));
    assert u.accepts + [] == u.accepts;
  }

  /** No device the batch reports is swept: each becomes exactly what its observation makes of it. */
  lemma DueNotSwept(s: State, due: Due, obs: seq<Observation>, policy: Policy, now: Timestamp, i: nat)
    requires Prepared(s, due) && DueBatch(obs, due) && i < |obs|
    ensures Lookup(Step(s, Ingest(due.worker, obs, policy, now)), Key(obs[i]))
            == Some(FleetBatch.Renewed(Lookup(s, Key(obs[i])), obs[i], policy, now, s.epoch))
  {
    hide Judge, Next, CanonicalKey, Step, FleetBatch.Renewed, KeyFold, PlanOf;
    DueTakenAll(s, due, obs, policy, now);
    BatchAccepted(s, due.worker, obs, policy, now, Key(obs[i]));
    assert Bears(obs[i], due);
    FoldDistinct(Lookup(s, Key(obs[i])), obs, i, policy, now, s.epoch);
  }

  /** After a delivery every device is older than the batch that follows. */
  lemma DueLeavesOlder(s: State, due: Due, obs: seq<Observation>, policy: Policy, now: Timestamp, k: Text)
    requires Prepared(s, due) && DueBatch(obs, due)
    ensures var t := Step(s, Ingest(due.worker, obs, policy, now));
            k in t.devices ==> OlderThan(t.devices[k], Later(due))
  {
    hide Judge, Next, CanonicalKey, Step, FleetBatch.Renewed, KeyFold, PlanOf;
    DueTakenAll(s, due, obs, policy, now);
    BatchAccepted(s, due.worker, obs, policy, now, k);
    if i :| 0 <= i < |obs| && Key(obs[i]) == k {
      DueNotSwept(s, due, obs, policy, now, i);
      RenewedEvidence(Lookup(s, k), obs[i], policy, now, s.epoch);
      assert Bears(obs[i], due);
    } else {
      FoldNone(Lookup(s, k), k, obs, policy, now, s.epoch);
    }
  }

  lemma DueReady(s: State, due: Due, obs: seq<Observation>, policy: Policy, now: Timestamp)
    requires Prepared(s, due) && DueBatch(obs, due)
    ensures Prepared(Step(s, Ingest(due.worker, obs, policy, now)), Later(due))
  {
    hide Judge, Next, CanonicalKey, Step, KeyFold, PlanOf, DueBatch, OlderThan;
    var t := Step(s, Ingest(due.worker, obs, policy, now));
    DueTakenAll(s, due, obs, policy, now);
    var added := BatchWorkers(s, due.worker, obs, policy, now);
    EpochKept(s, Ingest(due.worker, obs, policy, now));
    forall k | k in t.devices ensures OlderThan(t.devices[k], Later(due)) {
      DueLeavesOlder(s, due, obs, policy, now, k);
    }
  }

  lemma EpochKept(s: State, op: Op)
    requires !op.RollEpoch?
    ensures Step(s, op).epoch == s.epoch
  {
    var p := (t: State) => t.epoch == s.epoch;
    forall t, a | p(t) && Enabled(t, a) && From(op, a) ensures p(Next(t, a)) {
      assert !a.Roll?;
      hide Next, Enabled, From;
      NextEmits(t, a);
    }
    hide Step, Next, Enabled, From, PlanOf;
    StepKeeps(s, op, p);
  }

  // ---- What others do in between ----

  /** A call that leaves the worker's authority alone. */
  predicate Elsewhere(op: Op, due: Due) {
    && !op.RollEpoch? && op != MarkLost(due.worker)
    && (op.Register? && op.reg.worker != due.worker ==> op.reg.boot != due.boot)
    && (op.Ingest? ==> op.worker != due.worker)
  }

  lemma NextReadyWorkers(s: State, a: Action, due: Due)
    requires Prepared(s, due) && Enabled(s, a) && !a.Roll? && a != Fence(due.worker)
    requires a.Admit? && a.record.worker != due.worker ==> a.record.boot != due.boot
    ensures var t := Next(s, a);
            && t.epoch == due.epoch && due.worker in t.workers
            && (var wr := t.workers[due.worker]; wr.boot == due.boot && wr.alive && !wr.fenced && !wr.lost)
            && (forall v :: v in t.workers && v != due.worker ==> t.workers[v].boot != due.boot)
  {
    hide Next, CanonicalKey, Judge, OlderThan;
    NextWorkers(s, a);
  }

  lemma NextKeepsOlder(s: State, a: Action, due: Due, k: Text)
    requires Prepared(s, due) && Enabled(s, a) && k in Next(s, a).devices
    requires a.Accept? ==> a.worker != due.worker
    ensures OlderThan(Next(s, a).devices[k], due)
  {
    if a.Accept? {
      Admission(s, a);
      AppliedFacts(s, a.o, a.policy, a.now);
    }
    hide Next, Enabled, CanonicalKey, AppliedTo;
    if Target(a) == Some(k) {
      TargetDevice(s, a, k);
      if !a.Accept? {
        OtherKeepsEvidence(s, a, k);
      }
    } else {
      OtherDevicesUntouched(s, a, k);
    }
  }

  lemma NextReady(s: State, a: Action, due: Due)
    requires Prepared(s, due) && Enabled(s, a) && !a.Roll? && a != Fence(due.worker)
    requires a.Admit? && a.record.worker != due.worker ==> a.record.boot != due.boot
    requires a.Accept? ==> a.worker != due.worker
    ensures Prepared(Next(s, a), due)
  {
    hide Next, Enabled, OlderThan;
    NextReadyWorkers(s, a, due);
    forall k | k in Next(s, a).devices ensures OlderThan(Next(s, a).devices[k], due) {
      NextKeepsOlder(s, a, due, k);
    }
  }

  lemma ElsewhereReady(s: State, op: Op, due: Due)
    requires Prepared(s, due) && Elsewhere(op, due)
    ensures Prepared(Step(s, op), due)
  {
    var p := (t: State) => Prepared(t, due);
    forall t, a | p(t) && Enabled(t, a) && From(op, a) ensures p(Next(t, a)) {
      assert !a.Roll? && a != Fence(due.worker) && (a.Accept? ==> a.worker != due.worker);
      assert a.Admit? && a.record.worker != due.worker ==> a.record.boot != due.boot;
      hide Next, Enabled, From, Prepared;
      NextReady(t, a, due);
    }
    hide Step, Next, Enabled, From, PlanOf, Prepared;
    StepKeeps(s, op, p);
  }

  // ---- What has been accepted ----

  /** What incarnation boot of worker w has had accepted. */
  function AcceptedFrom(accepts: seq<Acceptance>, w: u64, boot: u64): seq<Acceptance> {
    if accepts == [] then [] else
      var a := accepts[|accepts| - 1];
      AcceptedFrom(accepts[..|accepts| - 1], w, boot) + if a.worker == w && a.boot == boot then [a] else []
  }

  lemma {:induction false} AcceptedConcat(a: seq<Acceptance>, b: seq<Acceptance>, w: u64, boot: u64)
    ensures AcceptedFrom(a + b, w, boot) == AcceptedFrom(a, w, boot) + AcceptedFrom(b, w, boot)
  {
    if b == [] {
      assert a + b == a;
    } else {
      var n := |b| - 1;
      assert (a + b)[..|a| + n] == a + b[..n];
      AcceptedConcat(a, b[..n], w, boot);
    }
  }

  lemma {:induction false} AcceptedAll(a: seq<Acceptance>, w: u64, boot: u64)
    requires forall x :: x in a ==> x.worker == w && x.boot == boot
    ensures AcceptedFrom(a, w, boot) == a
  {
    if a != [] {
      var n := |a| - 1;
      AcceptedAll(a[..n], w, boot);
      assert a == a[..n] + [a[n]];
    }
  }

  lemma {:induction false} AcceptedNone(a: seq<Acceptance>, w: u64, boot: u64)
    requires forall x :: x in a ==> x.worker != w || x.boot != boot
    ensures AcceptedFrom(a, w, boot) == []
  {
    if a != [] {
      AcceptedNone(a[..|a| - 1], w, boot);
    }
  }

  lemma OwnAcceptances(w: u64, boot: u64, obs: seq<Observation>)
    requires forall o :: o in obs ==> o.workerBoot == boot
    ensures forall x :: x in Acceptances(w, obs) ==> x.worker == w && x.boot == boot
  {
    hide CanonicalKey;
  }

  lemma AcceptedAfter(before: seq<Acceptance>, w: u64, boot: u64, delivered: seq<Observation>, obs: seq<Observation>)
    requires AcceptedFrom(before, w, boot) == Acceptances(w, delivered)
    requires forall o :: o in obs ==> o.workerBoot == boot
    ensures AcceptedFrom(before + Acceptances(w, obs), w, boot) == Acceptances(w, delivered + obs)
  {
    hide AcceptedFrom, Acceptances;
    OwnAcceptances(w, boot, obs);
    AcceptancesConcat(w, delivered, obs);
    AcceptedConcat(before, Acceptances(w, obs), w, boot);
    AcceptedAll(Acceptances(w, obs), w, boot);
  }

  lemma DueBoot(obs: seq<Observation>, due: Due)
    requires DueBatch(obs, due)
    ensures forall o :: o in obs ==> o.workerBoot == due.boot
  {
  }

  lemma AcceptedUnchanged(before: seq<Acceptance>, after: seq<Acceptance>, w: u64, boot: u64)
    requires |before| <= |after| && after[..|before|] == before
    requires forall i :: |before| <= i < |after| ==> after[i].worker != w
    ensures AcceptedFrom(after, w, boot) == AcceptedFrom(before, w, boot)
  {
    hide AcceptedFrom;
    var more := after[|before|..];
    assert after == before + more;
    AcceptedConcat(before, more, w, boot);
    AcceptedNone(more, w, boot);
    assert AcceptedFrom(before, w, boot) + [] == AcceptedFrom(before, w, boot);
  }

  lemma OthersAccepted(s: State, op: Op, due: Due)
    requires Elsewhere(op, due)
    ensures var t := Step(s, op);
            && |s.accepts| <= |t.accepts| && t.accepts[..|s.accepts|] == s.accepts
            && forall i :: |s.accepts| <= i < |t.accepts| ==> t.accepts[i].worker != due.worker
  {
    hide Step;
    StepAuthority(s, op);
  }

  // ---- The first registration ----

  /** A successful registration under a new boot admits the worker. */
  lemma FirstAdmitted(s: State, reg: Registration, now: Timestamp)
    requires PlanOf(s, Register(reg, now)).status == Ok
    requires forall v :: v in s.workers ==> s.workers[v].boot != reg.boot
    ensures Step(s, Register(reg, now)) == AdmitNext(s, RecordOf(reg, now), now) && reg.epoch == s.epoch
  {
    hide AdmitNext, RecordOf, AcceptNext, ReaffirmNext, VanishNext, DrainNext, HoldNext, ReleaseNext;
    One(s, Admit(RecordOf(reg, now), now));
  }

  lemma AdmittedReady(s: State, reg: Registration, now: Timestamp, due: Due)
    requires reg.epoch == s.epoch && due.epoch == reg.epoch && due.worker == reg.worker && due.boot == reg.boot
    requires forall v :: v in s.workers ==> s.workers[v].boot != reg.boot
    requires forall k :: k in s.devices ==> s.devices[k].workerBoot != reg.boot
    ensures var t := AdmitNext(s, RecordOf(reg, now), now); Prepared(t, due) && t.accepts == s.accepts
  {
  }
}
