/** Why a restart needs an up-to-date state file: whatever was accepted since the last save can be accepted again. */
module Forgotten {
  import opened Basics
  import opened Codec
  import opened Identity
  import opened Device
  import opened Pipeline
  import opened Fleet
  import opened FleetRuns
  import opened FleetFencing
  import opened FleetReplay
  import opened FleetStore
  import opened StateCodec
  import opened SnapshotCodec
  import Persistence
  import opened Recovery
  import opened Lifetime
  import opened Chronicle

  // ---- What must have been so at the save ----

  lemma {:induction false} AlongWeaker(s: State, ops: seq<Op>, p: (State, Op) -> bool, q: (State, Op) -> bool)
    requires Along(s, ops, p) && forall t, op :: p(t, op) ==> q(t, op)
    ensures Along(s, ops, q)
    decreases ops
  {
    hide Step;
    if ops != [] {
      AlongWeaker(Step(s, ops[0]), ops[1..], p, q);
    }
  }

  lemma DisciplinedNoneReturns(s: State, ops: seq<Op>, reporter: Text -> u64)
    requires DisciplinedRun(s, ops, reporter)
    ensures NoneReturns(s, ops)
  {
    var p := (t: State, op: Op) => Disciplined(t, op, reporter);
    var q := (t: State, op: Op) => op.Register? ==> (op.reg.worker, op.reg.boot) !in t.retired;
    hide Along;
    AlongWeaker(s, ops, p, q);
  }

  /** An incarnation that has had something accepted since was not fenced and not superseded. */
  lemma SpokeSince(d: State, ops: seq<Op>, i: nat, w: u64, boot: u64)
    requires WorkersOk(d) && NoneReturns(d, ops)
    requires |d.accepts| <= i < |Run(d, ops).accepts|
    requires Run(d, ops).accepts[i].worker == w && Run(d, ops).accepts[i].boot == boot
    ensures if w in d.workers && d.workers[w].boot == boot then !d.workers[w].fenced else (w, boot) !in d.retired
  {
    hide WorkersOk, NoneReturns, Run, Silent;
    if Silent(d, w, boot, |d.accepts|) {
      SilentRuns(d, w, boot, |d.accepts|, ops);
      SilentMeans(Run(d, ops), w, boot, |d.accepts|);
    }
    SilentStart(d, w, boot);
  }

  lemma SilentMeans(t: State, w: u64, boot: u64, n: nat)
    requires Silent(t, w, boot, n)
    ensures forall i :: n <= i < |t.accepts| ==> !(t.accepts[i].worker == w && t.accepts[i].boot == boot)
  {
  }

  lemma SilentStart(d: State, w: u64, boot: u64)
    ensures Silent(d, w, boot, |d.accepts|)
            <==> if w in d.workers && d.workers[w].boot == boot then d.workers[w].fenced else (w, boot) in d.retired
  {
  }

  /** Acceptances since carry epochs since. */
  predicate Since(t: State, epoch: u64, n: nat) {
    epoch <= t.epoch && n <= |t.accepts| && forall i :: n <= i < |t.accepts| ==> epoch <= t.accepts[i].epoch
  }

  lemma StepSince(t: State, op: Op, epoch: u64, n: nat)
    requires WorkersOk(t) && Since(t, epoch, n)
    ensures Since(Step(t, op), epoch, n)
  {
    hide Step, WorkersOk;
    StepSucceeds(t, op, 0);
    StepAuthority(t, op);
  }

  lemma RunSince(d: State, ops: seq<Op>)
    requires WorkersOk(d)
    ensures Since(Run(d, ops), d.epoch, |d.accepts|)
  {
    var p := (t: State) => WorkersOk(t) && Since(t, d.epoch, |d.accepts|);
    var any := (t: State, op: Op) => true;
    hide Step, Run, WorkersOk;
    forall t, op | p(t) && any(t, op) ensures p(Step(t, op)) {
      StepSince(t, op, d.epoch, |d.accepts|);
      StepWorkersOk(t, op);
    }
    AlongAlways(d, ops, any);
    RunKeeps(d, ops, p, any);
  }

  /** What the saved store holds about the observation's device is older evidence, if it is from the same incarnation. */
  predicate Outdated(d: State, o: Observation) {
    Key(o) in d.devices && d.devices[Key(o)].workerBoot == o.workerBoot ==>
      && d.devices[Key(o)].observationGeneration < o.observationGeneration
      && d.devices[Key(o)].generation <= o.deviceGeneration && d.devices[Key(o)].healthGeneration <= o.healthGeneration
  }

  lemma OutdatedSince(d: State, accepts: seq<Acceptance>, i: nat, w: u64, o: Observation)
    requires Backed(d) && d.accepts <= accepts && NeverReplayed(accepts)
    requires |d.accepts| <= i < |accepts| && accepts[i] == AcceptanceOf(w, o)
    ensures Outdated(d, o)
  {
    hide CanonicalKey;
    var k := Key(o);
    if k in d.devices && d.devices[k].workerBoot == o.workerBoot {
      assert Rests(d, k);
      var j :| 0 <= j < |d.accepts| && Brought(d.accepts[j], k, d.devices[k]);
      assert accepts[j] == d.accepts[j];
      assert Ordered(accepts[j], accepts[i]);
    }
  }

  /** An incarnation that is not current at the save has reported nothing that the saved store still holds. */
  lemma NotYetCurrent(d: State, k: Text, w: u64, boot: u64, reporter: Text -> u64)
    requires Safe(d, reporter) && Backed(d) && reporter(k) == w && k in d.devices
    requires !(w in d.workers && d.workers[w].boot == boot) && (w, boot) !in d.retired
    ensures d.devices[k].workerBoot != boot
  {
    assert Rests(d, k);
    var j :| 0 <= j < |d.accepts| && Brought(d.accepts[j], k, d.devices[k]);
    assert Covered(d, d.accepts[j], reporter);
  }

  // ---- Bringing the incarnation back ----

  lemma RolledTo(s: State, epoch: u64, reporter: Text -> u64) returns (ops: seq<Op>)
    requires s.epoch <= epoch
    ensures DisciplinedRun(s, ops, reporter)
    ensures var t := Run(s, ops);
            t.epoch == epoch && t.accepts == s.accepts && t.devices == s.devices && t.workers == s.workers && t.retired == s.retired
  {
    if s.epoch == epoch {
      ops := [];
    } else {
      ops := [RollEpoch(epoch)];
      assert Disciplined(s, RollEpoch(epoch), reporter);
      hide Step, DisciplinedRun, Disciplined, Run;
      DisciplinedOnce(s, RollEpoch(epoch), reporter);
      RunOne(s, RollEpoch(epoch));
      RolledOnce(s, epoch);
    }
  }

  lemma RolledOnce(s: State, epoch: u64)
    requires s.epoch < epoch
    ensures var t := Step(s, RollEpoch(epoch));
            t.epoch == epoch && t.accepts == s.accepts && t.devices == s.devices && t.workers == s.workers && t.retired == s.retired
  {
    One(s, Roll(epoch));
  }

  lemma LossKeepsRetired(s: State, w: u64)
    ensures Step(s, MarkLost(w)).retired == s.retired
  {
    var p := (t: State) => t.retired == s.retired;
    forall t, a | p(t) && Enabled(t, a) && From(MarkLost(w), a) ensures p(Next(t, a)) {
      assert !a.Admit?;
      hide Next, Enabled, From;
      NextWorkers(t, a);
    }
    hide Step, Next, Enabled, From;
    StepKeeps(s, MarkLost(w), p);
  }

  predicate Standing(s: State, w: u64, boot: u64) {
    w in s.workers && s.workers[w].boot == boot && !s.workers[w].fenced && !s.workers[w].lost
  }

  function Return(w: u64, boot: u64, epoch: u64): Registration {
    Registration(0, w, boot, Version(0, 0, 0), 1, [], [], 0, 0, [], [], 0, epoch)
  }

  /** An incarnation that is not fenced and not superseded can come to stand again. */
  lemma ComeBack(s: State, w: u64, boot: u64, k: Text, reporter: Text -> u64) returns (ops: seq<Op>)
    requires if w in s.workers && s.workers[w].boot == boot then Standing(s, w, boot) else (w, boot) !in s.retired
    ensures DisciplinedRun(s, ops, reporter)
    ensures var t := Run(s, ops);
            && Standing(t, w, boot) && t.accepts == s.accepts && t.epoch == s.epoch
            && (Standing(s, w, boot) ==> t == s)
            && (k in t.devices <==> k in s.devices)
            && (k in s.devices ==> t.devices[k].workerBoot == s.devices[k].workerBoot)
  {
    var reg := Return(w, boot, s.epoch);
    if w in s.workers && s.workers[w].boot == boot {
      ops := [];
    } else if w in s.workers {
      hide Step, DisciplinedRun, Run;
      ops := [MarkLost(w), Register(reg, 0)];
      LossKeepsRetired(s, w);
      DisciplinedOnce(s, MarkLost(w), reporter);
      DisciplinedOnce(Step(s, MarkLost(w)), Register(reg, 0), reporter);
      RunOne(s, MarkLost(w));
      RunOne(Step(s, MarkLost(w)), Register(reg, 0));
      assert [MarkLost(w)] + [Register(reg, 0)] == ops;
      DisciplinedConcat(s, [MarkLost(w)], [Register(reg, 0)], reporter);
      Reincarnated(s, reg, 0, k);
    } else {
      hide Step, DisciplinedRun, Run;
      ops := [Register(reg, 0)];
      DisciplinedOnce(s, Register(reg, 0), reporter);
      RunOne(s, Register(reg, 0));
      Enrolled(s, reg, 0);
    }
  }

  lemma TakenAgain(s: State, w: u64, o: Observation)
    requires Standing(s, w, o.workerBoot) && o.worker == w && o.epoch == s.epoch && Outdated(s, o)
    ensures Judge(s, w, o) == Taken
  {
    hide CanonicalKey;
  }

  lemma AcceptedTwice(s: State, i: nat, w: u64, o: Observation, reporter: Text -> u64) returns (op: Op)
    requires Standing(s, w, o.workerBoot) && o.worker == w && o.epoch == s.epoch && Outdated(s, o) && reporter(Key(o)) == w
    requires i < |s.accepts| && s.accepts[i] == AcceptanceOf(w, o)
    ensures DisciplinedRun(s, [op], reporter) && !NeverReplayed(Run(s, [op]).accepts)
  {
    var policy := Policy(0, [], ComputeCapability(0, 0), 0, false, []);
    op := Ingest(w, [o], policy, 0);
    hide CanonicalKey, Step, Run, DisciplinedRun, Outdated, AcceptanceOf, Judge;
    TakenAgain(s, w, o);
    IngestTaken(s, w, o, policy, 0);
    DisciplinedOnce(s, op, reporter);
    RunOne(s, op);
    var accepts := Run(s, [op]).accepts;
    assert accepts[i] == accepts[|s.accepts|] == AcceptanceOf(w, o);
    assert !Ordered(accepts[i], accepts[|s.accepts|]);
  }

  // ---- The reopened store ----

  /** No other key of the saved store is cut to this one. */
  predicate KeyUnclaimed(d: State, k: Text) { forall j :: j in d.devices && Clip(j, KEY) == k ==> j == k }

  /** What the reopened store holds under a key is what was saved under it. */
  lemma ReopenedDevice(d: State, k: Text)
    requires DistinctClips(d.devices) && KeyUnclaimed(d, k)
    ensures k in Resumed(d).devices ==> k in d.devices && SameEvidence(d.devices[k], Resumed(d).devices[k])
  {
    hide DistinctClips, Clip, ClipDevice, Recovered, ClipNodes, ClipWorkers, MapSeq, AccountingOf;
    if k in Resumed(d).devices {
      var j :| j in d.devices && k == Clip(j, KEY);
      ResumedKeys(d, k);
      ResumedDevice(d, k);
    }
  }

  /** What a restart leaves of the incarnation and of what is held about a device. */
  lemma ReopenedStanding(d: State, accepts: seq<Acceptance>, w: u64, o: Observation, reporter: Text -> u64)
    requires DistinctClips(d.devices) && KeyUnclaimed(d, Key(o)) && WorkersOk(d) && Safe(d, reporter) && Backed(d)
    requires Outdated(d, o) && reporter(Key(o)) == w
    requires if w in d.workers && d.workers[w].boot == o.workerBoot then !d.workers[w].fenced else (w, o.workerBoot) !in d.retired
    ensures var r := Resumed(d).(accepts := accepts);
            && (if w in r.workers && r.workers[w].boot == o.workerBoot then Standing(r, w, o.workerBoot)
                else (w, o.workerBoot) !in r.retired)
            && (Standing(r, w, o.workerBoot) ==> Outdated(r, o))
            && (!Standing(r, w, o.workerBoot) && Key(o) in r.devices ==> r.devices[Key(o)].workerBoot != o.workerBoot)
  {
    hide CanonicalKey, Resumed, DistinctClips, Safe, Backed, KeyUnclaimed;
    ResumedHistory(d);
    ReopenedDevice(d, Key(o));
    ResumedWorkers(d, w);
    if !(w in d.workers && d.workers[w].boot == o.workerBoot) && Key(o) in d.devices {
      NotYetCurrent(d, Key(o), w, o.workerBoot, reporter);
    }
  }

  lemma ResumedWorkers(d: State, w: u64)
    requires DistinctClips(d.devices)
    ensures w in Resumed(d).workers <==> w in d.workers
    ensures w in d.workers ==> SameIncarnation(d.workers[w], Resumed(d).workers[w])
  {
    hide DistinctClips, RecoverAll, ClipDevices, ClipNodes, MapSeq, AccountingOf, ClipWorker, SameIncarnation;
    if w in d.workers {
      ResumedWorker(d, w);
    }
  }

  /** From a store where an incarnation may stand, an observation of it that was accepted can be accepted again. */
  lemma AcceptedOnceMore(r: State, i: nat, w: u64, o: Observation, reporter: Text -> u64) returns (more: seq<Op>)
    requires i < |r.accepts| && r.accepts[i] == AcceptanceOf(w, o) && o.worker == w && reporter(Key(o)) == w
    requires r.epoch <= o.epoch
    requires if w in r.workers && r.workers[w].boot == o.workerBoot then Standing(r, w, o.workerBoot)
             else (w, o.workerBoot) !in r.retired
    requires Standing(r, w, o.workerBoot) ==> Outdated(r, o)
    requires !Standing(r, w, o.workerBoot) && Key(o) in r.devices ==> r.devices[Key(o)].workerBoot != o.workerBoot
    ensures DisciplinedRun(r, more, reporter) && !NeverReplayed(Run(r, more).accepts)
  {
    hide CanonicalKey, Run, DisciplinedRun, AcceptanceOf, NeverReplayed;
    var roll := RolledTo(r, o.epoch, reporter);
    var s := Run(r, roll);
    var back := ComeBack(s, w, o.workerBoot, Key(o), reporter);
    var t := Run(s, back);
    assert Outdated(t, o);
    var op := AcceptedTwice(t, i, w, o, reporter);
    DisciplinedConcat(s, back, [op], reporter);
    DisciplinedConcat(r, roll, back + [op], reporter);
    more := roll + (back + [op]);
  }

  lemma AcceptedByReporter(t: State, i: nat, reporter: Text -> u64)
    requires Safe(t, reporter) && i < |t.accepts|
    ensures t.accepts[i].worker == reporter(t.accepts[i].key) && NeverReplayed(t.accepts)
  {
    assert Covered(t, t.accepts[i], reporter);
  }

  /** Whatever was accepted since the last save, in whatever disciplined run, can be accepted again after a restart: some
    * calls that keep to the discipline lead there, unless the key of another saved device is cut to that of the device.
    */
  lemma UnsavedIsAcceptedAgain(c: Site, e: Event, ops: seq<Op>, i: nat, o: Observation, reporter: Text -> u64)
    returns (more: seq<Op>)
    requires e.Restarted? && Possible(c, e) && c.disk.Some?
    requires Safe(c.disk.value, reporter) && Backed(c.disk.value) && WorkersOk(c.disk.value)
    requires DisciplinedRun(c.disk.value, ops, reporter) && c.store == Run(c.disk.value, ops)
    requires |c.disk.value.accepts| <= i < |c.store.accepts| && c.store.accepts[i] == AcceptanceOf(o.worker, o)
    requires KeyUnclaimed(c.disk.value, Key(o))
    ensures DisciplinedRun(Onward(c, e).store, more, reporter)
    ensures !NeverReplayed(Run(Onward(c, e).store, more).accepts)
  {
    hide *;
    var d, w := c.disk.value, o.worker;
    OnwardReopens(c, e);
    AcceptedFields(o);
    SafeRuns(d, ops, reporter);
    AcceptedByReporter(c.store, i, reporter);
    AcceptancesStay(d, ops);
    DisciplinedNoneReturns(d, ops, reporter);
    SpokeSince(d, ops, i, w, o.workerBoot);
    RunSince(d, ops);
    SinceMeans(c.store, d.epoch, |d.accepts|, i);
    OutdatedSince(d, c.store.accepts, i, w, o);
    ReopenedStanding(d, c.store.accepts, w, o, reporter);
    more := AcceptedOnceMore(Onward(c, e).store, i, w, o, reporter);
  }

  lemma OnwardReopens(c: Site, e: Event)
    requires e.Restarted? && Possible(c, e) && c.disk.Some?
    ensures DistinctClips(c.disk.value.devices)
    ensures Onward(c, e).store == Resumed(c.disk.value).(accepts := c.store.accepts)
    ensures Onward(c, e).store.epoch == c.disk.value.epoch && Onward(c, e).store.accepts == c.store.accepts
  {
    hide Savable, DistinctClips, Resumed, Then, Recover, Persistence.Image, SnapshotOf;
    RecoverSaved(c.disk.value);
    ResumedHistory(c.disk.value);
  }

  lemma AcceptedFields(o: Observation)
    ensures var a := AcceptanceOf(o.worker, o);
            a.key == Key(o) && a.worker == o.worker && a.boot == o.workerBoot && a.epoch == o.epoch
  {
    hide CanonicalKey;
  }

  lemma SinceMeans(t: State, epoch: u64, n: nat, i: nat)
    requires Since(t, epoch, n) && n <= i < |t.accepts|
    ensures epoch <= t.accepts[i].epoch
  {
  }
}
