/** What a batch of observations does, device by device. */
module FleetBatch {
  import opened Basics
  import opened Identity
  import opened Device
  import opened Pipeline
  import opened Fleet
  import opened FleetRuns

  function Lookup(s: State, k: Text): Option<DeviceState> {
    if k in s.devices then Some(s.devices[k]) else None
  }

  // ---- One device's own history of a batch ----

  /** The evidence is no newer than what the device already holds from the same incarnation. */
  predicate Repeats(cur: Option<DeviceState>, o: Observation) {
    cur.Some? && cur.value.workerBoot == o.workerBoot && o.observationGeneration <= cur.value.observationGeneration
  }

  function Renewed(cur: Option<DeviceState>, o: Observation, policy: Policy, now: Timestamp, epoch: u64): DeviceState {
    ApplyObservation(if cur.Some? then cur.value else BLANK, o, policy, now, epoch).state
      .(healthGeneration := o.healthGeneration)
  }

  datatype Folded = Folded(device: Option<DeviceState>, accepted: nat)

  /** Device k after the observations of it in obs, applied in order and without repetitions. */
  function KeyFold(cur: Option<DeviceState>, k: Text, obs: seq<Observation>, policy: Policy, now: Timestamp, epoch: u64): Folded
    decreases obs
  {
    if obs == [] then Folded(cur, 0)
    else if Key(obs[0]) != k || Repeats(cur, obs[0]) then KeyFold(cur, k, obs[1..], policy, now, epoch)
    else
      var f := KeyFold(Some(Renewed(cur, obs[0], policy, now, epoch)), k, obs[1..], policy, now, epoch);
      f.(accepted := f.accepted + 1)
  }

  /** How many observations a batch gets through before the first refusal. */
  function Reached(s: State, w: u64, obs: seq<Observation>, policy: Policy, now: Timestamp): (n: nat)
    ensures n <= |obs|
    decreases obs
  {
    if obs == [] then 0 else
      match Judge(s, w, obs[0])
      case Refused(_) => 0
      case Skipped => 1 + Reached(s, w, obs[1..], policy, now)
      case Taken => 1 + Reached(Next(s, Accept(w, obs[0], policy, now)), w, obs[1..], policy, now)
  }

  // ---- Taking in ----

  lemma AcceptLooksUp(s: State, w: u64, o: Observation, policy: Policy, now: Timestamp, k: Text)
    ensures var t := Next(s, Accept(w, o, policy, now));
            Lookup(t, k) == if k == Key(o) then Some(Renewed(Lookup(s, k), o, policy, now, s.epoch)) else Lookup(s, k)
  {
    hide Next, ApplyObservation, CanonicalKey;
    var a := Accept(w, o, policy, now);
    if k == Key(o) {
      TargetDevice(s, a, k);
    } else {
      OtherDevicesUntouched(s, a, k);
    }
  }

  lemma JudgedRepetition(s: State, w: u64, o: Observation)
    ensures Judge(s, w, o) == Skipped ==> Repeats(Lookup(s, Key(o)), o)
    ensures Judge(s, w, o) == Taken ==> !Repeats(Lookup(s, Key(o)), o)
  {
    hide CanonicalKey;
  }

  lemma AcceptKeepsEpoch(s: State, w: u64, o: Observation, policy: Policy, now: Timestamp)
    ensures Next(s, Accept(w, o, policy, now)).epoch == s.epoch
  {
    hide Next;
    NextEmits(s, Accept(w, o, policy, now));
  }

  /** Each device goes through its own history of the part reached, and was seen when any of it was accepted. */
  lemma {:induction false} TakeAllFolds(s: State, w: u64, obs: seq<Observation>, policy: Policy, now: Timestamp, last: Applied, k: Text)
    ensures var t := TakeAll(s, w, obs, policy, now, last);
            var n := Reached(s, w, obs, policy, now);
            var f := KeyFold(Lookup(s, k), k, obs[..n], policy, now, s.epoch);
            Lookup(ApplyAll(s, t.actions), k) == f.device && (k in t.seen <==> f.accepted > 0)
    decreases obs
  {
    hide CanonicalKey, Judge, Next, AppliedTo, Lookup, Repeats, Renewed;
    if obs != [] {
      var o := obs[0];
      var n := Reached(s, w, obs, policy, now);
      if n > 0 {
        assert obs[..n][0] == o && obs[..n][1..] == obs[1..][..n - 1];
      }
      JudgedRepetition(s, w, o);
      match Judge(s, w, o)
      case Refused(_) =>
      case Skipped =>
        TakeAllFolds(s, w, obs[1..], policy, now, last, k);
      case Taken =>
        AcceptLooksUp(s, w, o, policy, now, k);
        AcceptKeepsEpoch(s, w, o, policy, now);
        TakeAllFolds(Next(s, Accept(w, o, policy, now)), w, obs[1..], policy, now, AppliedTo(s, o, policy, now), k);
    }
  }

  /** A batch succeeds when it is reached to its end; otherwise its status is the verdict on the first one refused. */
  lemma {:induction false} TakeAllStatus(s: State, w: u64, obs: seq<Observation>, policy: Policy, now: Timestamp, last: Applied)
    requires w in s.workers
    ensures var t := TakeAll(s, w, obs, policy, now, last);
            var n := Reached(s, w, obs, policy, now);
            && (t.status == Ok <==> n == |obs|)
            && (n < |obs| ==> Judge(ApplyAll(s, t.actions), w, obs[n]) == Refused(t.status))
    decreases obs
  {
    hide CanonicalKey, Next, AppliedTo;
    if obs != [] {
      match Judge(s, w, obs[0])
      case Refused(_) =>
      case Skipped =>
        TakeAllStatus(s, w, obs[1..], policy, now, last);
      case Taken =>
        hide Judge;
        StillListed(s, w, obs[0], policy, now);
        TakeAllStatus(Next(s, Accept(w, obs[0], policy, now)), w, obs[1..], policy, now, AppliedTo(s, obs[0], policy, now));
    }
  }

  /** The worker's list gains a device exactly when it was unknown, and nothing else about any worker changes. */
  predicate ListedOnly(s: State, t: State, w: u64, added: seq<Text>) {
    && w in s.workers
    && t.workers == s.workers[w := s.workers[w].(devices := s.workers[w].devices + added)]
    && t.nodes == s.nodes && t.epoch == s.epoch && t.retired == s.retired
    && t.coordinator == s.coordinator && t.fleetGeneration == s.fleetGeneration && t.nodeGeneration == s.nodeGeneration
  }

  lemma StillListed(s: State, w: u64, o: Observation, policy: Policy, now: Timestamp)
    requires w in s.workers
    ensures ListedOnly(s, Next(s, Accept(w, o, policy, now)), w, if Key(o) in s.devices then [] else [Key(o)])
    ensures Next(s, Accept(w, o, policy, now)).devices.Keys == s.devices.Keys + {Key(o)}
  {
    hide PushAll, CanonicalKey, AppliedTo;
    var wr := s.workers[w];
    assert wr.devices + [] == wr.devices;
    assert s.workers[w := wr] == s.workers;
  }

  /** The devices a batch adds to the list: those it accepted and the store did not know, each once. */
  lemma {:induction false} TakeAllLists(s: State, w: u64, obs: seq<Observation>, policy: Policy, now: Timestamp, last: Applied)
    returns (added: seq<Text>)
    requires w in s.workers
    ensures var t := TakeAll(s, w, obs, policy, now, last);
            && ListedOnly(s, ApplyAll(s, t.actions), w, added)
            && (forall k :: k in added <==> k in t.seen && k !in s.devices)
            && (forall i, j :: 0 <= i < j < |added| ==> added[i] != added[j])
    decreases obs
  {
    hide CanonicalKey, Judge, Next, AppliedTo;
    added := [];
    if obs == [] {
      NothingListed(s, w);
    } else {
      match Judge(s, w, obs[0])
      case Refused(_) =>
        NothingListed(s, w);
      case Skipped =>
        added := TakeAllLists(s, w, obs[1..], policy, now, last);
      case Taken =>
        var o := obs[0];
        var u := Next(s, Accept(w, o, policy, now));
        StillListed(s, w, o, policy, now);
        var rest := TakeAllLists(u, w, obs[1..], policy, now, AppliedTo(s, o, policy, now));
        var first := if Key(o) in s.devices then [] else [Key(o)];
        added := first + rest;
        ListedTwice(s, u, ApplyAll(s, TakeAll(s, w, obs, policy, now, last).actions), w, first, rest);
    }
  }

  lemma NothingListed(s: State, w: u64)
    requires w in s.workers
    ensures ListedOnly(s, s, w, [])
  {
    assert s.workers[w].devices + [] == s.workers[w].devices;
    assert s.workers[w := s.workers[w]] == s.workers;
  }

  lemma ListedTwice(s: State, t: State, u: State, w: u64, a: seq<Text>, b: seq<Text>)
    requires ListedOnly(s, t, w, a) && ListedOnly(t, u, w, b)
    ensures ListedOnly(s, u, w, a + b)
  {
    assert (s.workers[w].devices + a) + b == s.workers[w].devices + (a + b);
  }

  // ---- The sweep ----

  predicate OnlyDevices(s: State, t: State) {
    && t.workers == s.workers && t.nodes == s.nodes && t.epoch == s.epoch && t.retired == s.retired
    && t.coordinator == s.coordinator && t.fleetGeneration == s.fleetGeneration && t.nodeGeneration == s.nodeGeneration
    && t.accepts == s.accepts
  }

  lemma VanishOne(s: State, key: Text, now: Timestamp, k: Text)
    ensures var t := Next(s, Vanish(key, now));
            && OnlyDevices(s, t)
            && Lookup(t, k) == if k == key && k in s.devices then Some(Vanished(s.devices[k])) else Lookup(s, k)
  {
    hide PushAll, VanishRecord, Vanished;
  }

  lemma VanishedTwice(d: DeviceState)
    ensures Vanished(Vanished(d)) == Vanished(d)
  {
  }

  /** Sweeping marks lost exactly the listed, known devices that were not seen. */
  lemma {:induction false} SweepEffect(s: State, keys: seq<Text>, seen: set<Text>, now: Timestamp, k: Text)
    ensures var t := ApplyAll(s, SweepActions(keys, seen, now));
            && OnlyDevices(s, t)
            && Lookup(t, k) == if k in keys && k !in seen && k in s.devices then Some(Vanished(s.devices[k])) else Lookup(s, k)
    decreases keys
  {
    hide Next, Vanished;
    if keys != [] {
      if keys[0] in seen {
        assert SweepActions(keys, seen, now) == SweepActions(keys[1..], seen, now);
        SweepEffect(s, keys[1..], seen, now, k);
      } else {
        VanishOne(s, keys[0], now, k);
        SweepEffect(Next(s, Vanish(keys[0], now)), keys[1..], seen, now, k);
        if k in s.devices {
          VanishedTwice(s.devices[k]);
        }
      }
    }
  }

  // ---- The batch ----

  /** A successful batch, device by device: the ones it renewed, the ones it no longer reports, and all others. */
  lemma BatchAccepted(s: State, w: u64, obs: seq<Observation>, policy: Policy, now: Timestamp, k: Text)
    requires w in s.workers && !s.workers[w].lost && !s.workers[w].fenced
    requires Reached(s, w, obs, policy, now) == |obs|
    ensures var op := Ingest(w, obs, policy, now);
            var f := KeyFold(Lookup(s, k), k, obs, policy, now, s.epoch);
            && PlanOf(s, op).status == Ok
            && Lookup(Step(s, op), k)
               == if f.accepted > 0 then f.device
                  else if k in s.workers[w].devices && k in s.devices then Some(Vanished(s.devices[k]))
                  else Lookup(s, k)
  {
    hide CanonicalKey, Judge, Next, AppliedTo, TakeAll, SweepActions, Vanished, KeyFold;
    var t := TakeAll(s, w, obs, policy, now, NOTHING_APPLIED);
    var u := ApplyAll(s, t.actions);
    TakeAllStatus(s, w, obs, policy, now, NOTHING_APPLIED);
    TakeAllFolds(s, w, obs, policy, now, NOTHING_APPLIED, k);
    assert obs[..|obs|] == obs;
    var added := TakeAllLists(s, w, obs, policy, now, NOTHING_APPLIED);
    var sweep := SweepActions(u.workers[w].devices, t.seen, now);
    SweepEffect(u, u.workers[w].devices, t.seen, now, k);
    ApplyConcat(s, t.actions, sweep);
    ApplySnoc(s, t.actions + sweep, Beat(w, now));
    BeatDevices(ApplyAll(u, sweep), w, now);
    UnseenUntouched(Lookup(s, k), k, obs, policy, now, s.epoch);
  }

  lemma BeatDevices(s: State, w: u64, now: Timestamp)
    ensures Next(s, Beat(w, now)).devices == s.devices && Next(s, Beat(w, now)).epoch == s.epoch
    ensures Next(s, Beat(w, now)).accepts == s.accepts
    ensures w in s.workers ==>
              Next(s, Beat(w, now)) == WithWorker(s, w, s.workers[w].(lastHeartbeat := now, alive := true))
  {
  }

  lemma {:induction false} UnseenUntouched(cur: Option<DeviceState>, k: Text, obs: seq<Observation>, policy: Policy, now: Timestamp, epoch: u64)
    ensures var f := KeyFold(cur, k, obs, policy, now, epoch);
            (f.accepted == 0 ==> f.device == cur) && (f.accepted > 0 ==> f.device.Some?)
    decreases obs
  {
    hide CanonicalKey, Renewed, Repeats;
    if obs != [] {
      UnseenUntouched(cur, k, obs[1..], policy, now, epoch);
      UnseenUntouched(Some(Renewed(cur, obs[0], policy, now, epoch)), k, obs[1..], policy, now, epoch);
    }
  }

  /** A refused batch: exactly the part before the refusal has happened, and no device is swept. */
  lemma BatchRefused(s: State, w: u64, obs: seq<Observation>, policy: Policy, now: Timestamp, k: Text)
    requires w in s.workers && !s.workers[w].lost && !s.workers[w].fenced
    requires Reached(s, w, obs, policy, now) < |obs|
    ensures var op := Ingest(w, obs, policy, now);
            var n := Reached(s, w, obs, policy, now);
            && PlanOf(s, op).status != Ok
            && Judge(Step(s, op), w, obs[n]) == Refused(PlanOf(s, op).status)
            && Lookup(Step(s, op), k) == KeyFold(Lookup(s, k), k, obs[..n], policy, now, s.epoch).device
  {
    hide CanonicalKey, Judge, Next, AppliedTo, TakeAll, SweepActions, Vanished, KeyFold, ListedOnly;
    TakeAllStatus(s, w, obs, policy, now, NOTHING_APPLIED);
    TakeAllFolds(s, w, obs, policy, now, NOTHING_APPLIED, k);
  }

  /** All that a refused batch does besides is to list, each once, the devices it made known before the refusal. */
  lemma RefusedWorkers(s: State, w: u64, obs: seq<Observation>, policy: Policy, now: Timestamp) returns (added: seq<Text>)
    requires w in s.workers && !s.workers[w].lost && !s.workers[w].fenced
    requires Reached(s, w, obs, policy, now) < |obs|
    ensures ListedOnly(s, Step(s, Ingest(w, obs, policy, now)), w, added)
    ensures var n := Reached(s, w, obs, policy, now);
            forall k :: k in added <==> k !in s.devices && KeyFold(None, k, obs[..n], policy, now, s.epoch).accepted > 0
    ensures forall i, j :: 0 <= i < j < |added| ==> added[i] != added[j]
  {
    hide CanonicalKey, Judge, Next, AppliedTo, TakeAll, SweepActions, Vanished, KeyFold, ListedOnly;
    TakeAllStatus(s, w, obs, policy, now, NOTHING_APPLIED);
    added := TakeAllLists(s, w, obs, policy, now, NOTHING_APPLIED);
    var n := Reached(s, w, obs, policy, now);
    forall k ensures k in added <==> k !in s.devices && KeyFold(None, k, obs[..n], policy, now, s.epoch).accepted > 0 {
      TakeAllFolds(s, w, obs, policy, now, NOTHING_APPLIED, k);
    }
  }

  /** What a successful batch does to the workers: its own list grows by the new devices, each once, and it has
    * just been heard from.
    */
  lemma BatchWorkers(s: State, w: u64, obs: seq<Observation>, policy: Policy, now: Timestamp) returns (added: seq<Text>)
    requires w in s.workers && !s.workers[w].lost && !s.workers[w].fenced
    requires Reached(s, w, obs, policy, now) == |obs|
    ensures Step(s, Ingest(w, obs, policy, now)).workers
            == s.workers[w := s.workers[w].(devices := s.workers[w].devices + added, lastHeartbeat := now, alive := true)]
    ensures Step(s, Ingest(w, obs, policy, now)).epoch == s.epoch
    ensures forall k :: k in added <==> k !in s.devices && KeyFold(None, k, obs, policy, now, s.epoch).accepted > 0
    ensures forall i, j :: 0 <= i < j < |added| ==> added[i] != added[j]
  {
    hide CanonicalKey, Judge, Next, AppliedTo, TakeAll, SweepActions, Vanished, KeyFold;
    var t := TakeAll(s, w, obs, policy, now, NOTHING_APPLIED);
    var u := ApplyAll(s, t.actions);
    TakeAllStatus(s, w, obs, policy, now, NOTHING_APPLIED);
    assert obs[..|obs|] == obs;
    added := TakeAllLists(s, w, obs, policy, now, NOTHING_APPLIED);
    forall k ensures k in added <==> k !in s.devices && KeyFold(None, k, obs, policy, now, s.epoch).accepted > 0 {
      TakeAllFolds(s, w, obs, policy, now, NOTHING_APPLIED, k);
    }
    var sweep := SweepActions(u.workers[w].devices, t.seen, now);
    SweepEffect(u, u.workers[w].devices, t.seen, now, []);
    ApplyConcat(s, t.actions, sweep);
    ApplySnoc(s, t.actions + sweep, Beat(w, now));
    BeatDevices(ApplyAll(u, sweep), w, now);
  }

  // ---- Sending a batch again ----

  /** The observation comes from the recorded incarnation, at the current epoch, under the worker's own name. */
  predicate Authorized(s: State, w: u64, o: Observation) {
    w in s.workers && o.epoch == s.epoch && o.workerBoot == s.workers[w].boot && o.worker == w
  }

  /** An authorized observation is skipped exactly when the device holds no older evidence from its incarnation. */
  lemma SkippedExactly(s: State, w: u64, o: Observation)
    requires Authorized(s, w, o)
    ensures Judge(s, w, o) == Skipped <==> Repeats(Lookup(s, Key(o)), o)
  {
    hide CanonicalKey;
  }

  lemma NotRefused(s: State, w: u64, o: Observation)
    requires !Judge(s, w, o).Refused?
    ensures Authorized(s, w, o)
  {
    hide CanonicalKey;
  }

  lemma AuthorizedBefore(s: State, w: u64, o: Observation, p: Observation, policy: Policy, now: Timestamp)
    requires w in s.workers && Authorized(Next(s, Accept(w, o, policy, now)), w, p)
    ensures Authorized(s, w, p)
  {
    hide Next, CanonicalKey;
    StillListed(s, w, o, policy, now);
  }

  /** A batch that is reached to its end is authorized throughout. */
  lemma {:induction false} ReachedAuthorized(s: State, w: u64, obs: seq<Observation>, policy: Policy, now: Timestamp)
    requires w in s.workers && Reached(s, w, obs, policy, now) == |obs|
    ensures forall o :: o in obs ==> Authorized(s, w, o)
    decreases obs
  {
    hide Judge, Next, CanonicalKey, Authorized;
    if obs != [] {
      var o := obs[0];
      NotRefused(s, w, o);
      if Judge(s, w, o) == Taken {
        var t := Next(s, Accept(w, o, policy, now));
        StillListed(s, w, o, policy, now);
        ReachedAuthorized(t, w, obs[1..], policy, now);
        forall p | p in obs[1..] ensures Authorized(s, w, p) {
          AuthorizedBefore(s, w, o, p, policy, now);
        }
      } else {
        ReachedAuthorized(s, w, obs[1..], policy, now);
      }
      assert forall p :: p in obs ==> p == o || p in obs[1..];
    }
  }

  lemma RenewedEvidence(cur: Option<DeviceState>, o: Observation, policy: Policy, now: Timestamp, epoch: u64)
    ensures var d := Renewed(cur, o, policy, now, epoch);
            && d.workerBoot == o.workerBoot && d.observationGeneration == o.observationGeneration
            && d.generation == o.deviceGeneration && d.healthGeneration == o.healthGeneration
  {
    hide EvaluateHealth, EvaluateEligibility, Diff, Fresh;
  }

  /** What a device holds is not forgotten while evidence of the same incarnation comes in. */
  lemma {:induction false} FoldKeeps(cur: Option<DeviceState>, k: Text, obs: seq<Observation>, policy: Policy, now: Timestamp,
                                     epoch: u64, o: Observation)
    requires Repeats(cur, o) && forall p :: p in obs ==> p.workerBoot == o.workerBoot
    ensures Repeats(KeyFold(cur, k, obs, policy, now, epoch).device, o)
    decreases obs
  {
    hide CanonicalKey, Renewed;
    if obs != [] {
      if Key(obs[0]) != k || Repeats(cur, obs[0]) {
        FoldKeeps(cur, k, obs[1..], policy, now, epoch, o);
      } else {
        assert obs[0] in obs;
        RenewedEvidence(cur, obs[0], policy, now, epoch);
        FoldKeeps(Some(Renewed(cur, obs[0], policy, now, epoch)), k, obs[1..], policy, now, epoch, o);
      }
    }
  }

  /** After its own history of a batch from one incarnation, a device holds every observation of it or a later one. */
  lemma {:induction false} FoldRecords(cur: Option<DeviceState>, obs: seq<Observation>, i: nat, policy: Policy, now: Timestamp,
                                       epoch: u64)
    requires i < |obs| && forall p :: p in obs ==> p.workerBoot == obs[i].workerBoot
    ensures Repeats(KeyFold(cur, Key(obs[i]), obs, policy, now, epoch).device, obs[i])
    decreases obs
  {
    hide CanonicalKey, Renewed;
    var k, o := Key(obs[i]), obs[0];
    if i == 0 {
      if Repeats(cur, o) {
        FoldKeeps(cur, k, obs[1..], policy, now, epoch, o);
      } else {
        RenewedEvidence(cur, o, policy, now, epoch);
        FoldKeeps(Some(Renewed(cur, o, policy, now, epoch)), k, obs[1..], policy, now, epoch, o);
      }
    } else if Key(o) != k || Repeats(cur, o) {
      FoldRecords(cur, obs[1..], i - 1, policy, now, epoch);
    } else {
      FoldRecords(Some(Renewed(cur, o, policy, now, epoch)), obs[1..], i - 1, policy, now, epoch);
    }
  }

  /** Every observation of a batch just ingested would be skipped if it came again. */
  lemma IngestedIsSkipped(s: State, w: u64, obs: seq<Observation>, policy: Policy, now: Timestamp, i: nat)
    requires w in s.workers && !s.workers[w].lost && !s.workers[w].fenced
    requires Reached(s, w, obs, policy, now) == |obs| && i < |obs|
    ensures Judge(Step(s, Ingest(w, obs, policy, now)), w, obs[i]) == Skipped
  {
    hide Judge, Next, CanonicalKey, Step, KeyFold, PlanOf, Renewed;
    var t := Step(s, Ingest(w, obs, policy, now));
    var k := Key(obs[i]);
    ReachedAuthorized(s, w, obs, policy, now);
    assert Authorized(s, w, obs[i]);
    var added := BatchWorkers(s, w, obs, policy, now);
    assert Authorized(t, w, obs[i]);
    BatchAccepted(s, w, obs, policy, now, k);
    FoldRecords(Lookup(s, k), obs, i, policy, now, s.epoch);
    UnseenUntouched(Lookup(s, k), k, obs, policy, now, s.epoch);
    assert Repeats(Lookup(t, k), obs[i]);
    SkippedExactly(t, w, obs[i]);
  }

  lemma {:induction false} AllSkipped(s: State, w: u64, obs: seq<Observation>, policy: Policy, now: Timestamp, last: Applied)
    requires forall o :: o in obs ==> Judge(s, w, o) == Skipped
    ensures Reached(s, w, obs, policy, now) == |obs| && TakeAll(s, w, obs, policy, now, last).actions == []
    decreases obs
  {
    hide Judge, Next;
    if obs != [] {
      AllSkipped(s, w, obs[1..], policy, now, last);
    }
  }

  lemma {:induction false} RepeatedFold(s: State, w: u64, obs: seq<Observation>, policy: Policy, now: Timestamp, k: Text)
    requires forall o :: o in obs ==> Judge(s, w, o) == Skipped
    ensures KeyFold(Lookup(s, k), k, obs, policy, now, s.epoch).accepted == 0
    decreases obs
  {
    hide Judge, Next, CanonicalKey, Renewed, Repeats;
    if obs != [] {
      JudgedRepetition(s, w, obs[0]);
      RepeatedFold(s, w, obs[1..], policy, now, k);
    }
  }

  /** A batch of repetitions succeeds and accepts nothing; it marks every known device the worker lists as lost, the ones
    * it still reports included, and changes no other.
    */
  lemma RepeatedBatchSweeps(s: State, w: u64, obs: seq<Observation>, policy: Policy, now: Timestamp, k: Text)
    requires w in s.workers && !s.workers[w].lost && !s.workers[w].fenced
    requires forall o :: o in obs ==> Judge(s, w, o) == Skipped
    ensures var op := Ingest(w, obs, policy, now);
            && PlanOf(s, op).status == Ok && Step(s, op).accepts == s.accepts
            && Lookup(Step(s, op), k)
               == if k in s.workers[w].devices && k in s.devices then Some(Vanished(s.devices[k])) else Lookup(s, k)
  {
    hide Judge, Next, CanonicalKey, Vanished, KeyFold, Step, PlanOf;
    AllSkipped(s, w, obs, policy, now, NOTHING_APPLIED);
    RepeatedFold(s, w, obs, policy, now, k);
    BatchAccepted(s, w, obs, policy, now, k);
    RepeatedAccepts(s, w, obs, policy, now);
  }

  lemma RepeatedAccepts(s: State, w: u64, obs: seq<Observation>, policy: Policy, now: Timestamp)
    requires w in s.workers && !s.workers[w].lost && !s.workers[w].fenced
    requires forall o :: o in obs ==> Judge(s, w, o) == Skipped
    ensures Step(s, Ingest(w, obs, policy, now)).accepts == s.accepts
  {
    hide CanonicalKey, Judge, Next, AppliedTo, TakeAll, SweepActions, Vanished;
    AllSkipped(s, w, obs, policy, now, NOTHING_APPLIED);
    var t := TakeAll(s, w, obs, policy, now, NOTHING_APPLIED);
    TakeAllStatus(s, w, obs, policy, now, NOTHING_APPLIED);
    assert t.actions == [] && ApplyAll(s, t.actions) == s;
    var sweep := SweepActions(s.workers[w].devices, t.seen, now);
    SweepEffect(s, s.workers[w].devices, t.seen, now, []);
    assert [] + sweep == sweep;
    ApplySnoc(s, sweep, Beat(w, now));
    BeatDevices(ApplyAll(s, sweep), w, now);
  }

  /** No observation leaves a device looking as if it had vanished. */
  lemma RenewedNotVanished(cur: Option<DeviceState>, o: Observation, policy: Policy, now: Timestamp, epoch: u64)
    ensures var d := Renewed(cur, o, policy, now, epoch); Vanished(d) != d
  {
    var prior := if cur.Some? then cur.value else BLANK;
    var isFresh := Fresh(prior, o, policy, now);
    hide EvaluateHealth, EvaluateEligibility, Diff, Fresh;
    var health := EvaluateHealth(SignalsFromProbe(o, prior.present, !isFresh));
    EligibilityClassified(ObservationInput(o, health.state, isFresh, prior.drain, prior.quarantined, policy));
  }

  lemma {:induction false} FoldNotVanished(cur: Option<DeviceState>, k: Text, obs: seq<Observation>, policy: Policy,
                                           now: Timestamp, epoch: u64)
    ensures var f := KeyFold(cur, k, obs, policy, now, epoch);
            f.accepted > 0 ==> f.device.Some? && Vanished(f.device.value) != f.device.value
    decreases obs
  {
    hide CanonicalKey, Renewed, Repeats, Vanished;
    if obs != [] {
      if Key(obs[0]) != k || Repeats(cur, obs[0]) {
        FoldNotVanished(cur, k, obs[1..], policy, now, epoch);
      } else {
        var next := Some(Renewed(cur, obs[0], policy, now, epoch));
        FoldNotVanished(next, k, obs[1..], policy, now, epoch);
        RenewedNotVanished(cur, obs[0], policy, now, epoch);
        UnseenUntouched(next, k, obs[1..], policy, now, epoch);
      }
    }
  }

  /** Sending a batch again, right after it was ingested: it succeeds, accepts nothing, and leaves a device as the first
    * send left it exactly when the first send accepted no observation of it, or the device was known but not listed.
    * Every other device that it reports is taken down.
    */
  lemma ResendExact(s: State, w: u64, obs: seq<Observation>, policy: Policy, now: Timestamp, policy': Policy, now': Timestamp,
                    k: Text)
    requires w in s.workers && !s.workers[w].lost && !s.workers[w].fenced
    requires Reached(s, w, obs, policy, now) == |obs|
    ensures var t := Step(s, Ingest(w, obs, policy, now));
            var again := Ingest(w, obs, policy', now');
            var u := Step(t, again);
            && PlanOf(t, again).status == Ok && u.accepts == t.accepts
            && (Lookup(u, k) == Lookup(t, k)
                <==> KeyFold(Lookup(s, k), k, obs, policy, now, s.epoch).accepted == 0
                     || (k in s.devices && k !in s.workers[w].devices))
            && (Lookup(u, k) != Lookup(t, k) ==> k in t.devices && Lookup(u, k) == Some(Vanished(t.devices[k])))
  {
    hide Judge, Next, CanonicalKey, Vanished, KeyFold, Step, PlanOf;
    var t := Step(s, Ingest(w, obs, policy, now));
    forall o | o in obs ensures Judge(t, w, o) == Skipped {
      var i :| 0 <= i < |obs| && obs[i] == o;
      IngestedIsSkipped(s, w, obs, policy, now, i);
    }
    var added := BatchWorkers(s, w, obs, policy, now);
    RepeatedBatchSweeps(t, w, obs, policy', now', k);
    BatchAccepted(s, w, obs, policy, now, k);
    FoldNotVanished(Lookup(s, k), k, obs, policy, now, s.epoch);
    if k in s.devices {
      VanishedTwice(s.devices[k]);
    }
  }
}
