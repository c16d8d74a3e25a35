/** What a successful batch does to the devices it does not report, and what it records about them. */
module Sweeping {
  import opened Basics
  import opened Identity
  import opened Device
  import opened Pipeline
  import opened Fleet
  import opened FleetRuns
  import opened FleetBatch

  /** Observations of k have been accepted between s and t. */
  predicate AcceptedIn(s: State, t: State, k: Text) {
    exists i :: |s.accepts| <= i < |t.accepts| && t.accepts[i].key == k
  }

  /** The batch is taken in to its end. */
  predicate Succeeds(s: State, w: u64, obs: seq<Observation>, policy: Policy, now: Timestamp) {
    PlanOf(s, Ingest(w, obs, policy, now)).status == Ok
  }

  lemma SuccessMeans(s: State, w: u64, obs: seq<Observation>, policy: Policy, now: Timestamp)
    requires Succeeds(s, w, obs, policy, now)
    ensures w in s.workers && !s.workers[w].lost && !s.workers[w].fenced && Reached(s, w, obs, policy, now) == |obs|
  {
    hide TakeAll, ApplyAll, SweepActions, Reached;
    if w in s.workers {
      TakeAllStatus(s, w, obs, policy, now, NOTHING_APPLIED);
    }
  }

  /** Exactly the keys seen have had observations accepted. */
  lemma {:induction false} SeenAccepted(s: State, w: u64, obs: seq<Observation>, policy: Policy, now: Timestamp, last: Applied, k: Text)
    ensures var t := TakeAll(s, w, obs, policy, now, last);
            var u := ApplyAll(s, t.actions);
            s.accepts <= u.accepts && (k in t.seen <==> AcceptedIn(s, u, k))
    decreases obs
  {
    hide Next, Judge, AppliedTo, CanonicalKey, AcceptedIn;
    if obs == [] {
      NoneIn(s, k);
    } else {
      match Judge(s, w, obs[0])
      case Refused(_) => NoneIn(s, k);
      case Skipped => SeenAccepted(s, w, obs[1..], policy, now, last, k);
      case Taken =>
        var v := Next(s, Accept(w, obs[0], policy, now));
        var rest := TakeAll(v, w, obs[1..], policy, now, AppliedTo(s, obs[0], policy, now));
        SeenAccepted(v, w, obs[1..], policy, now, AppliedTo(s, obs[0], policy, now), k);
        OneIn(s, w, obs[0], policy, now, ApplyAll(v, rest.actions), k);
    }
  }

  lemma NoneIn(s: State, k: Text)
    ensures !AcceptedIn(s, s, k)
  {
  }

  lemma OneIn(s: State, w: u64, o: Observation, policy: Policy, now: Timestamp, u: State, k: Text)
    requires Next(s, Accept(w, o, policy, now)).accepts <= u.accepts
    ensures s.accepts <= u.accepts
    ensures AcceptedIn(s, u, k) <==> k == Key(o) || AcceptedIn(Next(s, Accept(w, o, policy, now)), u, k)
  {
    hide Next, CanonicalKey, Emitted;
    NextEmits(s, Accept(w, o, policy, now));
    var n := |s.accepts|;
    assert u.accepts[n] == AcceptanceOf(w, o);
    if AcceptedIn(s, u, k) {
      var i :| n <= i < |u.accepts| && u.accepts[i].key == k;
      assert i == n || n + 1 <= i;
    }
  }

  /** One disappearance for each occurrence in the list of a known key that was not renewed. */
  function Gone(s: State, keys: seq<Text>, renewed: set<Text>, now: Timestamp): seq<ChangeRecord> {
    if keys == [] then [] else
      (if keys[0] in s.devices && keys[0] !in renewed then
         [ChangeRecord(ChangeKind.DEVICE_DISAPPEARED, s.devices[keys[0]].deviceId, now, s.devices[keys[0]].generation, s.epoch,
                       Ascii("device no longer reported by worker"), Ascii("present"), Ascii("absent"))]
       else [])
      + Gone(s, keys[1..], renewed, now)
  }

  lemma VanishRecords(s: State, k: Text, now: Timestamp)
    ensures var t := Next(s, Vanish(k, now));
            && t.records == s.records + Gone(s, [k], {}, now) && t.epoch == s.epoch && t.devices.Keys == s.devices.Keys
            && (forall j :: j in s.devices ==>
                  t.devices[j].deviceId == s.devices[j].deviceId && t.devices[j].generation == s.devices[j].generation)
  {
    hide PushAll, Ascii;
    assert [k][1..] == [];
    assert Gone(s, [k][1..], {}, now) == [];
    assert s.records + [] == s.records;
  }

  /** What stays of a device makes the same records. */
  lemma {:induction false} GoneSame(s: State, t: State, keys: seq<Text>, renewed: set<Text>, now: Timestamp)
    requires t.epoch == s.epoch
    requires forall k :: k in keys && k !in renewed ==>
               && (k in t.devices <==> k in s.devices)
               && (k in s.devices ==> t.devices[k].deviceId == s.devices[k].deviceId && t.devices[k].generation == s.devices[k].generation)
    ensures Gone(t, keys, renewed, now) == Gone(s, keys, renewed, now)
  {
    hide Ascii;
    if keys != [] {
      GoneSame(s, t, keys[1..], renewed, now);
    }
  }

  lemma GoneOne(s: State, k: Text, rest: seq<Text>, renewed: set<Text>, now: Timestamp)
    ensures k in renewed ==> Gone(s, [k] + rest, renewed, now) == Gone(s, rest, renewed, now)
    ensures k !in renewed ==> Gone(s, [k] + rest, renewed, now) == Gone(s, [k], {}, now) + Gone(s, rest, renewed, now)
  {
    hide Ascii;
    assert ([k] + rest)[1..] == rest && [k][1..] == [];
    assert Gone(s, [k][1..], {}, now) == [];
  }

  lemma {:induction false} SweepRecords(s: State, keys: seq<Text>, seen: set<Text>, now: Timestamp)
    ensures ApplyAll(s, SweepActions(keys, seen, now)).records == s.records + Gone(s, keys, seen, now)
    decreases keys
  {
    hide Next, Gone;
    if keys == [] {
      assert Gone(s, keys, seen, now) == [] by { GoneNone(s, seen, now); }
    } else {
      assert keys == [keys[0]] + keys[1..];
      GoneOne(s, keys[0], keys[1..], seen, now);
      if keys[0] in seen {
        assert SweepActions(keys, seen, now) == SweepActions(keys[1..], seen, now);
        SweepRecords(s, keys[1..], seen, now);
      } else {
        var t := Next(s, Vanish(keys[0], now));
        VanishRecords(s, keys[0], now);
        SweepRecords(t, keys[1..], seen, now);
        GoneSame(s, t, keys[1..], seen, now);
      }
    }
  }

  lemma GoneNone(s: State, renewed: set<Text>, now: Timestamp)
    ensures Gone(s, [], renewed, now) == []
  {
  }

  lemma {:induction false} GoneConcat(s: State, a: seq<Text>, b: seq<Text>, renewed: set<Text>, now: Timestamp)
    ensures Gone(s, a + b, renewed, now) == Gone(s, a, renewed, now) + Gone(s, b, renewed, now)
  {
    hide Ascii;
    if a == [] {
      assert a + b == b;
    } else {
      assert (a + b)[0] == a[0] && (a + b)[1..] == a[1..] + b;
      GoneConcat(s, a[1..], b, renewed, now);
    }
  }

  lemma {:induction false} GoneRenewed(s: State, keys: seq<Text>, renewed: set<Text>, now: Timestamp)
    requires forall k :: k in keys ==> k in renewed
    ensures Gone(s, keys, renewed, now) == []
  {
    hide Ascii;
    if keys != [] {
      GoneRenewed(s, keys[1..], renewed, now);
    }
  }

  /** A device that a successful batch does not renew: when its worker lists it, it is absent, not fresh, LOST and INELIGIBLE
    * for having disappeared, and otherwise as it was; when it is not listed nothing about it changes.
    */
  lemma SweptEffect(s: State, w: u64, obs: seq<Observation>, policy: Policy, now: Timestamp, k: Text)
    requires Succeeds(s, w, obs, policy, now) && k in s.devices
    requires !AcceptedIn(s, Step(s, Ingest(w, obs, policy, now)), k)
    ensures w in s.workers
    ensures var t := Step(s, Ingest(w, obs, policy, now));
            && k in t.devices
            && t.devices[k] == if k in s.workers[w].devices
                               then s.devices[k].(present := false, isFresh := false, health := HealthState.LOST,
                                                  eligibility := Eligibility.INELIGIBLE, reasons := [Reason.DEVICE_DISAPPEARANCE])
                               else s.devices[k]
  {
    hide KeyFold, Step, PlanOf, CanonicalKey, AcceptedIn, Reached;
    SuccessMeans(s, w, obs, policy, now);
    BatchAccepted(s, w, obs, policy, now, k);
    StepAccepts(s, w, obs, policy, now, k);
    NotRenewed(s, w, obs, policy, now, k);
  }

  lemma NotRenewed(s: State, w: u64, obs: seq<Observation>, policy: Policy, now: Timestamp, k: Text)
    requires Reached(s, w, obs, policy, now) == |obs|
    ensures KeyFold(Lookup(s, k), k, obs, policy, now, s.epoch).accepted > 0
            <==> k in TakeAll(s, w, obs, policy, now, NOTHING_APPLIED).seen
  {
    hide KeyFold, TakeAll, Reached, Lookup;
    TakeAllFolds(s, w, obs, policy, now, NOTHING_APPLIED, k);
    assert obs[..|obs|] == obs;
  }

  /** The parts of a successful batch: what is taken in, the sweep and the heartbeat. */
  lemma BatchParts(s: State, w: u64, obs: seq<Observation>, policy: Policy, now: Timestamp)
    requires Succeeds(s, w, obs, policy, now)
    ensures w in s.workers
    ensures var taken := TakeAll(s, w, obs, policy, now, NOTHING_APPLIED);
            var u := ApplyAll(s, taken.actions);
            && w in u.workers
            && Step(s, Ingest(w, obs, policy, now))
               == Next(ApplyAll(u, SweepActions(u.workers[w].devices, taken.seen, now)), Beat(w, now))
  {
    hide TakeAll, ApplyAll, SweepActions, Next;
    var taken := TakeAll(s, w, obs, policy, now, NOTHING_APPLIED);
    var added := TakeAllLists(s, w, obs, policy, now, NOTHING_APPLIED);
    var u := ApplyAll(s, taken.actions);
    var sweep := SweepActions(u.workers[w].devices, taken.seen, now);
    ApplySnoc(s, taken.actions + sweep, Beat(w, now));
    ApplyConcat(s, taken.actions, sweep);
  }

  lemma BeatOnly(s: State, w: u64, now: Timestamp)
    ensures var t := Next(s, Beat(w, now)); t.accepts == s.accepts && t.records == s.records && t.devices == s.devices
  {
  }

  lemma StepAccepts(s: State, w: u64, obs: seq<Observation>, policy: Policy, now: Timestamp, k: Text)
    requires Succeeds(s, w, obs, policy, now)
    ensures AcceptedIn(s, Step(s, Ingest(w, obs, policy, now)), k) <==> k in TakeAll(s, w, obs, policy, now, NOTHING_APPLIED).seen
  {
    hide TakeAll, ApplyAll, SweepActions, Next, Step, Succeeds;
    BatchParts(s, w, obs, policy, now);
    var taken := TakeAll(s, w, obs, policy, now, NOTHING_APPLIED);
    var u := ApplyAll(s, taken.actions);
    SweepEffect(u, u.workers[w].devices, taken.seen, now, k);
    BeatOnly(ApplyAll(u, SweepActions(u.workers[w].devices, taken.seen, now)), w, now);
    SeenAccepted(s, w, obs, policy, now, NOTHING_APPLIED, k);
  }

  /** Of what are the changes that taking in a batch records: each of an observation it accepted, none administrative. */
  predicate OfAccepted(s: State, u: State, c: ChangeRecord) {
    && c.epoch == s.epoch && !Administrative(c.kind)
    && exists i :: |s.accepts| <= i < |u.accepts| && c.deviceId == u.accepts[i].evidence.deviceId
                   && c.at == u.accepts[i].evidence.observedAt && c.generation == u.accepts[i].evidence.deviceGeneration
  }

  lemma {:induction false} TakenRecords(s: State, w: u64, obs: seq<Observation>, policy: Policy, now: Timestamp, last: Applied)
    ensures var u := ApplyAll(s, TakeAll(s, w, obs, policy, now, last).actions);
            && s.records <= u.records && s.accepts <= u.accepts
            && forall i :: |s.records| <= i < |u.records| ==> OfAccepted(s, u, u.records[i])
    decreases obs
  {
    hide Next, Judge, AppliedTo, CanonicalKey, OfAccepted;
    if obs != [] {
      match Judge(s, w, obs[0])
      case Refused(_) =>
      case Skipped => TakenRecords(s, w, obs[1..], policy, now, last);
      case Taken =>
        var a := Accept(w, obs[0], policy, now);
        var v := Next(s, a);
        var u := ApplyAll(v, TakeAll(v, w, obs[1..], policy, now, AppliedTo(s, obs[0], policy, now)).actions);
        TakenRecords(v, w, obs[1..], policy, now, AppliedTo(s, obs[0], policy, now));
        AcceptRecords(s, w, obs[0], policy, now);
        forall i | |s.records| <= i < |u.records| ensures OfAccepted(s, u, u.records[i]) {
          if i < |v.records| {
            StillOfAccepted(s, v, u, v.records[i]);
          } else {
            EarlierOfAccepted(s, v, u, u.records[i]);
          }
        }
    }
  }

  lemma AcceptRecords(s: State, w: u64, o: Observation, policy: Policy, now: Timestamp)
    ensures var v := Next(s, Accept(w, o, policy, now));
            && s.records <= v.records && s.accepts <= v.accepts && v.epoch == s.epoch
            && forall i :: |s.records| <= i < |v.records| ==> OfAccepted(s, v, v.records[i])
  {
    hide Next, CanonicalKey, AppliedTo;
    var a := Accept(w, o, policy, now);
    var v := Next(s, a);
    NextEmits(s, a);
    AppliedFacts(s, o, policy, now);
    AppliedStamps(s, o, policy, now);
    assert v.accepts[|s.accepts|].evidence == o;
    forall i | |s.records| <= i < |v.records| ensures OfAccepted(s, v, v.records[i]) {
      assert v.records[i] == AppliedTo(s, o, policy, now).changes[i - |s.records|];
    }
  }

  lemma AppliedStamps(s: State, o: Observation, policy: Policy, now: Timestamp)
    ensures forall c :: c in AppliedTo(s, o, policy, now).changes ==>
              c.deviceId == o.deviceId && c.at == o.observedAt && c.generation == o.deviceGeneration
  {
    hide CanonicalKey, Diff, EvaluateHealth, EvaluateEligibility, Fresh;
    var prior := Prior(s, Key(o));
    var c := ApplyObservation(prior, o, policy, now, s.epoch).state;
    DiffExact(prior, c, o.observedAt, o.deviceGeneration, s.epoch);
    hide RecordFor;
    DiffStamps(prior, c, o.observedAt, o.deviceGeneration, s.epoch);
  }

  lemma DiffStamps(p: DeviceState, c: DeviceState, at: Timestamp, gen: u64, epoch: u64)
    ensures forall r :: r in Diff(p, c, at, gen, epoch) ==> r.deviceId == c.deviceId && r.at == at && r.generation == gen
  {
    DiffExact(p, c, at, gen, epoch);
    hide Diff, Changed, Detail, Shown;
  }

  lemma StillOfAccepted(s: State, v: State, u: State, c: ChangeRecord)
    requires OfAccepted(s, v, c) && v.accepts <= u.accepts
    ensures OfAccepted(s, u, c)
  {
    var i :| |s.accepts| <= i < |v.accepts| && c.deviceId == v.accepts[i].evidence.deviceId
             && c.at == v.accepts[i].evidence.observedAt && c.generation == v.accepts[i].evidence.deviceGeneration;
    assert u.accepts[i] == v.accepts[i];
  }

  lemma EarlierOfAccepted(s: State, v: State, u: State, c: ChangeRecord)
    requires OfAccepted(v, u, c) && s.accepts <= v.accepts && v.epoch == s.epoch
    ensures OfAccepted(s, u, c)
  {
  }

  /** What a successful batch records: changes of the observations it accepted, then one disappearance for each occurrence in
    * the worker's list of a known device that it did not renew, in the order of the list.
    */
  lemma BatchRecords(s: State, w: u64, obs: seq<Observation>, policy: Policy, now: Timestamp)
    returns (changes: seq<ChangeRecord>, renewed: set<Text>)
    requires Succeeds(s, w, obs, policy, now)
    ensures w in s.workers
    ensures var t := Step(s, Ingest(w, obs, policy, now));
            && t.records == s.records + changes + Gone(s, s.workers[w].devices, renewed, now)
            && (forall c :: c in changes ==> OfAccepted(s, t, c))
            && (forall k :: k in renewed <==> AcceptedIn(s, t, k))
  {
    hide TakeAll, ApplyAll, SweepActions, Next, Step, Succeeds, Gone, AcceptedIn, OfAccepted, ListedOnly;
    BatchParts(s, w, obs, policy, now);
    var taken := TakeAll(s, w, obs, policy, now, NOTHING_APPLIED);
    renewed := taken.seen;
    var u := ApplyAll(s, taken.actions);
    var keys := u.workers[w].devices;
    var sweep := SweepActions(keys, renewed, now);
    TakenRecords(s, w, obs, policy, now, NOTHING_APPLIED);
    changes := u.records[|s.records|..];
    SweepRecords(u, keys, renewed, now);
    BeatOnly(ApplyAll(u, sweep), w, now);
    SweepEffect(u, keys, renewed, now, []);
    var t := Step(s, Ingest(w, obs, policy, now));
    forall k ensures k in renewed <==> AcceptedIn(s, t, k) {
      StepAccepts(s, w, obs, policy, now, k);
    }
    forall c | c in changes ensures OfAccepted(s, t, c) {
      var i :| 0 <= i < |changes| && changes[i] == c;
      assert u.records[|s.records| + i] == c;
      StillOfAccepted(s, u, t, c);
    }
    GoneBefore(s, w, obs, policy, now);
    assert u.records == s.records + changes;
  }

  /** The sweep finds the list and the devices as they were, but for what was renewed. */
  lemma GoneBefore(s: State, w: u64, obs: seq<Observation>, policy: Policy, now: Timestamp)
    requires w in s.workers
    ensures var taken := TakeAll(s, w, obs, policy, now, NOTHING_APPLIED);
            var u := ApplyAll(s, taken.actions);
            && w in u.workers
            && Gone(u, u.workers[w].devices, taken.seen, now) == Gone(s, s.workers[w].devices, taken.seen, now)
  {
    hide TakeAll, ApplyAll, Gone, Reached, KeyFold;
    var taken := TakeAll(s, w, obs, policy, now, NOTHING_APPLIED);
    var u := ApplyAll(s, taken.actions);
    var added := TakeAllLists(s, w, obs, policy, now, NOTHING_APPLIED);
    GoneConcat(u, s.workers[w].devices, added, taken.seen, now);
    GoneRenewed(u, added, taken.seen, now);
    forall k | k !in taken.seen ensures Lookup(u, k) == Lookup(s, k) {
      Unseen(s, w, obs, policy, now, k);
    }
    GoneSame(s, u, s.workers[w].devices, taken.seen, now);
  }

  lemma Unseen(s: State, w: u64, obs: seq<Observation>, policy: Policy, now: Timestamp, k: Text)
    requires k !in TakeAll(s, w, obs, policy, now, NOTHING_APPLIED).seen
    ensures Lookup(ApplyAll(s, TakeAll(s, w, obs, policy, now, NOTHING_APPLIED).actions), k) == Lookup(s, k)
  {
    hide TakeAll, ApplyAll, Reached, KeyFold, Lookup;
    TakeAllFolds(s, w, obs, policy, now, NOTHING_APPLIED, k);
    UnseenUntouched(Lookup(s, k), k, obs[..Reached(s, w, obs, policy, now)], policy, now, s.epoch);
  }

  // ---- What a batch does to the workers ----

  /** Only the worker's own record changes: its list grows, and when the batch succeeds it has just been heard from. A batch in
    * the name of an unknown, lost or fenced worker changes nothing.
    */
  lemma IngestWorkers(s: State, w: u64, obs: seq<Observation>, policy: Policy, now: Timestamp) returns (added: seq<Text>)
    ensures var t := Step(s, Ingest(w, obs, policy, now));
            if w in s.workers && !s.workers[w].lost && !s.workers[w].fenced
            then t.workers == s.workers[w := s.workers[w].(
                   devices := s.workers[w].devices + added,
                   lastHeartbeat := if Succeeds(s, w, obs, policy, now) then now else s.workers[w].lastHeartbeat,
                   alive := Succeeds(s, w, obs, policy, now) || s.workers[w].alive)]
            else t == s && !Succeeds(s, w, obs, policy, now)
  {
    hide *;
    hide Step, PlanOf, Succeeds, Reached;
    added := [];
    if w in s.workers && !s.workers[w].lost && !s.workers[w].fenced {
      if Succeeds(s, w, obs, policy, now) {
        SuccessMeans(s, w, obs, policy, now);
        added := BatchWorkers(s, w, obs, policy, now);
      } else {
        FailureMeans(s, w, obs, policy, now);
        added := RefusedWorkers(s, w, obs, policy, now);
        ListedMeans(s, Step(s, Ingest(w, obs, policy, now)), w, added);
      }
    } else {
      NotEntitled(s, w, obs, policy, now);
    }
  }

  lemma ListedMeans(s: State, t: State, w: u64, added: seq<Text>)
    requires ListedOnly(s, t, w, added)
    ensures w in s.workers && t.workers == s.workers[w := s.workers[w].(devices := s.workers[w].devices + added)]
    ensures t.epoch == s.epoch
  {
  }

  lemma FailureMeans(s: State, w: u64, obs: seq<Observation>, policy: Policy, now: Timestamp)
    requires w in s.workers && !s.workers[w].lost && !s.workers[w].fenced && !Succeeds(s, w, obs, policy, now)
    ensures Reached(s, w, obs, policy, now) < |obs|
  {
    hide TakeAll, ApplyAll, SweepActions, Reached;
    TakeAllStatus(s, w, obs, policy, now, NOTHING_APPLIED);
  }

  lemma NotEntitled(s: State, w: u64, obs: seq<Observation>, policy: Policy, now: Timestamp)
    requires w !in s.workers || s.workers[w].lost || s.workers[w].fenced
    ensures Step(s, Ingest(w, obs, policy, now)) == s && !Succeeds(s, w, obs, policy, now)
  {
    hide TakeAll, SweepActions, Next;
  }

  // ---- A report of one observation ----

  /** The device is known from the same incarnation. */
  predicate KnownFrom(s: State, o: Observation) {
    CanonicalKey(o.identity) in s.devices && s.devices[CanonicalKey(o.identity)].workerBoot == o.workerBoot
  }

  /** What an observation alone in its batch is answered with. */
  function ReportStatus(s: State, w: u64, o: Observation): Status {
    if w !in s.workers then NotFound
    else if s.workers[w].lost || s.workers[w].fenced then NotAuthoritative
    else if o.epoch != s.epoch || o.workerBoot != s.workers[w].boot then Stale
    else if o.worker != w then IdentityMismatch
    else if KnownFrom(s, o) && o.observationGeneration > s.devices[CanonicalKey(o.identity)].observationGeneration
            && (o.deviceGeneration < s.devices[CanonicalKey(o.identity)].generation
                || o.healthGeneration < s.devices[CanonicalKey(o.identity)].healthGeneration)
    then InvalidGeneration
    else Ok
  }

  /** Whether it is something new. */
  predicate Newer(s: State, o: Observation) {
    KnownFrom(s, o) ==> o.observationGeneration > s.devices[CanonicalKey(o.identity)].observationGeneration
  }

  /** One observation is accepted exactly when it comes from the recorded incarnation, at the current epoch, under the worker's
    * own name, with a generation not seen before and no other generation that runs backwards; repetitions pass silently.
    */
  lemma OneObservation(s: State, w: u64, o: Observation, policy: Policy, now: Timestamp)
    ensures PlanOf(s, Ingest(w, [o], policy, now)).status == ReportStatus(s, w, o)
    ensures Step(s, Ingest(w, [o], policy, now)).accepts
            == if ReportStatus(s, w, o) == Ok && Newer(s, o)
               then s.accepts + [Acceptance(CanonicalKey(o.identity), w, o.workerBoot, o.epoch, o.observationGeneration,
                                            o.deviceGeneration, o.healthGeneration, o)]
               else s.accepts
    ensures ReportStatus(s, w, o) != Ok ==> Step(s, Ingest(w, [o], policy, now)) == s
  {
    hide *;
    hide PlanOf, Step, ReportStatus, Newer, Succeeds;
    JudgedAs(s, w, o);
    if w in s.workers && !s.workers[w].lost && !s.workers[w].fenced {
      OneTaken(s, w, o, policy, now);
      if ReportStatus(s, w, o) == Ok {
        OneSucceeds(s, w, o, policy, now);
      }
    } else {
      NotEntitled(s, w, [o], policy, now);
      NotEntitledStatus(s, w, [o], policy, now);
    }
  }

  lemma NotEntitledStatus(s: State, w: u64, obs: seq<Observation>, policy: Policy, now: Timestamp)
    ensures w !in s.workers ==> PlanOf(s, Ingest(w, obs, policy, now)).status == NotFound
    ensures w in s.workers && (s.workers[w].lost || s.workers[w].fenced) ==>
              PlanOf(s, Ingest(w, obs, policy, now)).status == NotAuthoritative
  {
    hide TakeAll, SweepActions;
  }

  lemma OneTaken(s: State, w: u64, o: Observation, policy: Policy, now: Timestamp)
    requires w in s.workers && !s.workers[w].lost && !s.workers[w].fenced
    ensures PlanOf(s, Ingest(w, [o], policy, now)).status == match Judge(s, w, o) case Refused(why) => why case _ => Ok
    ensures Judge(s, w, o).Refused? && Judge(s, w, o).status != Ok ==> Step(s, Ingest(w, [o], policy, now)) == s
  {
    hide Judge, Next, SweepActions, AppliedTo;
    OneIntake(s, w, o, policy, now);
    hide TakeAll;
  }

  lemma OneIntake(s: State, w: u64, o: Observation, policy: Policy, now: Timestamp)
    ensures var taken := TakeAll(s, w, [o], policy, now, NOTHING_APPLIED);
            && taken.actions == (if Judge(s, w, o) == Taken then [Accept(w, o, policy, now)] else [])
            && taken.status == match Judge(s, w, o) case Refused(why) => why case _ => Ok
  {
    hide Judge, Next, AppliedTo;
    assert [o][1..] == [];
  }

  lemma OneSucceeds(s: State, w: u64, o: Observation, policy: Policy, now: Timestamp)
    requires PlanOf(s, Ingest(w, [o], policy, now)).status == Ok
    ensures Step(s, Ingest(w, [o], policy, now)).accepts
            == s.accepts + if Judge(s, w, o) == Taken
                           then [Acceptance(CanonicalKey(o.identity), w, o.workerBoot, o.epoch, o.observationGeneration,
                                            o.deviceGeneration, o.healthGeneration, o)]
                           else []
  {
    hide Judge, TakeAll, ApplyAll, SweepActions, Next, Step, PlanOf, CanonicalKey;
    BatchParts(s, w, [o], policy, now);
    OneIntake(s, w, o, policy, now);
    var taken := TakeAll(s, w, [o], policy, now, NOTHING_APPLIED);
    var u := ApplyAll(s, taken.actions);
    SweepEffect(u, u.workers[w].devices, taken.seen, now, []);
    BeatOnly(ApplyAll(u, SweepActions(u.workers[w].devices, taken.seen, now)), w, now);
    if Judge(s, w, o) == Taken {
      One(s, Accept(w, o, policy, now));
      NextEmits(s, Accept(w, o, policy, now));
    } else {
      NoActions(s);
    }
  }

  lemma NoActions(s: State)
    ensures ApplyAll(s, []) == s
  {
  }

  lemma JudgedAs(s: State, w: u64, o: Observation)
    ensures w in s.workers && !s.workers[w].lost && !s.workers[w].fenced ==>
              Judge(s, w, o) == if ReportStatus(s, w, o) != Ok then Refused(ReportStatus(s, w, o))
                                else if Newer(s, o) then Taken else Skipped
    ensures w !in s.workers ==> ReportStatus(s, w, o) == NotFound
    ensures w in s.workers && (s.workers[w].lost || s.workers[w].fenced) ==> ReportStatus(s, w, o) == NotAuthoritative
  {
    hide CanonicalKey;
  }
}
