/** Replay over the whole life of a coordinator: the history of acceptances goes on across restarts. */
module Chronicle {
  import opened Basics
  import opened Identity
  import opened Device
  import opened Pipeline
  import opened Fleet
  import opened FleetRuns
  import opened FleetFencing
  import opened FleetReplay
  import opened FleetStore
  import opened SnapshotCodec
  import opened Persistence
  import opened Recovery
  import opened Coordinator
  import opened Lifetime

  /** The store after a restart, remembering every acceptance there was. What the store itself knows of superseded
    * incarnations is what was saved.
    */
  function Reopened(was: State, disk: Option<State>, coordinator: u64, epoch: u64): State
    requires disk.Some? ==> DistinctClips(disk.value.devices)
  {
    match disk
    case None => Initial(coordinator, epoch).(accepts := was.accepts)
    case Some(d) => Resumed(d).(accepts := was.accepts)
  }

  /** An event of a life, with the history of acceptances going on across it. */
  function Onward(c: Site, e: Event): Site {
    if !e.Restarted? then Then(c, e)
    else if c.disk.Some? && !Savable(c.disk.value) then c
    else
      assert c.disk.Some? ==> DistinctClips(c.disk.value.devices) by {
        if c.disk.Some? {
          RecoverSaved(c.disk.value);
        }
      }
      c.(store := Reopened(c.store, c.disk, e.coordinator, e.epoch))
  }

  function Chronicled(c: Site, events: seq<Event>): Site
    decreases |events|
  {
    if events == [] then c else Chronicled(Onward(c, events[0]), events[1..])
  }

  // ---- What is remembered changes nothing ----

  /** The states agree in everything the program keeps. */
  predicate Like(s: State, t: State) {
    t == s.(records := t.records, accepts := t.accepts, retired := t.retired)
  }

  lemma AppliedLike(s: State, t: State, o: Observation, policy: Policy, now: Timestamp)
    requires Like(s, t)
    ensures AppliedTo(s, o, policy, now) == AppliedTo(t, o, policy, now)
  {
    hide ApplyObservation, CanonicalKey;
  }

  lemma AcceptLike(s: State, t: State, w: u64, o: Observation, policy: Policy, now: Timestamp)
    requires Like(s, t)
    ensures Like(AcceptNext(s, w, o, policy, now), AcceptNext(t, w, o, policy, now))
  {
    hide AppliedTo, CanonicalKey, PushAll, AcceptanceOf;
    AppliedLike(s, t, o, policy, now);
  }

  lemma NextLike(s: State, t: State, a: Action)
    requires Like(s, t)
    ensures Like(Next(s, a), Next(t, a))
  {
    hide AcceptNext, CanonicalKey, PushAll, Recompute, Silenced, Vanished, VanishRecord, DrainRecord, QuarantineChange,
         ClearChange;
    if a.Accept? {
      AcceptLike(s, t, a.worker, a.o, a.policy, a.now);
    }
  }

  lemma {:induction false} ApplyLike(s: State, t: State, acts: seq<Action>)
    requires Like(s, t)
    ensures Like(ApplyAll(s, acts), ApplyAll(t, acts))
    decreases acts
  {
    hide Next, Like;
    if acts != [] {
      NextLike(s, t, acts[0]);
      ApplyLike(Next(s, acts[0]), Next(t, acts[0]), acts[1..]);
    }
  }

  lemma JudgeLike(s: State, t: State, w: u64, o: Observation)
    requires Like(s, t)
    ensures Judge(s, w, o) == Judge(t, w, o)
  {
    hide CanonicalKey;
  }

  lemma {:induction false} TakeAllLike(s: State, t: State, w: u64, obs: seq<Observation>, policy: Policy, now: Timestamp, last: Applied)
    requires Like(s, t)
    ensures TakeAll(s, w, obs, policy, now, last) == TakeAll(t, w, obs, policy, now, last)
    decreases obs
  {
    hide Next, Judge, AppliedTo, CanonicalKey, Like;
    if obs != [] {
      JudgeLike(s, t, w, obs[0]);
      match Judge(s, w, obs[0])
      case Refused(_) =>
      case Skipped => TakeAllLike(s, t, w, obs[1..], policy, now, last);
      case Taken =>
        var a := Accept(w, obs[0], policy, now);
        AppliedLike(s, t, obs[0], policy, now);
        NextLike(s, t, a);
        TakeAllLike(Next(s, a), Next(t, a), w, obs[1..], policy, now, AppliedTo(s, obs[0], policy, now));
    }
  }

  lemma PlanLike(s: State, t: State, op: Op)
    requires Like(s, t)
    ensures PlanOf(s, op) == PlanOf(t, op)
  {
    if op.Ingest? {
      TakeAllLike(s, t, op.worker, op.obs, op.policy, op.now, NOTHING_APPLIED);
      ApplyLike(s, t, TakeAll(s, op.worker, op.obs, op.policy, op.now, NOTHING_APPLIED).actions);
    }
    hide TakeAll, ApplyAll, SweepActions, SilenceActions, Judge, CanonicalKey;
  }

  /** A call does the same to both. */
  lemma StepLike(s: State, t: State, op: Op)
    requires Like(s, t)
    ensures Like(Step(s, op), Step(t, op))
  {
    hide PlanOf, ApplyAll, Like;
    PlanLike(s, t, op);
    ApplyLike(s, t, PlanOf(s, op).actions);
  }

  // ---- A life and its chronicle ----

  predicate LikeSites(c: Site, d: Site) {
    && Like(c.store, d.store)
    && (match (c.disk, d.disk)
        case (None, None) => true
        case (Some(x), Some(y)) => Like(x, y)
        case _ => false)
  }

  /** Every event of a chronicle happens in a state in which it may. */
  ghost predicate LivedOn(c: Site, events: seq<Event>, allowed: (Site, Event) -> bool)
    decreases |events|
  {
    events == [] || (allowed(c, events[0]) && LivedOn(Onward(c, events[0]), events[1..], allowed))
  }

  lemma {:induction false} ChronicleKeeps(c: Site, events: seq<Event>, p: Site -> bool, allowed: (Site, Event) -> bool)
    requires p(c) && LivedOn(c, events, allowed)
    requires forall t, e :: p(t) && allowed(t, e) ==> p(Onward(t, e))
    ensures p(Chronicled(c, events))
    decreases |events|
  {
    hide Onward;
    if events != [] {
      ChronicleKeeps(Onward(c, events[0]), events[1..], p, allowed);
    }
  }

  lemma SameSnapshots(s: State, t: State)
    requires Like(s, t)
    ensures SnapshotOf(s) == SnapshotOf(t) && (Savable(s) <==> Savable(t))
    ensures DistinctClips(s.devices) ==> DistinctClips(t.devices) && Like(After(s), After(t))
  {
    hide Countable, InBounds, PutSnapshot, DistinctClips, Clipped;
    AccountingLike(s, t);
  }

  lemma AccountingLike(s: State, t: State)
    requires Like(s, t)
    ensures AccountingOf(s) == AccountingOf(t)
  {
    hide WorkersWhere, DevicesIn;
  }

  /** What a restart comes to, remembered or not. */
  lemma ReopenedLike(c: Site, e: Event)
    requires e.Restarted? && Possible(c, e)
    ensures Like(Onward(c, e).store, Then(c, e).store) && Onward(c, e).disk == c.disk == Then(c, e).disk
  {
    hide Savable, DistinctClips, After, Then;
    RestartRecovers(c, e);
  }

  lemma RestartLike(c: Site, d: Site, e: Event)
    requires e.Restarted? && LikeSites(c, d) && Possible(c, e)
    ensures Possible(d, e) && LikeSites(Then(c, e), Then(d, e))
  {
    hide Savable, DistinctClips, After, Then, Like;
    if c.disk.Some? {
      SameSnapshots(c.disk.value, d.disk.value);
    }
    RestartRecovers(c, e);
    RestartRecovers(d, e);
    LikeSelf(Initial(e.coordinator, e.epoch));
  }

  lemma LikeSelf(s: State)
    ensures Like(s, s)
  {
  }

  lemma LikeTrans(s: State, t: State, u: State)
    requires Like(s, t) && Like(t, u)
    ensures Like(s, u) && Like(t, s)
  {
  }

  lemma CallLike(c: Site, d: Site, e: Event)
    requires !e.Restarted? && LikeSites(c, d)
    ensures LikeSites(Then(c, e), Then(d, e))
  {
    hide OpOf, Step, Like;
    assert c.store.epoch == d.store.epoch by { LikeEpochs(c.store, d.store); }
    match e
    case Received(m, now) =>
      if OpOf(c.store.epoch, m, now).Some? {
        StepLike(c.store, d.store, OpOf(c.store.epoch, m, now).value);
      }
    case Missed(w) => StepLike(c.store, d.store, MarkLost(w));
    case Saved =>
  }

  lemma LikeEpochs(s: State, t: State)
    requires Like(s, t)
    ensures s.epoch == t.epoch
  {
  }

  lemma OnwardLike(c: Site, d: Site, e: Event)
    requires LikeSites(c, d) && Possible(c, e)
    ensures Possible(d, e) && LikeSites(Onward(c, e), Then(d, e))
  {
    hide Savable, Then, Like;
    if e.Restarted? {
      RestartLike(c, d, e);
      ReopenedLike(c, e);
      LikeTrans(Onward(c, e).store, Then(c, e).store, Then(d, e).store);
    } else {
      CallLike(c, d, e);
    }
  }

  /** A chronicle follows the life it remembers: in everything the program keeps they agree. */
  lemma {:induction false} ChronicleFollows(c: Site, d: Site, events: seq<Event>, allowed: (Site, Event) -> bool)
    requires LikeSites(c, d) && LivedOn(c, events, allowed) && forall t, e :: allowed(t, e) ==> Possible(t, e)
    ensures LikeSites(Chronicled(c, events), Life(d, events)) && Lived(d, events, Possible)
    decreases |events|
  {
    hide Onward, Then, LikeSites, Possible;
    if events != [] {
      OnwardLike(c, d, events[0]);
      ChronicleFollows(Onward(c, events[0]), Then(d, events[0]), events[1..], allowed);
    }
  }

  // ---- Replay safety over a life ----

  /** Nothing has been accepted since the last save. */
  predicate UpToDate(c: Site) { c.store.accepts == if c.disk.Some? then c.disk.value.accepts else [] }

  /** Superseded incarnations stay away, devices have one reporter, and a restart finds the state file up to date and no
    * device in it that can still be reported and whose key is cut.
    */
  predicate Careful(c: Site, e: Event, reporter: Text -> u64) {
    && Possible(c, e)
    && (CallOf(c.store, e).Some? ==> Disciplined(c.store, CallOf(c.store, e).value, reporter))
    && (e.Restarted? ==> UpToDate(c))
    && (e.Restarted? && c.disk.Some? ==> forall k :: k in c.disk.value.devices ==> !LiveLongKey(c.disk.value, k, reporter))
  }

  predicate BothSafe(c: Site, reporter: Text -> u64) {
    Safe(c.store, reporter) && (c.disk.Some? ==> Safe(c.disk.value, reporter))
  }

  lemma ReopenedSafe(c: Site, e: Event, reporter: Text -> u64)
    requires e.Restarted? && BothSafe(c, reporter) && Careful(c, e, reporter)
    ensures BothSafe(Onward(c, e), reporter)
  {
    hide Safe, Savable, LiveLongKey, DistinctClips, Onward, Resumed, CallOf;
    OnwardIs(c, e);
    if c.disk.Some? {
      NotOutside(c.disk.value, reporter);
      ResumedSafe(c.disk.value, reporter);
    } else {
      InitialSafe(e.coordinator, e.epoch, reporter);
    }
  }

  /** When the state file is up to date, a restart remembers exactly what the recovered store does. */
  lemma OnwardIs(c: Site, e: Event)
    requires e.Restarted? && Possible(c, e) && UpToDate(c)
    ensures c.disk.Some? ==> DistinctClips(c.disk.value.devices) && Onward(c, e) == c.(store := Resumed(c.disk.value))
    ensures c.disk.None? ==> Onward(c, e) == c.(store := Initial(e.coordinator, e.epoch))
  {
    hide Savable, DistinctClips, Resumed, Then, Recover, Image, SnapshotOf;
    if c.disk.Some? {
      RecoverSaved(c.disk.value);
      ResumedHistory(c.disk.value);
    }
  }

  lemma NotOutside(d: State, reporter: Text -> u64)
    ensures forall k :: k !in d.devices ==> !LiveLongKey(d, k, reporter)
  {
  }

  lemma InitialSafe(coordinator: u64, epoch: u64, reporter: Text -> u64)
    ensures Safe(Initial(coordinator, epoch), reporter)
  {
  }

  lemma SavedBoth(c: Site, e: Event, reporter: Text -> u64)
    requires BothSafe(c, reporter)
    ensures e.Saved? ==> BothSafe(Onward(c, e), reporter)
  {
    hide Safe, Savable, Reopened, Recover, Image, SnapshotOf, Dispatched, Step;
  }

  lemma OnwardSafe(c: Site, e: Event, reporter: Text -> u64)
    requires BothSafe(c, reporter) && Careful(c, e, reporter)
    ensures BothSafe(Onward(c, e), reporter)
  {
    hide Safe, Then, CallOf, Disciplined, Delivered, Saving.Moderate, Step, Savable, Reopened;
    SavedBoth(c, e, reporter);
    if e.Restarted? {
      ReopenedSafe(c, e, reporter);
    } else if e.Received? || e.Missed? {
      EventCalls(c, e);
      var op := CallOf(c.store, e);
      if op.Some? {
        StepSafe(c.store, op.value, reporter);
      }
    }
  }

  /** Over every such life, restarts included, nothing is accepted twice. */
  lemma LifeReplaySafety(c: Site, events: seq<Event>, reporter: Text -> u64)
    requires BothSafe(c, reporter)
    requires LivedOn(c, events, (t: Site, e: Event) => Careful(t, e, reporter))
    ensures NeverReplayed(Chronicled(c, events).store.accepts)
  {
    var p := (t: Site) => BothSafe(t, reporter);
    var allowed := (t: Site, e: Event) => Careful(t, e, reporter);
    hide BothSafe, Onward, Careful, LivedOn, Chronicled;
    forall t, e | p(t) && allowed(t, e) ensures p(Onward(t, e)) {
      OnwardSafe(t, e, reporter);
    }
    ChronicleKeeps(c, events, p, allowed);
    BothNever(Chronicled(c, events), reporter);
  }

  lemma BothNever(c: Site, reporter: Text -> u64)
    requires BothSafe(c, reporter)
    ensures NeverReplayed(c.store.accepts)
  {
  }
}
