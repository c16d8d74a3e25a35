/** A coordinator over its whole life: messages from any connection, losses, saves, and restarts from what was saved. */
module Lifetime {
  import opened Basics
  import opened Codec
  import opened Identity
  import opened Device
  import opened Pipeline
  import opened Records
  import opened Fleet
  import opened FleetRuns
  import opened FleetFencing
  import opened FleetStore
  import opened SnapshotCodec
  import opened Persistence
  import opened Recovery
  import opened Saving
  import opened Coordinator
  import M = Message
  import ObservationCodec
  import RegistrationCodec
  import Framing

  /** The store, and the state whose image is in the state file, if there is one. */
  datatype Site = Site(store: State, disk: Option<State>)

  /** A message is handled, a worker is found lost, the store is saved, or the process stops and starts again: what
    * happened since the last save is then forgotten.
    */
  datatype Event =
    | Received(m: M.Message, now: Timestamp)
    | Missed(worker: u64)
    | Saved
    | Restarted(coordinator: u64, epoch: u64)

  /** What a new process starts with. */
  function Started(disk: Option<State>, coordinator: u64, epoch: u64): Result<State> {
    match disk
    case None => Success(Initial(coordinator, epoch))
    case Some(s) => Recover(Image(SnapshotOf(s)))
  }

  function Then(c: Site, e: Event): Site {
    match e
    case Received(m, now) => c.(store := Dispatched(c.store, m, now))
    case Missed(w) => c.(store := Step(c.store, MarkLost(w)))
    case Saved => c.(disk := Some(c.store))
    case Restarted(id, epoch) =>
      match Started(c.disk, id, epoch) case Success(r) => c.(store := r) case Failure(_) => c
  }

  function Life(c: Site, events: seq<Event>): Site
    decreases |events|
  {
    if events == [] then c else Life(Then(c, events[0]), events[1..])
  }

  /** A process only starts when its state file can be loaded. */
  predicate Possible(c: Site, e: Event) { e.Restarted? && c.disk.Some? ==> Savable(c.disk.value) }

  /** Every event of a life happens in a state in which it may. */
  ghost predicate Lived(c: Site, events: seq<Event>, allowed: (Site, Event) -> bool)
    decreases |events|
  {
    events == [] || (allowed(c, events[0]) && Lived(Then(c, events[0]), events[1..], allowed))
  }

  lemma {:induction false} LifeKeeps(c: Site, events: seq<Event>, p: Site -> bool, allowed: (Site, Event) -> bool)
    requires p(c) && Lived(c, events, allowed)
    requires forall t, e :: p(t) && allowed(t, e) ==> p(Then(t, e))
    ensures p(Life(c, events))
    decreases |events|
  {
    hide Then;
    if events != [] {
      LifeKeeps(Then(c, events[0]), events[1..], p, allowed);
    }
  }

  /** Whatever a message says, the call it asks for has texts and lists as a decoder leaves them. */
  lemma MessageDelivers(epoch: u64, m: M.Message, now: Timestamp)
    ensures var op := OpOf(epoch, m, now); op.Some? ==> Delivered(op.value) && Moderate(op.value)
  {
    hide Storable, ObservationCodec.DecodedBatch, ObservationCodec.WithinCapabilities, RegistrationCodec.Decoded;
    if IsReport(m.kind) && ObservationCodec.DecodedBatch(m.payload).Success? {
      ObservationCodec.BatchStorable(m.payload);
    }
    if m.kind == Framing.MessageType.REGISTER && RegistrationCodec.Decoded(m.payload).Success? {
      RegistrationCodec.DecodedLists(m.payload);
    }
  }

  /** The call that an event leads to, if it leads to one. */
  function CallOf(s: State, e: Event): Option<Op> {
    match e
    case Received(m, now) => OpOf(s.epoch, m, now)
    case Missed(w) => Some(MarkLost(w))
    case _ => None
  }

  lemma EventCalls(c: Site, e: Event)
    requires e.Received? || e.Missed?
    ensures match CallOf(c.store, e)
            case None => Then(c, e) == c
            case Some(op) => Delivered(op) && Moderate(op) && Then(c, e) == c.(store := Step(c.store, op))
  {
    hide Started, OpOf, Step;
    if e.Received? {
      MessageDelivers(c.store.epoch, e.m, e.now);
    }
  }

  lemma RestartRecovers(c: Site, e: Event)
    requires e.Restarted? && Possible(c, e)
    ensures c.disk.None? ==> Then(c, e) == c.(store := Initial(e.coordinator, e.epoch))
    ensures c.disk.Some? ==> DistinctClips(c.disk.value.devices) && Then(c, e) == c.(store := After(c.disk.value))
  {
    hide Savable, Recover, Image, DistinctClips, After;
    if c.disk.Some? {
      RecoverSaved(c.disk.value);
    }
  }

  // ---- The invariant over a life ----

  lemma StepConsistent(s: State, op: Op)
    requires Consistent(s)
    ensures Consistent(Step(s, op))
  {
    hide Consistent, Step;
    RunConsistent(s, [op]);
    RunOne(s, op);
  }

  lemma StepInvariant(s: State, op: Op)
    requires Invariant(s)
    ensures Invariant(Step(s, op))
  {
    hide Invariant, Step;
    RunInvariant(s, [op]);
    RunOne(s, op);
  }

  /** What every store has that is reached by messages, from an empty one. */
  predicate Lasting(s: State) { Consistent(s) && WithinLimits(s) && Bounded(s) }

  lemma InitialLasting(coordinator: u64, epoch: u64)
    ensures Lasting(Initial(coordinator, epoch))
  {
    NothingStored(coordinator, epoch);
    InitialConsistent(coordinator, epoch);
    InitialBounded(coordinator, epoch);
  }

  lemma StepLasting(s: State, op: Op)
    requires Lasting(s) && Delivered(op) && Moderate(op)
    ensures Lasting(Step(s, op))
  {
    hide Consistent, WithinLimits, Bounded, Step, Delivered, Moderate;
    StepBounded(s, op);
    StepConsistent(s, op);
    StepWithinLimits(s, op);
  }

  lemma AfterLasting(s: State)
    requires Lasting(s) && DistinctClips(s.devices)
    ensures Lasting(After(s))
  {
    hide Consistent, WithinLimits, Bounded, After, DistinctClips;
    AfterBounded(s);
    RecoveredConsistent(s);
    RecoveredWithinLimits(s);
  }

  /** A property of the store, and of what is saved. */
  ghost predicate Both(c: Site, p: State -> bool) { p(c.store) && (c.disk.Some? ==> p(c.disk.value)) }

  lemma EventLasting(c: Site, e: Event)
    requires Both(c, Lasting) && Possible(c, e)
    ensures Both(Then(c, e), Lasting)
  {
    hide Lasting, After, Delivered, Moderate, Step, DistinctClips, Savable, CallOf;
    if e.Restarted? {
      hide Then;
      RestartRecovers(c, e);
      InitialLasting(e.coordinator, e.epoch);
      if c.disk.Some? {
        AfterLasting(c.disk.value);
      }
    } else if e.Received? || e.Missed? {
      hide Then;
      EventCalls(c, e);
      var op := CallOf(c.store, e);
      if op.Some? {
        StepLasting(c.store, op.value);
      }
    }
  }

  /** Through messages of any content, losses, saves and restarts, the store stays consistent and its identities storable. */
  lemma LifeConsistent(c: Site, events: seq<Event>)
    requires Both(c, Lasting) && Lived(c, events, Possible)
    ensures Both(Life(c, events), Lasting)
  {
    hide Lasting, Both, Then, Possible, Lived, Life;
    var p := (t: Site) => Both(t, Lasting);
    forall t, e | p(t) && Possible(t, e) ensures p(Then(t, e)) {
      EventLasting(t, e);
    }
    LifeKeeps(c, events, p, Possible);
  }

  /** At any time of such a life the process can be started again exactly when there is room in the state file. */
  lemma RestartExactly(c: Site, e: Event)
    requires Both(c, Lasting) && e.Restarted?
    ensures Possible(c, e) <==> (c.disk.Some? ==> RoomToSave(c.disk.value))
    ensures (c.disk.Some? ==> Countable(SnapshotOf(c.disk.value))) ==>
              (Started(c.disk, e.coordinator, e.epoch).Success? <==> Possible(c, e))
  {
    hide Consistent, WithinLimits, Bounded, RoomToSave, Savable, Recover, Image, Countable;
    if c.disk.Some? {
      SavableExact(c.disk.value);
      if Countable(SnapshotOf(c.disk.value)) {
        LoadsExactly(c.disk.value);
      }
    }
  }

  /** A restart from a state file with no device key longer than a snapshot keeps. */
  predicate ShortAtRestart(c: Site, e: Event) {
    Possible(c, e) && (e.Restarted? && c.disk.Some? ==> forall k :: k in c.disk.value.devices ==> |k| <= 256)
  }

  predicate Proven(s: State) { Invariant(s) && WithinLimits(s) }

  lemma StepProven(s: State, op: Op)
    requires Proven(s) && Delivered(op)
    ensures Proven(Step(s, op))
  {
    hide Invariant, WithinLimits, Step, Delivered;
    StepInvariant(s, op);
    StepWithinLimits(s, op);
  }

  /** Recovery proves the invariant anew exactly when no key is too long. */
  lemma AfterProven(s: State)
    requires Proven(s) && DistinctClips(s.devices)
    ensures Proven(After(s)) <==> forall k :: k in s.devices ==> |k| <= 256
  {
    hide Invariant, WithinLimits, After, DistinctClips;
    RecoveredInvariant(s);
    RecoveredWithinLimits(s);
  }

  lemma EventProven(c: Site, e: Event)
    requires Both(c, Proven) && ShortAtRestart(c, e)
    ensures Both(Then(c, e), Proven)
  {
    hide Proven, After, Delivered, Step, DistinctClips, Savable, CallOf;
    if e.Restarted? {
      hide Then;
      RestartRecovers(c, e);
      InitialProven(e.coordinator, e.epoch);
      if c.disk.Some? {
        AfterProven(c.disk.value);
      }
    } else if e.Received? || e.Missed? {
      hide Then;
      EventCalls(c, e);
      var op := CallOf(c.store, e);
      if op.Some? {
        StepProven(c.store, op.value);
      }
    }
  }

  lemma InitialProven(coordinator: u64, epoch: u64)
    ensures Proven(Initial(coordinator, epoch))
  {
    hide Invariant, WithinLimits, Initial;
    NothingStored(coordinator, epoch);
    InitialInvariant(coordinator, epoch);
  }

  /** With short keys in the state files it starts from, a coordinator keeps the whole invariant for life. */
  lemma LifeInvariant(c: Site, events: seq<Event>)
    requires Both(c, Proven) && Lived(c, events, ShortAtRestart)
    ensures Both(Life(c, events), Proven)
  {
    hide Proven, Both, Then, ShortAtRestart, Lived, Life;
    var p := (t: Site) => Both(t, Proven);
    forall t, e | p(t) && ShortAtRestart(t, e) ensures p(Then(t, e)) {
      EventProven(t, e);
    }
    LifeKeeps(c, events, p, ShortAtRestart);
  }

  // ---- Loss over a life ----

  /** The loss of w's incarnation boot, and of k with it, is known to the store and saved. */
  predicate GoneForGood(c: Site, w: u64, boot: u64, k: Text) {
    Gone(c.store, w, boot, k) && c.disk.Some? && Gone(c.disk.value, w, boot, k)
  }

  /** Nobody else reports k, and worker w does not come back under another boot. */
  predicate StaysGone(c: Site, e: Event, w: u64, boot: u64, k: Text) {
    Possible(c, e) && (CallOf(c.store, e).Some? ==> GoneUnder(CallOf(c.store, e).value, w, boot, k))
  }

  lemma AfterGone(s: State, w: u64, boot: u64, k: Text)
    requires Gone(s, w, boot, k) && DistinctClips(s.devices)
    ensures Gone(After(s), w, boot, k)
  {
    hide After, DistinctClips, Down;
    RecoverySafe(s);
    AllDown(s, k);
    assert SameIncarnation(s.workers[w], After(s).workers[w]);
  }

  lemma EventGone(c: Site, e: Event, w: u64, boot: u64, k: Text)
    requires GoneForGood(c, w, boot, k) && StaysGone(c, e, w, boot, k)
    ensures GoneForGood(Then(c, e), w, boot, k)
  {
    hide Gone, After, Step, DistinctClips, CallOf, Savable;
    if e.Restarted? {
      hide Then;
      RestartRecovers(c, e);
      AfterGone(c.disk.value, w, boot, k);
    } else if e.Received? || e.Missed? {
      hide Then;
      EventCalls(c, e);
      var op := CallOf(c.store, e);
      if op.Some? {
        StepGone(c.store, op.value, w, boot, k);
      }
    }
  }

  /** Once a loss is saved, the lost incarnation stays fenced and a device that only it reports stays down for the life of
    * the coordinator, restarts included.
    */
  lemma GoneForLife(c: Site, events: seq<Event>, w: u64, boot: u64, k: Text)
    requires GoneForGood(c, w, boot, k)
    requires Lived(c, events, (t: Site, e: Event) => StaysGone(t, e, w, boot, k))
    ensures GoneForGood(Life(c, events), w, boot, k)
  {
    hide Then, StaysGone, Lived, Life, GoneForGood;
    var p := (t: Site) => GoneForGood(t, w, boot, k);
    var allowed := (t: Site, e: Event) => StaysGone(t, e, w, boot, k);
    forall t, e | p(t) && allowed(t, e) ensures p(Then(t, e)) {
      EventGone(t, e, w, boot, k);
    }
    LifeKeeps(c, events, p, allowed);
  }

  /** A loss that is not saved is forgotten: whatever the store knew, after a restart a worker is fenced exactly when it
    * was registered and fenced at the last save, and then under the boot it had there.
    */
  lemma FencedAfterRestart(c: Site, e: Event, w: u64)
    requires e.Restarted? && Possible(c, e)
    ensures var r := Then(c, e).store;
            (w in r.workers && r.workers[w].fenced)
            <==> (c.disk.Some? && w in c.disk.value.workers && c.disk.value.workers[w].fenced)
    ensures var r := Then(c, e).store;
            w in r.workers ==> c.disk.Some? && w in c.disk.value.workers && r.workers[w].boot == c.disk.value.workers[w].boot
  {
    hide Then, After, DistinctClips, Savable;
    RestartRecovers(c, e);
    if c.disk.Some? {
      RecoverySafe(c.disk.value);
      if w in c.disk.value.workers {
        assert SameIncarnation(c.disk.value.workers[w], After(c.disk.value).workers[w]);
      }
    }
  }
}
