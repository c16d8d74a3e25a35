/** From an agent's enumerations to the store's acceptances, through bytes: registration and batches are encoded, framed,
  * cut into chunks, received, decoded and dispatched.
  */
module Conversation {
  import opened Basics
  import opened Codec
  import opened Identity
  import opened Device
  import opened Pipeline
  import opened Fleet
  import opened FleetRuns
  import opened FleetFencing
  import opened Framing
  import opened Message
  import opened Agent
  import opened Coordinator
  import opened Delivery
  import opened Channel
  import M = Message
  import RegistrationCodec
  import ObservationCodec

  /** The batches an agent publishes, one for each enumeration that yields any observation. */
  function Batches(a: AgentState, dss: seq<seq<Probing>>): seq<seq<Observation>>
    decreases |dss|
  {
    if dss == [] then [] else
      var batch := BatchOf(a, dss[0]);
      if batch == [] then Batches(a, dss[1..]) else [batch] + Batches(Published(a), dss[1..])
  }

  function Snapshot(a: AgentState): seq<Observation> -> M.Message { batch => SnapshotMessage(a, batch) }

  function CanReceive(a: AgentState): seq<Observation> -> bool { batch => Receivable(a, batch) }

  /** All that an agent sends on a connection. */
  function Said(a: AgentState, keys: seq<Text>, batches: seq<seq<Observation>>): seq<M.Message> {
    [RegisterMessage(a, keys)] + MapSeq(Snapshot(a), batches)
  }

  function FirstDue(a: AgentState): Due {
    Due(a.worker, a.boot, a.epoch, a.observationGeneration, a.deviceGeneration, a.healthGeneration)
  }

  function LaterBy(due: Due, i: nat): Due { due.(observation := due.observation + i, device := due.device + i) }

  // ---- The batches are due one after another ----

  lemma BatchesStep(a: AgentState, dss: seq<seq<Probing>>)
    ensures dss == [] ==> Batches(a, dss) == []
    ensures dss != [] && BatchOf(a, dss[0]) == [] ==> Batches(a, dss) == Batches(a, dss[1..])
    ensures dss != [] && BatchOf(a, dss[0]) != [] ==> Batches(a, dss) == [BatchOf(a, dss[0])] + Batches(Published(a), dss[1..])
  {
    hide BatchOf, Published;
  }

  lemma DueSteps(a: AgentState)
    ensures LaterBy(FirstDue(a), 0) == FirstDue(a)
    ensures a.observationGeneration < 0xFFFF_FFFF_FFFF_FFFF && a.deviceGeneration < 0xFFFF_FFFF_FFFF_FFFF ==>
              && Published(a).observationGeneration == a.observationGeneration + 1
              && Published(a).deviceGeneration == a.deviceGeneration + 1
              && forall i: nat :: LaterBy(FirstDue(Published(a)), i) == LaterBy(FirstDue(a), i + 1)
  {
  }

  lemma FirstBatchDue(a: AgentState, ds: seq<Probing>)
    requires DistinctDevices(Arriving(BatchOf(a, ds)))
    ensures DueBatch(Arriving(BatchOf(a, ds)), FirstDue(a))
  {
    hide BatchOf, Arriving, DueBatch, DistinctDevices;
    ArrivingDue(a, ds, FirstDue(a));
  }

  lemma {:induction false} BatchesDue(a: AgentState, dss: seq<seq<Probing>>)
    requires a.observationGeneration + |dss| < 0x1_0000_0000_0000_0000
    requires a.deviceGeneration + |dss| < 0x1_0000_0000_0000_0000
    requires forall b :: b in Batches(a, dss) ==> DistinctDevices(Arriving(b))
    ensures forall i :: 0 <= i < |Batches(a, dss)| ==> DueBatch(Arriving(Batches(a, dss)[i]), LaterBy(FirstDue(a), i))
    decreases |dss|
  {
    hide *;
    BatchesStep(a, dss);
    if dss != [] {
      var batch := BatchOf(a, dss[0]);
      if batch == [] {
        BatchesDue(a, dss[1..]);
      } else {
        var rest := Batches(Published(a), dss[1..]);
        DueSteps(a);
        assert batch == Batches(a, dss)[0] && batch in Batches(a, dss);
        FirstBatchDue(a, dss[0]);
        assert forall b :: b in rest ==> b in Batches(a, dss);
        BatchesDue(Published(a), dss[1..]);
        forall i | 0 <= i < |Batches(a, dss)| ensures DueBatch(Arriving(Batches(a, dss)[i]), LaterBy(FirstDue(a), i)) {
          if i > 0 {
            assert Batches(a, dss)[i] == rest[i - 1];
          }
        }
      }
    }
  }

  // ---- Dispatching them ----

  lemma {:induction false} CarriableConcat(a: AgentState, x: seq<seq<Observation>>, y: seq<seq<Observation>>)
    ensures Carriable(a, x + y) == Carriable(a, x) + Carriable(a, y)
  {
    hide Sendable, Arriving;
    if y == [] {
      assert x + y == x;
    } else {
      var n := |y| - 1;
      assert (x + y)[..|x| + n] == x + y[..n];
      CarriableConcat(a, x, y[..n]);
    }
  }

  lemma CarriableOne(a: AgentState, batch: seq<Observation>)
    ensures Carriable(a, [batch]) == if Sendable(a, batch) then Arriving(batch) else []
  {
    hide Sendable, Arriving;
    assert [batch][..0] == [];
    assert Carriable(a, []) == [];
  }

  lemma SnapshotSession(c: Session, a: AgentState, batches: seq<seq<Observation>>, clock: nat -> Timestamp)
    requires batches != []
    ensures var d := Session(Dispatched(c.store, SnapshotMessage(a, batches[0]), clock(c.handled)), c.bound, c.handled + 1, false);
            Converse(c, MapSeq(Snapshot(a), batches), clock) == Converse(d, MapSeq(Snapshot(a), batches[1..]), clock)
  {
    hide Dispatched, ObservationCodec.PutBatch;
    assert MapSeq(Snapshot(a), batches)[1..] == MapSeq(Snapshot(a), batches[1..]);
  }

  /** One batch more: its observations are accepted exactly when it can be sent, and the store is ready for the next. */
  lemma OneBatch(s: State, a: AgentState, batch: seq<Observation>, due: Due, now: Timestamp)
    requires Receivable(a, batch) && Prepared(s, due) && due.worker == a.worker && due.boot == a.boot
    requires DueBatch(Arriving(batch), due)
    ensures var t := Dispatched(s, SnapshotMessage(a, batch), now);
            && Prepared(t, Later(due))
            && AcceptedFrom(t.accepts, a.worker, a.boot)
               == AcceptedFrom(s.accepts, a.worker, a.boot) + Acceptances(a.worker, Carriable(a, [batch]))
  {
    hide *;
    SnapshotDispatched(s, a, batch, now);
    OutcomeIs(s, a, batch, now);
    OutcomeAccepts(s, a, batch, due, now);
    CarriableOne(a, batch);
    NoAcceptances(a.worker);
    AcceptedConcat(s.accepts, Acceptances(a.worker, Carriable(a, [batch])), a.worker, a.boot);
    DueBoot(Arriving(batch), due);
    OwnCarriable(a, batch);
    AcceptedAll(Acceptances(a.worker, Carriable(a, [batch])), a.worker, a.boot);
  }

  lemma OutcomeIs(s: State, a: AgentState, batch: seq<Observation>, now: Timestamp)
    requires Receivable(a, batch)
    ensures Outcome(s, a, batch, now)
            == Some(if Sendable(a, batch) then Step(s, Ingest(a.worker, Arriving(batch), DEFAULT_POLICY, now)) else s)
  {
    hide Sendable, Receivable, Step, Arriving;
  }

  lemma OwnCarriable(a: AgentState, batch: seq<Observation>)
    requires forall o :: o in Arriving(batch) ==> o.workerBoot == a.boot
    ensures forall x :: x in Acceptances(a.worker, Carriable(a, [batch])) ==> x.worker == a.worker && x.boot == a.boot
  {
    hide Sendable, Arriving, Acceptances, Carriable;
    CarriableOne(a, batch);
    OwnAcceptances(a.worker, a.boot, Carriable(a, [batch]));
  }

  lemma {:induction false} ConverseBatches(c: Session, a: AgentState, batches: seq<seq<Observation>>, due: Due, clock: nat -> Timestamp)
    requires Prepared(c.store, due) && due.worker == a.worker && due.boot == a.boot && !c.dropped
    requires forall b :: b in batches ==> Receivable(a, b)
    requires forall i :: 0 <= i < |batches| ==> DueBatch(Arriving(batches[i]), LaterBy(due, i))
    ensures var d := Converse(c, MapSeq(Snapshot(a), batches), clock);
            && d.bound == c.bound && Prepared(d.store, LaterBy(due, |batches|))
            && AcceptedFrom(d.store.accepts, a.worker, a.boot)
               == AcceptedFrom(c.store.accepts, a.worker, a.boot) + Acceptances(a.worker, Carriable(a, batches))
    decreases |batches|
  {
    hide *;
    DueFacts(due);
    if batches == [] {
      NothingSaid(c, a, clock);
    } else {
      var batch, rest := batches[0], batches[1..];
      var d := Session(Dispatched(c.store, SnapshotMessage(a, batch), clock(c.handled)), c.bound, c.handled + 1, false);
      SnapshotSession(c, a, batches, clock);
      assert batches[0] in batches && DueBatch(Arriving(batches[0]), LaterBy(due, 0));
      OneBatch(c.store, a, batch, due, clock(c.handled));
      forall i | 0 <= i < |rest| ensures DueBatch(Arriving(rest[i]), LaterBy(Later(due), i)) {
        assert DueBatch(Arriving(batches[i + 1]), LaterBy(due, i + 1));
      }
      ConverseBatches(d, a, rest, Later(due), clock);
      assert batches == [batch] + rest;
      CarriableConcat(a, [batch], rest);
      AcceptancesConcat(a.worker, Carriable(a, [batch]), Carriable(a, rest));
    }
  }

  lemma DueFacts(due: Due)
    ensures LaterBy(due, 0) == due && Later(due).worker == due.worker && Later(due).boot == due.boot
    ensures forall i: nat :: LaterBy(Later(due), i) == LaterBy(due, i + 1)
  {
  }

  lemma NothingSaid(c: Session, a: AgentState, clock: nat -> Timestamp)
    ensures Converse(c, MapSeq(Snapshot(a), []), clock) == c
    ensures Carriable(a, []) == [] && Acceptances(a.worker, []) == []
    ensures AcceptedFrom(c.store.accepts, a.worker, a.boot) + [] == AcceptedFrom(c.store.accepts, a.worker, a.boot)
  {
    hide AcceptedFrom, AcceptanceOf;
  }

  // ---- The registration in front of them ----

  /** The registration as it arrives, through the codec. */
  function Registering(a: AgentState, keys: seq<Text>): Registration { RegistrationCodec.Clipped(RegistrationOf(a, keys)) }

  lemma RegisterDispatched(s: State, a: AgentState, keys: seq<Text>, now: Timestamp)
    requires |keys| <= RegistrationCodec.LISTED
    ensures Dispatched(s, RegisterMessage(a, keys), now) == Step(s, Register(Registering(a, keys), now))
    ensures var reg := Registering(a, keys); reg.worker == a.worker && reg.boot == a.boot && reg.epoch == a.epoch
  {
    hide Step, RegistrationCodec.Decoded, RegistrationCodec.PutRegistration, Clip, Ascii;
    RegistrationCodec.RegistrationRoundTrip(RegistrationOf(a, keys));
  }

  lemma RegisterSession(s: State, a: AgentState, keys: seq<Text>, batches: seq<seq<Observation>>, clock: nat -> Timestamp)
    ensures var d := Session(Dispatched(s, RegisterMessage(a, keys), clock(0)), Some(a.worker), 1, false);
            Converse(Opened(s), Said(a, keys, batches), clock) == Converse(d, MapSeq(Snapshot(a), batches), clock)
  {
    hide Dispatched, RegistrationCodec.PutRegistration, Snapshot;
    var ms := Said(a, keys, batches);
    assert ms[1..] == MapSeq(Snapshot(a), batches);
  }

  /** How much of what is said is heard: the registration, and the batches before the first that is too long. */
  lemma HeardOf(a: AgentState, keys: seq<Text>, batches: seq<seq<Observation>>)
    requires Carried(RegisterMessage(a, keys))
    ensures var n := Leading(batches, CanReceive(a));
            && Leading(Said(a, keys, batches), Carried) == 1 + n
            && Said(a, keys, batches)[..1 + n] == Said(a, keys, batches[..n])
  {
    hide Carried, RegisterMessage, Snapshot, CanReceive;
    var ms := Said(a, keys, batches);
    assert ms[1..] == MapSeq(Snapshot(a), batches);
    var n := Leading(batches, CanReceive(a));
    SnapshotsCarried(a, batches);
    assert MapSeq(Snapshot(a), batches)[..n] == MapSeq(Snapshot(a), batches[..n]);
  }

  lemma {:induction false} SnapshotsCarried(a: AgentState, batches: seq<seq<Observation>>)
    ensures Leading(MapSeq(Snapshot(a), batches), Carried) == Leading(batches, CanReceive(a))
  {
    hide Carried, Snapshot, CanReceive;
    if batches != [] {
      assert MapSeq(Snapshot(a), batches)[1..] == MapSeq(Snapshot(a), batches[1..]);
      SnapshotCarried(a, batches[0]);
      SnapshotsCarried(a, batches[1..]);
    }
  }

  lemma SnapshotCarried(a: AgentState, batch: seq<Observation>)
    ensures Carried(Snapshot(a)(batch)) <==> CanReceive(a)(batch)
  {
    hide PutMessage, ObservationCodec.PutBatch;
  }

  /** The state after registration and batches, and who is still authoritative in it. */
  lemma RegisteredAndHeard(s: State, a: AgentState, keys: seq<Text>, batches: seq<seq<Observation>>, clock: nat -> Timestamp)
    requires |keys| <= RegistrationCodec.LISTED && OwnBoot(s, a)
    requires PlanOf(s, Register(Registering(a, keys), clock(0))).status == Ok
    requires forall b :: b in batches ==> Receivable(a, b)
    requires forall i :: 0 <= i < |batches| ==> DueBatch(Arriving(batches[i]), LaterBy(FirstDue(a), i))
    ensures var c := Converse(Opened(s), Said(a, keys, batches), clock);
            && c.bound == Some(a.worker) && Prepared(c.store, LaterBy(FirstDue(a), |batches|))
            && AcceptedFrom(c.store.accepts, a.worker, a.boot) == Acceptances(a.worker, Carriable(a, batches))
  {
    hide *;
    RegisterSession(s, a, keys, batches, clock);
    RegisterDispatched(s, a, keys, clock(0));
    var d := Session(Dispatched(s, RegisterMessage(a, keys), clock(0)), Some(a.worker), 1, false);
    RegisteredFirst(s, a, Registering(a, keys), clock(0));
    ConverseBatches(d, a, batches, FirstDue(a), clock);
    assert [] + Acceptances(a.worker, Carriable(a, batches)) == Acceptances(a.worker, Carriable(a, batches));
  }

  /** The agent's boot is nobody else's, and nothing has been accepted from it yet. */
  predicate OwnBoot(s: State, a: AgentState) {
    && (forall v :: v in s.workers ==> s.workers[v].boot != a.boot)
    && (forall k :: k in s.devices ==> s.devices[k].workerBoot != a.boot)
    && (forall x :: x in s.accepts ==> x.boot != a.boot)
  }

  lemma RegisteredFirst(s: State, a: AgentState, reg: Registration, now: Timestamp)
    requires reg.worker == a.worker && reg.boot == a.boot && reg.epoch == a.epoch && OwnBoot(s, a)
    requires PlanOf(s, Register(reg, now)).status == Ok
    ensures var t := Step(s, Register(reg, now));
            Prepared(t, FirstDue(a)) && AcceptedFrom(t.accepts, a.worker, a.boot) == []
    ensures FirstDue(a).worker == a.worker && FirstDue(a).boot == a.boot
  {
    hide Step, PlanOf, Prepared, AdmitNext, RecordOf, AcceptedFrom;
    FirstAdmitted(s, reg, now);
    AdmittedReady(s, reg, now, FirstDue(a));
    AcceptedNone(s.accepts, a.worker, a.boot);
  }

  // ---- End to end ----

  lemma SaidFramable(a: AgentState, keys: seq<Text>, batches: seq<seq<Observation>>)
    requires Carried(RegisterMessage(a, keys))
    requires forall b :: b in batches ==> Framable(SnapshotMessage(a, b))
    ensures forall m :: m in Said(a, keys, batches) ==> Framable(m)
  {
    hide PutMessage, RegistrationCodec.PutRegistration, ObservationCodec.PutBatch;
    forall m | m in Said(a, keys, batches) ensures Framable(m) {
      var i :| 0 <= i < |Said(a, keys, batches)| && Said(a, keys, batches)[i] == m;
      if i > 0 {
        assert batches[i - 1] in batches;
        assert m == SnapshotMessage(a, batches[i - 1]);
      }
    }
  }

  lemma ClosedAfter(c: Session, w: u64, boot: u64, due: Due)
    requires c.bound == Some(w) && Prepared(c.store, due) && due.worker == w && due.boot == boot
    ensures w in c.store.workers && c.store.workers[w].boot == boot && !c.store.workers[w].fenced
    ensures w in Closed(c).workers && Closed(c).workers[w].boot == boot && Closed(c).workers[w].fenced
    ensures Closed(c).accepts == c.store.accepts
  {
    hide Step, Down, AbsentDown;
    LossBringsDown(c.store, w, []);
    NoAcceptance(c.store, MarkLost(w));
  }

  /** The registration can be sent and succeeds, under a boot id of its own. */
  predicate Welcome(s: State, a: AgentState, keys: seq<Text>, now: Timestamp) {
    && |keys| <= RegistrationCodec.LISTED && Carried(RegisterMessage(a, keys)) && OwnBoot(s, a)
    && PlanOf(s, Register(Registering(a, keys), now)).status == Ok
  }

  lemma WelcomeMeans(s: State, a: AgentState, keys: seq<Text>, now: Timestamp)
    requires Welcome(s, a, keys, now)
    ensures |keys| <= RegistrationCodec.LISTED && Carried(RegisterMessage(a, keys)) && OwnBoot(s, a)
    ensures PlanOf(s, Register(Registering(a, keys), now)).status == Ok
  {
    hide Carried, OwnBoot, PlanOf, RegisterMessage, Registering;
  }

  /** Generations do not wrap, and each batch reports a device once and is shorter than 4 GiB. */
  predicate InOrder(a: AgentState, dss: seq<seq<Probing>>) {
    && a.observationGeneration + |dss| < 0x1_0000_0000_0000_0000 && a.deviceGeneration + |dss| < 0x1_0000_0000_0000_0000
    && forall b :: b in Batches(a, dss) ==> DistinctDevices(Arriving(b)) && Framable(SnapshotMessage(a, b))
  }

  lemma InOrderMeans(a: AgentState, dss: seq<seq<Probing>>)
    requires InOrder(a, dss)
    ensures a.observationGeneration + |dss| < 0x1_0000_0000_0000_0000 && a.deviceGeneration + |dss| < 0x1_0000_0000_0000_0000
    ensures forall b :: b in Batches(a, dss) ==> DistinctDevices(Arriving(b)) && Framable(SnapshotMessage(a, b))
  {
    hide DistinctDevices, Arriving, Framable, SnapshotMessage, Batches;
  }

  /** Exactly those batches have been accepted, whole and in order, that can be sent and that no batch precedes that is too
    * long for a frame. When there is no such batch, the agent's worker has been fenced as the connection ended; when there is
    * one, the connection was dropped and the worker keeps its authority.
    */
  predicate Concluded(t: State, a: AgentState, batches: seq<seq<Observation>>) {
    var n := Leading(batches, CanReceive(a));
    && AcceptedFrom(t.accepts, a.worker, a.boot) == Acceptances(a.worker, Carriable(a, batches[..n]))
    && a.worker in t.workers && t.workers[a.worker].boot == a.boot
    && (t.workers[a.worker].fenced <==> n == |batches|)
  }

  /** What an agent says on a connection, from its enumerations to the store, however its frames are cut into chunks. */
  lemma ConversationAccepted(s: State, a: AgentState, keys: seq<Text>, dss: seq<seq<Probing>>, chunks: seq<Bytes>,
                             clock: nat -> Timestamp)
    requires Welcome(s, a, keys, clock(0)) && InOrder(a, dss)
    requires Flatten(chunks) == EncodedFrames(MapSeq(FrameOf, Said(a, keys, Batches(a, dss))))
    ensures Concluded(Served(s, Flatten(chunks), clock), a, Batches(a, dss))
  {
    hide *;
    WelcomeMeans(s, a, keys, clock(0));
    InOrderMeans(a, dss);
    var batches := Batches(a, dss);
    var n := Leading(batches, CanReceive(a));
    var heard := batches[..n];
    BatchesDue(a, dss);
    SaidFramable(a, keys, batches);
    ConversationServed(s, Said(a, keys, batches), chunks, clock);
    HeardMeans(s, Said(a, keys, batches), clock);
    HeardOf(a, keys, batches);
    SaidLength(a, keys, batches);
    HeardReceivable(a, batches);
    RegisteredAndHeard(s, a, keys, heard, clock);
    var c := Converse(Opened(s), Said(a, keys, heard), clock);
    SameDue(a, n);
    ClosedAfter(c, a.worker, a.boot, LaterBy(FirstDue(a), n));
    ConcludedWhen(Served(s, Flatten(chunks), clock), a, batches);
  }

  lemma ConcludedWhen(t: State, a: AgentState, batches: seq<seq<Observation>>)
    requires var n := Leading(batches, CanReceive(a));
             && AcceptedFrom(t.accepts, a.worker, a.boot) == Acceptances(a.worker, Carriable(a, batches[..n]))
             && a.worker in t.workers && t.workers[a.worker].boot == a.boot
             && (t.workers[a.worker].fenced <==> n == |batches|)
    ensures Concluded(t, a, batches)
  {
    hide Acceptances, AcceptedFrom, Carriable, Leading, CanReceive;
  }

  lemma SaidLength(a: AgentState, keys: seq<Text>, batches: seq<seq<Observation>>)
    ensures |Said(a, keys, batches)| == 1 + |batches|
  {
  }

  lemma SameDue(a: AgentState, n: nat)
    ensures LaterBy(FirstDue(a), n).worker == a.worker && LaterBy(FirstDue(a), n).boot == a.boot
  {
  }

  lemma HeardReceivable(a: AgentState, batches: seq<seq<Observation>>)
    ensures var n := Leading(batches, CanReceive(a)); forall b :: b in batches[..n] ==> Receivable(a, b)
  {
    hide Receivable, Leading;
    var n := Leading(batches, CanReceive(a));
    forall b | b in batches[..n] ensures Receivable(a, b) {
      var i :| 0 <= i < n && batches[i] == b;
      assert CanReceive(a)(batches[i]);
    }
  }
}
