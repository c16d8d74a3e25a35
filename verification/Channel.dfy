/** An agent and a coordinator with a connection between them: what the agent publishes, frame by frame, and what the
  * store accepts of it.
  */
module Channel {
  import opened Basics
  import opened Codec
  import opened Identity
  import opened Device
  import opened Pipeline
  import opened Fleet
  import opened FleetRuns
  import opened FleetFencing
  import opened FleetReplay
  import opened FleetBatch
  import opened Framing
  import opened Message
  import opened Agent
  import opened Coordinator
  import opened Delivery
  import M = Message
  import RegistrationCodec
  import ObservationCodec

  // ---- One frame ----

  /** The frame in which an agent publishes a batch. */
  function FrameFor(a: AgentState, batch: seq<Observation>): Bytes { EncodedFrame(FrameOf(SnapshotMessage(a, batch))) }

  /** The state after a frame at the front of a connection, or none when the connection is dropped for it. */
  function Answered(s: State, frame: Bytes, now: Timestamp): Option<State> {
    match ParseFrame(frame)
    case Ready(f, _) =>
      (match M.Decoded(f.payload)
       case Success(m) => Some(Dispatched(s, m, now))
       case Failure(_) => None)
    case _ => None
  }

  /** A batch as it arrives, through the codec. */
  function Arriving(batch: seq<Observation>): seq<Observation> { MapSeq(ObservationCodec.Clipped, batch) }

  /** A frame with the batch is one the coordinator receives. */
  predicate Receivable(a: AgentState, batch: seq<Observation>) { Fits(FrameOf(SnapshotMessage(a, batch))) }

  lemma SnapshotDecoded(a: AgentState, batch: seq<Observation>)
    requires Receivable(a, batch)
    ensures M.Decoded(PutMessage(SnapshotMessage(a, batch), [])) == Success(SnapshotMessage(a, batch))
  {
    hide PutMessage, ObservationCodec.PutBatch, M.Decoded;
    PayloadWithin(SnapshotMessage(a, batch));
    MessageRoundTrip(SnapshotMessage(a, batch));
  }

  /** What a batch asks of the store: to be ingested clipped, or nothing at all. */
  lemma SnapshotDispatched(s: State, a: AgentState, batch: seq<Observation>, now: Timestamp)
    requires Receivable(a, batch)
    ensures Dispatched(s, SnapshotMessage(a, batch), now)
            == if Sendable(a, batch) then Step(s, Ingest(a.worker, Arriving(batch), DEFAULT_POLICY, now)) else s
  {
    hide Step, ObservationCodec.DecodedBatch, ObservationCodec.Clipped, RegistrationCodec.Decoded, PutMessage,
         ObservationCodec.PutBatch;
    if Sendable(a, batch) {
      BatchIngested(a, batch, s.epoch, now);
    } else {
      SnapshotCounts(a, batch);
      ObservationCodec.BatchRoundTrip(batch);
    }
  }

  /** A message that fits a frame counts its lists in less than 32 bits. */
  lemma SnapshotCounts(a: AgentState, batch: seq<Observation>)
    requires Receivable(a, batch)
    ensures |batch| < 0x1_0000_0000 && forall o :: o in batch ==> |o.capabilities| < 0x1_0000_0000
  {
    hide PutMessage, ObservationCodec.PutBatch;
    PayloadWithin(SnapshotMessage(a, batch));
    ObservationCodec.BatchCounts(batch);
  }

  /** What becomes of a published batch. */
  function Outcome(s: State, a: AgentState, batch: seq<Observation>, now: Timestamp): Option<State> {
    if Sendable(a, batch) then Some(Step(s, Ingest(a.worker, Arriving(batch), DEFAULT_POLICY, now)))
    else if Receivable(a, batch) then Some(s) else None
  }

  /** Exactly what becomes of a published batch: it is ingested when it can be sent; a frame that is too long ends the
    * connection; any other changes nothing, and the connection goes on.
    */
  lemma BatchAnswered(s: State, a: AgentState, batch: seq<Observation>, now: Timestamp)
    requires Framable(SnapshotMessage(a, batch))
    ensures Answered(s, FrameFor(a, batch), now) == Outcome(s, a, batch, now)
    ensures Sendable(a, batch) ==> Receivable(a, batch)
  {
    hide PutMessage, ParseFrame, EncodedFrame, Dispatched, Step, M.Decoded, Arriving, ObservationCodec.PutBatch;
    var f := FrameOf(SnapshotMessage(a, batch));
    EncodedFrameParses(f, []);
    assert EncodedFrame(f) + [] == EncodedFrame(f);
    if Receivable(a, batch) {
      SnapshotDecoded(a, batch);
      SnapshotDispatched(s, a, batch, now);
    }
  }

  // ---- The two parties ----

  /** A store, an agent, the frames in flight from it to the coordinator, whether the connection is open, and the batches
    * published so far, of which the coordinator has handled the first ones.
    */
  datatype World = World(
    store: State, agent: AgentState, queue: seq<Bytes>, open: bool, sent: seq<seq<Observation>>, handled: nat)

  datatype Event =
    | Publish(devices: seq<Probing>)
    | Deliver(now: Timestamp)
    | Other(op: Op)

  /** The world after the frame at the head of the queue was answered. */
  function Handled(v: World, answer: Option<State>): World
    requires v.queue != []
  {
    match answer
    case None => v.(open := false)
    case Some(t) => v.(store := t, queue := v.queue[1..], handled := v.handled + 1)
  }

  function Advance(v: World, e: Event): World {
    match e
    case Publish(ds) =>
      var batch := BatchOf(v.agent, ds);
      if batch == [] then v else
        v.(agent := Published(v.agent), queue := v.queue + [FrameFor(v.agent, batch)], sent := v.sent + [batch])
    case Deliver(now) =>
      if v.queue == [] || !v.open then v else Handled(v, Answered(v.store, v.queue[0], now))
    case Other(op) => v.(store := Step(v.store, op))
  }

  function AdvanceAll(v: World, es: seq<Event>): World
    decreases es
  {
    if es == [] then v else AdvanceAll(Advance(v, es[0]), es[1..])
  }

  /** The generations of the batch at the head of the queue. */
  function HeadDue(v: World): Due {
    Due(v.agent.worker, v.agent.boot, v.agent.epoch, v.agent.observationGeneration - |v.queue|,
        v.agent.deviceGeneration - |v.queue|, v.agent.healthGeneration)
  }

  function DueAt(v: World, i: int): Due {
    HeadDue(v).(observation := HeadDue(v).observation + i, device := HeadDue(v).device + i)
  }

  /** Generations do not wrap, a published batch reports each device once and is shorter than 4 GiB, and nobody else
    * interferes with the worker.
    */
  predicate Allowed(v: World, e: Event) {
    match e
    case Publish(ds) =>
      && v.agent.observationGeneration < 0xFFFF_FFFF_FFFF_FFFF && v.agent.deviceGeneration < 0xFFFF_FFFF_FFFF_FFFF
      && DistinctDevices(Arriving(BatchOf(v.agent, ds))) && Framable(SnapshotMessage(v.agent, BatchOf(v.agent, ds)))
    case Deliver(_) => true
    case Other(op) => Elsewhere(op, HeadDue(v))
  }

  predicate AllowedRun(v: World, es: seq<Event>)
    decreases es
  {
    es == [] || (Allowed(v, es[0]) && AllowedRun(Advance(v, es[0]), es[1..]))
  }

  /** The frame carries the batch, which is due with the given generations. */
  predicate CarriesDue(a: AgentState, frame: Bytes, batch: seq<Observation>, due: Due) {
    && frame == FrameFor(a, batch) && batch != [] && Framable(SnapshotMessage(a, batch)) && DueBatch(Arriving(batch), due)
  }

  /** The queue holds the frames of the batches not handled yet, and the store is ready for the first of them. Only a
    * frame that is too long has closed the connection.
    */
  predicate InStep(v: World) {
    && Prepared(v.store, HeadDue(v))
    && |v.sent| == v.handled + |v.queue|
    && (forall i :: 0 <= i < |v.queue| ==> CarriesDue(v.agent, v.queue[i], v.sent[v.handled + i], DueAt(v, i)))
    && (!v.open ==> v.queue != [] && !Receivable(v.agent, v.sent[v.handled]))
  }

  /** The observations of those batches that can be sent, as they arrive. */
  function Carriable(a: AgentState, batches: seq<seq<Observation>>): seq<Observation> {
    if batches == [] then [] else
      var n := |batches| - 1;
      Carriable(a, batches[..n]) + if Sendable(a, batches[n]) then Arriving(batches[n]) else []
  }

  /** Of the batches handled, those that can be sent have been accepted, and no others. */
  predicate Settled(v: World) {
    && v.handled <= |v.sent|
    && AcceptedFrom(v.store.accepts, v.agent.worker, v.agent.boot)
       == Acceptances(v.agent.worker, Carriable(v.agent, v.sent[..v.handled]))
  }

  // ---- Publishing ----

  lemma ArrivingDue(a: AgentState, ds: seq<Probing>, due: Due)
    requires DistinctDevices(Arriving(BatchOf(a, ds)))
    requires due == Due(a.worker, a.boot, a.epoch, a.observationGeneration, a.deviceGeneration, a.healthGeneration)
    ensures DueBatch(Arriving(BatchOf(a, ds)), due)
  {
    hide BatchOf, CanonicalKey;
    BatchCarriesAuthority(a, ds);
    var batch, obs := BatchOf(a, ds), Arriving(BatchOf(a, ds));
    forall o | o in obs ensures Bears(o, due) {
      var i :| 0 <= i < |obs| && obs[i] == o;
      ClippedCarries(a, batch[i]);
      assert CarriesAuthority(a, o);
    }
  }

  /** Clipping on the wire touches neither authority nor generations. */
  lemma ClippedCarries(a: AgentState, o: Observation)
    requires CarriesAuthority(a, o)
    ensures CarriesAuthority(a, ObservationCodec.Clipped(o))
  {
  }

  /** What is sent of a batch does not depend on the agent's generations. */
  lemma SameFrames(a: AgentState, batch: seq<Observation>)
    ensures SnapshotMessage(Published(a), batch) == SnapshotMessage(a, batch)
    ensures FrameFor(Published(a), batch) == FrameFor(a, batch)
    ensures Sendable(Published(a), batch) <==> Sendable(a, batch)
    ensures Receivable(Published(a), batch) <==> Receivable(a, batch)
  {
    hide ObservationCodec.PutBatch, PutMessage, EncodedFrame;
  }

  lemma CarriableStep(a: AgentState, batches: seq<seq<Observation>>)
    ensures Carriable(a, []) == []
    ensures batches != [] ==>
              var n := |batches| - 1;
              Carriable(a, batches) == Carriable(a, batches[..n]) + if Sendable(a, batches[n]) then Arriving(batches[n]) else []
  {
    hide Sendable, Arriving;
  }

  lemma {:induction false} SameCarriable(a: AgentState, batches: seq<seq<Observation>>)
    ensures Carriable(Published(a), batches) == Carriable(a, batches)
  {
    hide *;
    CarriableStep(a, batches);
    CarriableStep(Published(a), batches);
    if batches != [] {
      SameFrames(a, batches[|batches| - 1]);
      SameCarriable(a, batches[..|batches| - 1]);
    }
  }

  lemma PublishInStep(v: World, ds: seq<Probing>)
    requires InStep(v) && Allowed(v, Publish(ds))
    ensures InStep(Advance(v, Publish(ds)))
  {
    hide Prepared, BatchOf, DueBatch, Arriving, DistinctDevices, SnapshotMessage, FrameFor, Receivable, Framable;
    var batch := BatchOf(v.agent, ds);
    if batch != [] {
      var u := Advance(v, Publish(ds));
      ArrivingDue(v.agent, ds, DueAt(v, |v.queue|));
      assert HeadDue(u) == HeadDue(v);
      forall i | 0 <= i < |u.queue| ensures CarriesDue(u.agent, u.queue[i], u.sent[u.handled + i], DueAt(u, i)) {
        assert DueAt(u, i) == DueAt(v, i);
        SameFrames(v.agent, u.sent[u.handled + i]);
      }
      if v.queue != [] {
        SameFrames(v.agent, v.sent[v.handled]);
      }
    }
  }

  lemma PublishSettled(v: World, ds: seq<Probing>)
    requires Settled(v)
    ensures Settled(Advance(v, Publish(ds)))
  {
    hide AcceptedFrom, Acceptances, BatchOf, FrameFor, Carriable;
    var u := Advance(v, Publish(ds));
    assert u.sent[..u.handled] == v.sent[..v.handled];
    SameCarriable(v.agent, v.sent[..v.handled]);
  }

  // ---- Delivering ----

  /** A store that is ready for a batch is ready for the one after it, whatever became of the first. */
  lemma ReadyLater(s: State, due: Due)
    requires Prepared(s, due)
    ensures Prepared(s, Later(due))
  {
  }

  lemma HeadIsDue(v: World)
    requires InStep(v) && v.queue != []
    ensures v.handled < |v.sent| && Prepared(v.store, HeadDue(v))
    ensures var batch := v.sent[v.handled];
            && v.queue[0] == FrameFor(v.agent, batch) && batch != [] && Framable(SnapshotMessage(v.agent, batch))
            && DueBatch(Arriving(batch), HeadDue(v))
  {
    hide Prepared, Receivable, FrameFor, Framable, SnapshotMessage, DueBatch, Arriving;
    assert DueAt(v, 0) == HeadDue(v) && v.sent[v.handled + 0] == v.sent[v.handled];
  }

  lemma AdvanceIdle(v: World, now: Timestamp)
    ensures v.queue == [] || !v.open ==> Advance(v, Deliver(now)) == v
  {
    hide Answered, Handled;
  }

  lemma AdvanceDeliver(v: World, now: Timestamp)
    requires v.queue != [] && v.open
    ensures Advance(v, Deliver(now)) == Handled(v, Answered(v.store, v.queue[0], now))
  {
    hide Answered, Handled;
  }

  /** Exactly what a delivery comes to: a batch that can be sent is ingested; any other changes nothing, and one that is
    * too long for a frame ends the connection.
    */
  lemma DeliveredExactly(v: World, now: Timestamp)
    requires InStep(v) && v.queue != [] && v.open
    ensures v.handled < |v.sent|
    ensures Advance(v, Deliver(now)) == Handled(v, Outcome(v.store, v.agent, v.sent[v.handled], now))
    ensures Sendable(v.agent, v.sent[v.handled]) ==> Receivable(v.agent, v.sent[v.handled])
  {
    hide *;
    HeadIsDue(v);
    AdvanceDeliver(v, now);
    BatchAnswered(v.store, v.agent, v.sent[v.handled], now);
  }

  lemma OutcomeAccepts(s: State, a: AgentState, batch: seq<Observation>, due: Due, now: Timestamp)
    requires Prepared(s, due) && due.worker == a.worker && DueBatch(Arriving(batch), due)
    ensures match Outcome(s, a, batch, now)
            case None => true
            case Some(t) =>
              && t.accepts == s.accepts + (if Sendable(a, batch) then Acceptances(a.worker, Arriving(batch)) else [])
              && Prepared(t, Later(due))
  {
    hide Prepared, DueBatch, Step, PlanOf, Sendable, Receivable, Acceptances, Arriving;
    if Sendable(a, batch) {
      DueAccepted(s, due, Arriving(batch), DEFAULT_POLICY, now);
      DueReady(s, due, Arriving(batch), DEFAULT_POLICY, now);
    } else {
      ReadyLater(s, due);
      assert s.accepts + [] == s.accepts;
    }
  }

  /** A delivered batch is accepted, whole and in order, exactly when it can be sent. */
  lemma AcceptedExactly(v: World, now: Timestamp)
    requires InStep(v) && v.queue != [] && v.open
    ensures v.handled < |v.sent|
    ensures var batch := v.sent[v.handled];
            Advance(v, Deliver(now)).store.accepts
            == v.store.accepts + (if Sendable(v.agent, batch) then Acceptances(v.agent.worker, Arriving(batch)) else [])
    ensures !Sendable(v.agent, v.sent[v.handled]) ==> Advance(v, Deliver(now)).store == v.store
    ensures Acceptances(v.agent.worker, Arriving(v.sent[v.handled])) != []
  {
    hide *;
    HeadIsDue(v);
    DeliveredExactly(v, now);
    SomethingSent(v.agent.worker, v.sent[v.handled]);
    OutcomeNone(v, v.sent[v.handled], now);
    OutcomeAccepts(v.store, v.agent, v.sent[v.handled], HeadDue(v), now);
    HandledStore(v, v.sent[v.handled], now);
  }

  lemma HandledStore(v: World, batch: seq<Observation>, now: Timestamp)
    requires v.queue != []
    ensures Handled(v, Outcome(v.store, v.agent, batch, now)).store
            == match Outcome(v.store, v.agent, batch, now) case None => v.store case Some(t) => t
    ensures !Sendable(v.agent, batch) ==> Handled(v, Outcome(v.store, v.agent, batch, now)).store == v.store
    ensures Outcome(v.store, v.agent, batch, now).None? ==> !Sendable(v.agent, batch)
    ensures v.store.accepts + [] == v.store.accepts
  {
    hide Sendable, Receivable, Step, Arriving;
  }

  lemma SomethingSent(w: u64, batch: seq<Observation>)
    requires batch != []
    ensures Acceptances(w, Arriving(batch)) != []
  {
    hide AcceptanceOf, ObservationCodec.Clipped;
    assert |Acceptances(w, Arriving(batch))| == |batch|;
  }

  /** And no device that a delivered batch reports is swept by it: it holds what its observation says. */
  lemma DeliveredNotSwept(v: World, now: Timestamp, i: nat)
    requires InStep(v) && v.queue != [] && v.open && v.handled < |v.sent|
    requires Sendable(v.agent, v.sent[v.handled]) && i < |v.sent[v.handled]|
    ensures var o := Arriving(v.sent[v.handled])[i];
            Lookup(Advance(v, Deliver(now)).store, Key(o))
            == Some(FleetBatch.Renewed(Lookup(v.store, Key(o)), o, DEFAULT_POLICY, now, v.store.epoch))
  {
    hide *;
    HeadIsDue(v);
    DeliveredExactly(v, now);
    HandledSendable(v, v.sent[v.handled], now);
    DueNotSwept(v.store, HeadDue(v), Arriving(v.sent[v.handled]), DEFAULT_POLICY, now, i);
  }

  lemma HandledSendable(v: World, batch: seq<Observation>, now: Timestamp)
    requires v.queue != [] && Sendable(v.agent, batch)
    ensures Handled(v, Outcome(v.store, v.agent, batch, now)).store
            == Step(v.store, Ingest(v.agent.worker, Arriving(batch), DEFAULT_POLICY, now))
    ensures HeadDue(v).worker == v.agent.worker
    ensures |Arriving(batch)| == |batch|
  {
    hide Sendable, Receivable, Step;
  }

  lemma HandledInStep(v: World, t: State)
    requires InStep(v) && v.queue != [] && v.open && Prepared(t, Later(HeadDue(v)))
    ensures InStep(Handled(v, Some(t)))
  {
    hide Prepared, CarriesDue, Receivable;
    var u := Handled(v, Some(t));
    assert HeadDue(u) == Later(HeadDue(v));
    forall i | 0 <= i < |u.queue| ensures CarriesDue(u.agent, u.queue[i], u.sent[u.handled + i], DueAt(u, i)) {
      assert DueAt(u, i) == DueAt(v, i + 1);
      assert CarriesDue(v.agent, v.queue[i + 1], v.sent[v.handled + (i + 1)], DueAt(v, i + 1));
    }
  }

  lemma DroppedInStep(v: World)
    requires InStep(v) && v.queue != [] && !Receivable(v.agent, v.sent[v.handled])
    ensures InStep(Handled(v, None))
  {
    hide Prepared, CarriesDue, Receivable;
    var u := Handled(v, None);
    assert HeadDue(u) == HeadDue(v);
    forall i | 0 <= i < |u.queue| ensures CarriesDue(u.agent, u.queue[i], u.sent[u.handled + i], DueAt(u, i)) {
      assert DueAt(u, i) == DueAt(v, i);
    }
  }

  lemma OutcomeNone(v: World, batch: seq<Observation>, now: Timestamp)
    ensures Outcome(v.store, v.agent, batch, now).None? ==> !Receivable(v.agent, batch)
    ensures HeadDue(v).worker == v.agent.worker && HeadDue(v).boot == v.agent.boot
  {
    hide Sendable, Receivable, Step, Arriving;
  }

  lemma DeliverInStep(v: World, now: Timestamp)
    requires InStep(v)
    ensures InStep(Advance(v, Deliver(now)))
  {
    hide *;
    AdvanceIdle(v, now);
    if v.queue != [] && v.open {
      HeadIsDue(v);
      DeliveredExactly(v, now);
      var batch := v.sent[v.handled];
      OutcomeNone(v, batch, now);
      OutcomeAccepts(v.store, v.agent, batch, HeadDue(v), now);
      match Outcome(v.store, v.agent, batch, now)
      case None => DroppedInStep(v);
      case Some(t) => HandledInStep(v, t);
    }
  }

  lemma CarriableSnoc(a: AgentState, batches: seq<seq<Observation>>, n: nat)
    requires n < |batches|
    ensures Carriable(a, batches[..n + 1])
            == Carriable(a, batches[..n]) + if Sendable(a, batches[n]) then Arriving(batches[n]) else []
  {
    hide Sendable, Arriving;
    assert batches[..n + 1][..n] == batches[..n];
  }

  lemma HandledSettled(v: World, t: State)
    requires Settled(v) && v.queue != [] && v.handled < |v.sent|
    requires var batch := v.sent[v.handled];
             t.accepts == v.store.accepts + (if Sendable(v.agent, batch) then Acceptances(v.agent.worker, Arriving(batch)) else [])
    requires forall o :: o in Arriving(v.sent[v.handled]) ==> o.workerBoot == v.agent.boot
    ensures Settled(Handled(v, Some(t)))
  {
    hide Sendable, Arriving, Acceptances, AcceptedFrom, Carriable;
    var batch := v.sent[v.handled];
    var before := Carriable(v.agent, v.sent[..v.handled]);
    CarriableSnoc(v.agent, v.sent, v.handled);
    if Sendable(v.agent, batch) {
      AcceptedAfter(v.store.accepts, v.agent.worker, v.agent.boot, before, Arriving(batch));
    } else {
      assert before + [] == before && v.store.accepts + [] == v.store.accepts;
    }
  }

  lemma DroppedSettled(v: World)
    requires Settled(v) && v.queue != []
    ensures Settled(Handled(v, None))
  {
    hide Carriable, Acceptances, AcceptedFrom;
  }

  lemma DeliverSettled(v: World, now: Timestamp)
    requires InStep(v) && Settled(v)
    ensures Settled(Advance(v, Deliver(now)))
  {
    hide *;
    AdvanceIdle(v, now);
    if v.queue != [] && v.open {
      HeadIsDue(v);
      DeliveredExactly(v, now);
      var batch := v.sent[v.handled];
      OutcomeNone(v, batch, now);
      OutcomeAccepts(v.store, v.agent, batch, HeadDue(v), now);
      DueBoot(Arriving(batch), HeadDue(v));
      match Outcome(v.store, v.agent, batch, now)
      case None => DroppedSettled(v);
      case Some(t) => HandledSettled(v, t);
    }
  }

  // ---- Others ----

  lemma OtherSettled(v: World, op: Op)
    requires Settled(v) && Elsewhere(op, HeadDue(v))
    ensures Settled(Advance(v, Other(op)))
  {
    hide Step, AcceptedFrom, Acceptances, Elsewhere, Carriable;
    OthersAccepted(v.store, op, HeadDue(v));
    AcceptedUnchanged(v.store.accepts, Step(v.store, op).accepts, v.agent.worker, v.agent.boot);
  }

  lemma OtherInStep(v: World, op: Op)
    requires InStep(v) && Elsewhere(op, HeadDue(v))
    ensures InStep(Advance(v, Other(op)))
  {
    hide Prepared, Step, CarriesDue, Receivable;
    ElsewhereReady(v.store, op, HeadDue(v));
    var u := Advance(v, Other(op));
    assert HeadDue(u) == HeadDue(v);
    forall i | 0 <= i < |u.queue| ensures CarriesDue(u.agent, u.queue[i], u.sent[u.handled + i], DueAt(u, i)) {
      assert DueAt(u, i) == DueAt(v, i);
    }
  }

  lemma AdvanceKeeps(v: World, e: Event)
    requires InStep(v) && Settled(v) && Allowed(v, e)
    ensures InStep(Advance(v, e)) && Settled(Advance(v, e))
  {
    hide InStep, Settled, Advance, DistinctDevices, HeadDue, Elsewhere, Framable;
    match e
    case Publish(ds) =>
      PublishInStep(v, ds);
      PublishSettled(v, ds);
    case Deliver(now) =>
      DeliverInStep(v, now);
      DeliverSettled(v, now);
    case Other(op) =>
      OtherInStep(v, op);
      OtherSettled(v, op);
  }

  /** Over every run of publishing, in-order delivery and calls that leave the worker's authority alone: exactly those
    * handled batches that can be sent have been accepted, once and in order; the rest is in flight, behind a frame that is
    * too long when the connection has been dropped.
    */
  lemma {:induction false} EverySendableIsAccepted(v: World, es: seq<Event>)
    requires InStep(v) && Settled(v) && AllowedRun(v, es)
    ensures InStep(AdvanceAll(v, es)) && Settled(AdvanceAll(v, es))
    decreases es
  {
    hide InStep, Settled, Allowed, Advance;
    if es != [] {
      AdvanceKeeps(v, es[0]);
      EverySendableIsAccepted(Advance(v, es[0]), es[1..]);
    }
  }

  function Joined(batches: seq<seq<Observation>>): seq<Observation> {
    if batches == [] then [] else Joined(batches[..|batches| - 1]) + Arriving(batches[|batches| - 1])
  }

  lemma {:induction false} AllCarriable(a: AgentState, batches: seq<seq<Observation>>)
    requires forall b :: b in batches ==> Sendable(a, b)
    ensures Carriable(a, batches) == Joined(batches)
  {
    hide Sendable, Arriving;
    if batches != [] {
      AllCarriable(a, batches[..|batches| - 1]);
    }
  }

  /** When all that was published can be sent, all of it is accepted or in flight on an open connection. */
  lemma EverythingPublishedIsAccepted(v: World, es: seq<Event>)
    requires InStep(v) && Settled(v) && AllowedRun(v, es)
    requires forall b :: b in AdvanceAll(v, es).sent ==> Sendable(v.agent, b)
    ensures var u := AdvanceAll(v, es);
            && u.open && |u.sent| == u.handled + |u.queue|
            && AcceptedFrom(u.store.accepts, u.agent.worker, u.agent.boot)
               == Acceptances(u.agent.worker, Joined(u.sent[..u.handled]))
  {
    var u := AdvanceAll(v, es);
    EverySendableIsAccepted(v, es);
    hide Prepared, CarriesDue, Acceptances, AcceptedFrom, Sendable, Receivable, AdvanceAll, AllowedRun;
    SameAuthor(v, es);
    forall b | b in u.sent ensures Sendable(u.agent, b) && Receivable(u.agent, b) {
      SendableBy(v.agent, u.agent, b);
    }
    AllCarriable(u.agent, u.sent[..u.handled]);
    assert u.queue != [] ==> u.sent[u.handled] in u.sent;
  }

  predicate SameSender(a: AgentState, b: AgentState) { b.worker == a.worker && b.boot == a.boot && b.epoch == a.epoch }

  lemma {:induction false} SameAuthor(v: World, es: seq<Event>)
    ensures SameSender(v.agent, AdvanceAll(v, es).agent)
    decreases es
  {
    hide BatchOf, FrameFor, Answered, Step;
    if es != [] {
      SameAuthor(Advance(v, es[0]), es[1..]);
    }
  }

  lemma SendableBy(a: AgentState, b: AgentState, batch: seq<Observation>)
    requires SameSender(a, b) && Sendable(a, batch)
    ensures Sendable(b, batch) && Receivable(b, batch)
  {
    hide ObservationCodec.PutBatch, PutMessage;
    assert SnapshotMessage(a, batch) == SnapshotMessage(b, batch);
  }

  /** The two parties are in step as soon as an agent with a boot id of its own has registered. */
  lemma RegisteredInStep(s: State, a: AgentState, reg: Registration, now: Timestamp)
    requires reg.worker == a.worker && reg.boot == a.boot && reg.epoch == a.epoch
    requires PlanOf(s, Register(reg, now)).status == Ok
    requires forall v :: v in s.workers ==> s.workers[v].boot != a.boot
    requires forall k :: k in s.devices ==> s.devices[k].workerBoot != a.boot
    requires forall x :: x in s.accepts ==> x.boot != a.boot
    ensures var v := World(Step(s, Register(reg, now)), a, [], true, [], 0);
            InStep(v) && Settled(v)
  {
    hide Step, PlanOf, Prepared, AdmitNext, RecordOf, Acceptances, AcceptedFrom;
    FirstAdmitted(s, reg, now);
    var v := World(Step(s, Register(reg, now)), a, [], true, [], 0);
    AdmittedReady(s, reg, now, HeadDue(v));
    AcceptedNone(s.accepts, a.worker, a.boot);
    NoAcceptances(a.worker);
  }
}
