/** When a worker was last heard from, over every run. */
module Heartbeats {
  import opened Basics
  import opened Identity
  import opened Device
  import opened Pipeline
  import opened Fleet
  import opened FleetRuns
  import opened Effects
  import opened Sweeping

  /** The call, made in s, succeeds and is one in which worker w is heard: it registers, reports or sends a heartbeat. */
  predicate Heard(s: State, op: Op, w: u64) {
    && PlanOf(s, op).status == Ok
    && match op
       case Register(reg, _) => reg.worker == w
       case Ingest(v, _, _, _) => v == w
       case Heartbeat(v, _, _, _) => v == w
       case _ => false
  }

  /** The time given with a call. */
  function TimeOf(op: Op): Timestamp {
    match op
    case Register(_, now) => now
    case Ingest(_, _, _, now) => now
    case Heartbeat(_, _, _, now) => now
    case _ => 0
  }

  /** t holds of worker w what s holds, or that it has been heard in the call. */
  predicate Notes(s: State, t: State, op: Op, w: u64) {
    if Heard(s, op, w) then w in t.workers && t.workers[w].lastHeartbeat == TimeOf(op)
    else Unheard(s, t, w)
  }

  predicate Unheard(s: State, t: State, w: u64) {
    && (w in t.workers <==> w in s.workers)
    && (w in s.workers ==> t.workers[w].lastHeartbeat == s.workers[w].lastHeartbeat)
  }

  lemma HeardIs(s: State, op: Op, w: u64)
    ensures op.Register? ==> (Heard(s, op, w) <==> PlanOf(s, op).status == Ok && op.reg.worker == w)
    ensures op.Ingest? ==> (Heard(s, op, w) <==> PlanOf(s, op).status == Ok && op.worker == w)
    ensures op.Heartbeat? ==> (Heard(s, op, w) <==> PlanOf(s, op).status == Ok && op.worker == w)
    ensures Heard(s, op, w) ==> op.Register? || op.Ingest? || op.Heartbeat?
  {
    hide PlanOf;
  }

  lemma RegisterNotes(s: State, op: Op, w: u64)
    requires op.Register?
    ensures Notes(s, Step(s, op), op, w)
  {
    hide Step, PlanOf, Heard;
    HeardIs(s, op, w);
    RegisterEffect(s, op.reg, op.now);
  }

  lemma IngestNotes(s: State, op: Op, w: u64)
    requires op.Ingest?
    ensures Notes(s, Step(s, op), op, w)
  {
    hide Step, PlanOf, Heard;
    HeardIs(s, op, w);
    var added := IngestWorkers(s, op.worker, op.obs, op.policy, op.now);
  }

  lemma HeartbeatNotes(s: State, op: Op, w: u64)
    requires op.Heartbeat?
    ensures Notes(s, Step(s, op), op, w)
  {
    hide Step, PlanOf, Heard;
    HeardIs(s, op, w);
    HeartbeatEffect(s, op.worker, op.boot, op.epoch, op.now);
  }

  lemma OthersUnheard(s: State, op: Op, w: u64)
    requires !op.Register? && !op.Ingest? && !op.Heartbeat?
    ensures Notes(s, Step(s, op), op, w)
  {
    hide Step, PlanOf, Heard, Restated, Logged, Orphaned;
    HeardIs(s, op, w);
    match op
    case RollEpoch(e) => RollEffect(s, e);
    case MarkLost(v) => LossEffect(s, v, []);
    case SetDrain(k, to, now) => DrainEffect(s, k, to, now);
    case SetQuarantine(k, q, now) => QuarantineEffect(s, k, q, now);
    case ClearQuarantine(k, epoch, now) => ClearEffect(s, k, epoch, now);
  }

  lemma StepNotes(s: State, op: Op, w: u64)
    ensures Notes(s, Step(s, op), op, w)
  {
    hide *;
    if op.Register? {
      RegisterNotes(s, op, w);
    } else if op.Ingest? {
      IngestNotes(s, op, w);
    } else if op.Heartbeat? {
      HeartbeatNotes(s, op, w);
    } else {
      OthersUnheard(s, op, w);
    }
  }

  /** Worker w is heard in the call at the given position of a run from s. */
  predicate HeardAt(s: State, ops: seq<Op>, i: int, w: u64) { 0 <= i < |ops| && Heard(Run(s, ops[..i]), ops[i], w) }

  /** The position of the last call of a run from s in which worker w is heard, or -1. */
  function LastHeard(s: State, ops: seq<Op>, w: u64): int {
    if ops == [] then -1
    else if HeardAt(s, ops, |ops| - 1, w) then |ops| - 1
    else LastHeard(s, ops[..|ops| - 1], w)
  }

  lemma {:induction false} LastHeardIs(s: State, ops: seq<Op>, w: u64)
    ensures var i := LastHeard(s, ops, w);
            && -1 <= i < |ops| && (i >= 0 ==> HeardAt(s, ops, i, w))
            && forall j :: i < j < |ops| ==> !HeardAt(s, ops, j, w)
  {
    hide HeardAt;
    if ops != [] {
      var n := |ops| - 1;
      LastHeardIs(s, ops[..n], w);
      forall j | 0 <= j < n ensures HeardAt(s, ops[..n], j, w) <==> HeardAt(s, ops, j, w) {
        Earlier(s, ops, j, n, w);
      }
    }
  }

  lemma Earlier(s: State, ops: seq<Op>, j: nat, n: nat, w: u64)
    requires j < n <= |ops|
    ensures HeardAt(s, ops[..n], j, w) <==> HeardAt(s, ops, j, w)
  {
    hide Run, Heard;
    assert ops[..n][..j] == ops[..j];
  }

  lemma {:induction false} RunSnoc(s: State, ops: seq<Op>)
    requires ops != []
    ensures var n := |ops| - 1; Run(s, ops) == Step(Run(s, ops[..n]), ops[n])
    decreases ops
  {
    hide Step;
    if |ops| > 1 {
      var n := |ops| - 1;
      RunSnoc(Step(s, ops[0]), ops[1..]);
      assert ops[1..][..n - 1] == ops[..n][1..] && ops[1..][n - 1] == ops[n];
    } else {
      assert ops[..0] == [] && ops[1..] == [];
    }
  }

  /** Over every run: a worker is known exactly when it was from the start or has been heard, and its last heartbeat is the time
    * of the last call in which it was.
    */
  lemma {:induction false} HeartbeatIsLast(s: State, ops: seq<Op>, w: u64)
    ensures var t, i := Run(s, ops), LastHeard(s, ops, w);
            && (w in t.workers <==> w in s.workers || i >= 0)
            && i < |ops|
            && (w in t.workers ==> t.workers[w].lastHeartbeat == if i >= 0 then TimeOf(ops[i]) else s.workers[w].lastHeartbeat)
    decreases |ops|
  {
    hide Step, Heard, TimeOf;
    LastHeardIs(s, ops, w);
    if ops != [] {
      var n := |ops| - 1;
      HeartbeatIsLast(s, ops[..n], w);
      RunSnoc(s, ops);
      StepNotes(Run(s, ops[..n]), ops[n], w);
    }
  }
}
