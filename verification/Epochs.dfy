/** How the epoch and the generations of a store move, over every run. */
module Epochs {
  import opened Basics
  import opened Device
  import opened Pipeline
  import opened Fleet
  import opened FleetRuns
  import opened Effects
  import opened Heartbeats

  /** What the store keeps about itself. */
  predicate SameHeader(s: State, t: State) {
    && t.coordinator == s.coordinator && t.epoch == s.epoch
    && t.fleetGeneration == s.fleetGeneration && t.nodeGeneration == s.nodeGeneration
  }

  lemma NextHeader(s: State, a: Action)
    requires !a.Roll?
    ensures SameHeader(s, Next(s, a))
  {
    hide ApplyObservation, PushAll, Recompute, Silenced, Vanished, AppliedTo;
  }

  lemma StepHeader(s: State, op: Op)
    requires !op.RollEpoch?
    ensures SameHeader(s, Step(s, op))
  {
    var p := (t: State) => SameHeader(s, t);
    forall t, a | p(t) && Enabled(t, a) && From(op, a) ensures p(Next(t, a)) {
      assert !a.Roll?;
      hide Next, Enabled, From;
      NextHeader(t, a);
    }
    hide Step, Next, Enabled, From, PlanOf;
    StepKeeps(s, op, p);
  }

  /** How many calls of a run from s roll the epoch, and the epoch they lead to. */
  function Rolled(s: State, ops: seq<Op>): (nat, u64)
    decreases ops
  {
    if ops == [] then (0, s.epoch) else
      var (n, e) := Rolled(s, ops[..|ops| - 1]);
      var op := ops[|ops| - 1];
      if op.RollEpoch? && op.newEpoch > e then (n + 1, op.newEpoch) else (n, e)
  }

  /** t is s with its epoch and fleet generation moved so far. */
  predicate MovedBy(s: State, t: State, rolled: (nat, u64)) {
    && t.epoch == rolled.1 && t.fleetGeneration == (s.fleetGeneration + rolled.0) % 0x1_0000_0000_0000_0000
    && t.nodeGeneration == s.nodeGeneration && t.coordinator == s.coordinator
  }

  /** Over every run the epoch is the last one that was newer than all before it, and the fleet generation counts the epochs so
    * taken, modulo 2^64. The node generation and the coordinator's name never change.
    */
  lemma {:induction false} GenerationsCount(s: State, ops: seq<Op>)
    ensures MovedBy(s, Run(s, ops), Rolled(s, ops))
    decreases |ops|
  {
    hide Step;
    if ops != [] {
      var n := |ops| - 1;
      GenerationsCount(s, ops[..n]);
      RunSnoc(s, ops);
      var u := Run(s, ops[..n]);
      if ops[n].RollEpoch? {
        RollEffect(u, ops[n].newEpoch);
      } else {
        StepHeader(u, ops[n]);
      }
    }
  }

  /** A new store is empty, with both generations one. */
  predicate New(s: State, coordinator: u64, epoch: u64) {
    && s.coordinator == coordinator && s.epoch == epoch && s.fleetGeneration == 1 && s.nodeGeneration == 1
    && s.nodes == map[] && s.workers == map[] && s.devices == map[] && s.log == [] && s.acceptedCount == 0
  }

  lemma FromTheStart(coordinator: u64, epoch: u64, ops: seq<Op>)
    ensures New(Initial(coordinator, epoch), coordinator, epoch)
    ensures MovedBy(Initial(coordinator, epoch), Run(Initial(coordinator, epoch), ops), Rolled(Initial(coordinator, epoch), ops))
  {
    hide Run, Rolled, MovedBy;
    GenerationsCount(Initial(coordinator, epoch), ops);
  }
}
