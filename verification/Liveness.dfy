/** One round of the liveness loop: workers not heard from for too long are lost. */
module Liveness {
  import opened Basics
  import opened Identity
  import opened Device
  import opened Pipeline
  import opened Fleet
  import opened FleetRuns
  import opened FleetStore
  import opened Order
  import opened SnapshotCodec
  import opened Effects
  import opened Heartbeats

  /** A worker in authority that was heard before, but longer ago than the timeout. */
  predicate Overdue(wr: WorkerRecord, now: Timestamp, timeout: i64) {
    wr.alive && !wr.lost && !wr.fenced && wr.lastHeartbeat != NO_TIME && now - wr.lastHeartbeat > timeout
  }

  /** The losses that the entries call for, in order. */
  function Losses(es: seq<(u64, WorkerRecord)>, now: Timestamp, timeout: i64): seq<Op> {
    if es == [] then [] else
      var n := |es| - 1;
      Losses(es[..n], now, timeout) + if Overdue(es[n].1, now, timeout) then [MarkLost(es[n].0)] else []
  }

  function Expired(s: State, now: Timestamp, timeout: i64): State { Run(s, Losses(Numbered(s.workers), now, timeout)) }

  lemma RunLast(s: State, ops: seq<Op>, op: Op)
    ensures Run(s, ops + [op]) == Step(Run(s, ops), op)
  {
    hide Step, Run;
    RunSnoc(s, ops + [op]);
    assert (ops + [op])[..|ops|] == ops;
  }

  /** Decides on a copy of the store, worker by worker in the order of their ids. */
  method ExpireWorkers(store: FleetStateStore, now: Timestamp, timeout: i64)
    modifies store
    ensures store.Abs() == Expired(old(store.Abs()), now, timeout)
  {
    hide Step, Overdue, SnapshotOf;
    ghost var s := store.Abs();
    CopyHas(s);
    var copy := store.TakeSnapshot();
    var es := Numbered(copy.workers);
    for i := 0 to |es|
      invariant store.Abs() == Run(s, Losses(es[..i], now, timeout))
    {
      assert es[..i + 1][..i] == es[..i];
      if Overdue(es[i].1, now, timeout) {
        RunLast(s, Losses(es[..i], now, timeout), MarkLost(es[i].0));
        store.MarkWorkerLost(es[i].0);
      } else {
        assert Losses(es[..i], now, timeout) + [] == Losses(es[..i], now, timeout);
      }
    }
    assert es[..|es|] == es;
  }

  lemma CopyHas(s: State)
    ensures SnapshotOf(s).workers == s.workers
  {
    hide AccountingOf;
  }

  // ---- What a round comes to ----

  /** An overdue worker among the first n entries is w. */
  predicate Falls(es: seq<(u64, WorkerRecord)>, n: nat, now: Timestamp, timeout: i64, w: u64) {
    exists i :: 0 <= i < n && i < |es| && es[i].0 == w && Overdue(es[i].1, now, timeout)
  }

  /** An overdue worker among the first n entries lists device k. */
  predicate Drags(es: seq<(u64, WorkerRecord)>, n: nat, now: Timestamp, timeout: i64, k: Text) {
    exists i :: 0 <= i < n && i < |es| && k in es[i].1.devices && Overdue(es[i].1, now, timeout)
  }

  function Gone(wr: WorkerRecord): WorkerRecord { wr.(lost := true, alive := false, fenced := true) }

  /** t is s after the losses of the first n entries. */
  predicate After(s: State, t: State, es: seq<(u64, WorkerRecord)>, n: nat, now: Timestamp, timeout: i64, k: Text) {
    && t == s.(workers := t.workers, devices := t.devices)
    && t.workers.Keys == s.workers.Keys && t.devices.Keys == s.devices.Keys
    && (forall w :: w in s.workers ==>
          t.workers[w] == if Falls(es, n, now, timeout, w) then Gone(s.workers[w]) else s.workers[w])
    && (k in s.devices ==>
          if Drags(es, n, now, timeout, k) then Orphaned(s.devices[k], t.devices[k]) else t.devices[k] == s.devices[k])
  }

  /** The entries are the workers of s, each once. */
  predicate Entries(s: State, es: seq<(u64, WorkerRecord)>) {
    && (forall i :: 0 <= i < |es| ==> es[i].0 in s.workers && es[i].1 == s.workers[es[i].0])
    && (forall i, j :: 0 <= i < j < |es| ==> es[i].0 != es[j].0)
    && (forall w :: w in s.workers ==> exists i :: 0 <= i < |es| && es[i].0 == w)
  }

  lemma NumberedOnce<V>(m: map<u64, V>)
    ensures var es := Numbered(m);
            && (forall i :: 0 <= i < |es| ==> es[i].0 in m && es[i].1 == m[es[i].0])
            && (forall i, j :: 0 <= i < j < |es| ==> es[i].0 != es[j].0)
            && (forall w :: w in m ==> exists i :: 0 <= i < |es| && es[i].0 == w)
  {
    NumberOrder();
    var ks, es := Sorted(m.Keys, NumberLess), Numbered(m);
    hide StrictTotal;
    forall i | 0 <= i < |es| ensures es[i] == (ks[i], m[ks[i]]) {
      assert ks[i] in ks;
    }
    forall w | w in m ensures exists i :: 0 <= i < |es| && es[i].0 == w {
      assert w in ks;
      var i :| 0 <= i < |ks| && ks[i] == w;
      assert es[i].0 == w;
    }
  }

  lemma NumberedEntries(s: State)
    ensures Entries(s, Numbered(s.workers))
  {
    hide Numbered;
    NumberedOnce(s.workers);
  }

  lemma FallsOne(es: seq<(u64, WorkerRecord)>, n: nat, now: Timestamp, timeout: i64, w: u64)
    requires n < |es|
    ensures Falls(es, n + 1, now, timeout, w)
            <==> Falls(es, n, now, timeout, w) || (es[n].0 == w && Overdue(es[n].1, now, timeout))
  {
    hide Overdue;
  }

  lemma DragsOne(es: seq<(u64, WorkerRecord)>, n: nat, now: Timestamp, timeout: i64, k: Text)
    requires n < |es|
    ensures Drags(es, n + 1, now, timeout, k)
            <==> Drags(es, n, now, timeout, k) || (k in es[n].1.devices && Overdue(es[n].1, now, timeout))
  {
    hide Overdue;
  }

  lemma OneAfter(s: State, t: State, u: State, es: seq<(u64, WorkerRecord)>, n: nat, now: Timestamp, timeout: i64, k: Text)
    requires Entries(s, es) && n < |es| && After(s, t, es, n, now, timeout, k)
    requires if Overdue(es[n].1, now, timeout) then Loses(t, u, es[n].0, k) else u == t
    ensures After(s, u, es, n + 1, now, timeout, k)
  {
    hide Falls, Drags, Overdue;
    var v := es[n].0;
    forall w ensures Falls(es, n + 1, now, timeout, w)
                     <==> Falls(es, n, now, timeout, w) || (v == w && Overdue(es[n].1, now, timeout)) {
      FallsOne(es, n, now, timeout, w);
    }
    DragsOne(es, n, now, timeout, k);
    assert t.workers[v].devices == s.workers[v].devices;
  }

  lemma {:induction false} LossesAfter(s: State, es: seq<(u64, WorkerRecord)>, n: nat, now: Timestamp, timeout: i64, k: Text)
    requires Entries(s, es) && n <= |es|
    ensures After(s, Run(s, Losses(es[..n], now, timeout)), es, n, now, timeout, k)
  {
    hide Step, Overdue, Loses, Entries, After;
    if n == 0 {
      NoneAfter(s, es, now, timeout, k);
    } else {
      var m := n - 1;
      LossesAfter(s, es, m, now, timeout, k);
      assert es[..n][..m] == es[..m];
      var t := Run(s, Losses(es[..m], now, timeout));
      if Overdue(es[m].1, now, timeout) {
        RunLast(s, Losses(es[..m], now, timeout), MarkLost(es[m].0));
        LossEffect(t, es[m].0, k);
      } else {
        assert Losses(es[..m], now, timeout) + [] == Losses(es[..m], now, timeout);
      }
      OneAfter(s, t, Run(s, Losses(es[..n], now, timeout)), es, m, now, timeout, k);
    }
  }

  lemma NoneAfter(s: State, es: seq<(u64, WorkerRecord)>, now: Timestamp, timeout: i64, k: Text)
    ensures After(s, Run(s, Losses(es[..0], now, timeout)), es, 0, now, timeout, k)
  {
    hide Overdue;
    assert es[..0] == [];
  }

  /** t is s with exactly the overdue workers taken out, and, as far as k goes, exactly the devices that one of them lists. */
  predicate Round(s: State, t: State, now: Timestamp, timeout: i64, k: Text) {
    && t == s.(workers := t.workers, devices := t.devices)
    && t.workers.Keys == s.workers.Keys && t.devices.Keys == s.devices.Keys
    && (forall w :: w in s.workers ==>
          t.workers[w] == if Overdue(s.workers[w], now, timeout)
                          then s.workers[w].(lost := true, alive := false, fenced := true) else s.workers[w])
    && (k in s.devices ==>
          if exists w :: w in s.workers && Overdue(s.workers[w], now, timeout) && k in s.workers[w].devices
          then Orphaned(s.devices[k], t.devices[k]) else t.devices[k] == s.devices[k])
  }

  lemma AfterAll(s: State, t: State, es: seq<(u64, WorkerRecord)>, now: Timestamp, timeout: i64, k: Text)
    requires Entries(s, es) && After(s, t, es, |es|, now, timeout, k)
    ensures Round(s, t, now, timeout, k)
  {
    hide Overdue, Orphaned;
  }

  lemma RoundExact(s: State, now: Timestamp, timeout: i64, k: Text)
    ensures Round(s, Expired(s, now, timeout), now, timeout, k)
  {
    hide Run, Losses, Entries, After, Round, Numbered;
    var es := Numbered(s.workers);
    NumberedEntries(s);
    LossesAfter(s, es, |es|, now, timeout, k);
    assert es[..|es|] == es;
    AfterAll(s, Expired(s, now, timeout), es, now, timeout, k);
  }

  /** After a run and a round, a worker that is still in authority has been heard within the timeout, in the last of its
    * registrations, reports and heartbeats, unless the time noted then was none.
    */
  lemma InAuthorityWasHeard(s: State, ops: seq<Op>, now: Timestamp, timeout: i64, w: u64)
    requires var t := Expired(Run(s, ops), now, timeout);
             w in t.workers && t.workers[w].alive && !t.workers[w].lost && !t.workers[w].fenced
    requires w !in s.workers
    ensures var i := LastHeard(s, ops, w);
            && HeardAt(s, ops, i, w)
            && (TimeOf(ops[i]) == NO_TIME || now - TimeOf(ops[i]) <= timeout)
  {
    hide Run, Expired, HeardAt, TimeOf;
    HeartbeatIsLast(s, ops, w);
    LastHeardIs(s, ops, w);
    RoundExact(Run(s, ops), now, timeout, []);
  }
}
