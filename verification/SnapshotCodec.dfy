/** The encoding of a whole snapshot: maps in key order, bounded, clipped, checked for duplicates. */
module SnapshotCodec {
  import opened Basics
  import opened Codec
  import opened ByteStream
  import opened Order
  import opened Identity
  import opened Device
  import opened Pipeline
  import opened Records
  import opened Fleet
  import opened FleetStore
  import opened StateCodec

  const NODES: u32 := 100000
  const WORKERS: u32 := 100000
  const DEVICES: u32 := 100000
  const CHANGES: u32 := 200000
  const KEY: u32 := 256

  // ---- Maps as entries ----

  /** The entries of a map, in the order of its numeric keys. */
  function Numbered<V>(m: map<u64, V>): (es: seq<(u64, V)>)
    ensures |es| == |m|
    ensures forall e :: e in es ==> e.0 in m && e.1 == m[e.0]
  {
    NumberOrder();
    var ks := Sorted(m.Keys, NumberLess);
    seq(|ks|, i requires 0 <= i < |ks| => (ks[i], m[ks[i]]))
  }

  /** The entries of a map, in the order of its text keys. */
  function Lettered<V>(m: map<Text, V>): (es: seq<(Text, V)>)
    ensures |es| == |m|
    ensures forall e :: e in es ==> e.0 in m && e.1 == m[e.0]
  {
    TextOrder();
    var ks := Sorted(m.Keys, TextLess);
    seq(|ks|, i requires 0 <= i < |ks| => (ks[i], m[ks[i]]))
  }

  /** n entries read into acc; a key that is already there is refused, or dropped when duplicates are let through. */
  function GetEntries<K(==), V>(n: nat, get: Bytes -> Parsed<(K, V)>, unique: bool, acc: map<K, V>, s: Bytes): Parsed<map<K, V>>
    decreases n, s
  {
    if n == 0 then Got(acc, s) else
      var (e, s) :- get(s);
      if e.0 !in acc then GetEntries(n - 1, get, unique, acc[e.0 := e.1], s)
      else if unique then Fail(Duplicate)
      else GetEntries(n - 1, get, unique, acc, s)
  }

  function GetMap<K(==), V>(limit: u32, unique: bool, get: Bytes -> Parsed<(K, V)>, s: Bytes): Parsed<map<K, V>> {
    var (n, s) :- GetU32(s);
    if n > limit then Fail(OutOfBounds) else GetEntries(n, get, unique, map[], s)
  }

  /** acc with entries put in one after another. */
  function AddAll<K(==), V>(acc: map<K, V>, es: seq<(K, V)>): map<K, V>
    decreases es
  {
    if es == [] then acc else AddAll(acc[es[0].0 := es[0].1], es[1..])
  }

  predicate DistinctKeys<K(==), V>(es: seq<(K, V)>) {
    forall i, j :: 0 <= i < j < |es| ==> es[i].0 != es[j].0
  }

  /** Each entry fits, and its clipped key is not taken when its turn comes. */
  predicate Admissible<J, K(==), V>(es: seq<J>, clip: J -> (K, V), fits: J -> bool, taken: set<K>)
    decreases es
  {
    es == []
    || (&& fits(es[0]) && clip(es[0]).0 !in taken
        && Admissible(es[1..], clip, fits, taken + {clip(es[0]).0}))
  }

  /** Entries come back as a map exactly when they are admissible. */
  lemma {:induction false} EntriesBack<J(!new), K(!new), V>(es: seq<J>, put: (J, Bytes) -> Bytes, get: Bytes -> Parsed<(K, V)>,
                                                clip: J -> (K, V), fits: J -> bool, unique: bool, acc: map<K, V>, rest: Bytes)
    requires forall e, r :: e in es && fits(e) ==> get(put(e, r)) == Got(clip(e), r)
    requires forall e, r :: e in es && !fits(e) ==> get(put(e, r)).Fail?
    ensures Admissible(es, clip, fits, acc.Keys) ==>
              GetEntries(|es|, get, unique, acc, PutAll(es, put, rest)) == Got(AddAll(acc, MapSeq(clip, es)), rest)
    ensures unique && !Admissible(es, clip, fits, acc.Keys) ==>
              GetEntries(|es|, get, unique, acc, PutAll(es, put, rest)).Fail?
    decreases es
  {
    if es == [] {
      assert MapSeq(clip, es) == [];
    } else {
      var e, tail := es[0], PutAll(es[1..], put, rest);
      assert fits(e) ==> get(put(e, tail)) == Got(clip(e), tail);
      assert !fits(e) ==> get(put(e, tail)).Fail?;
      var c := clip(e);
      if fits(e) && c.0 !in acc {
        assert MapSeq(clip, es)[1..] == MapSeq(clip, es[1..]);
        assert acc[c.0 := c.1].Keys == acc.Keys + {c.0};
        EntriesBack(es[1..], put, get, clip, fits, unique, acc[c.0 := c.1], rest);
      }
    }
  }

  /** What admissible means: everything fits, and clipped keys are new and distinct. */
  lemma {:induction false} AdmissibleExact<J(!new), K(!new), V>(es: seq<J>, clip: J -> (K, V), fits: J -> bool, taken: set<K>)
    ensures Admissible(es, clip, fits, taken)
            <==> (forall e :: e in es ==> fits(e) && clip(e).0 !in taken) && DistinctKeys(MapSeq(clip, es))
    decreases es
  {
    if es != [] {
      AdmissibleExact(es[1..], clip, fits, taken + {clip(es[0]).0});
      FirstDistinct(es, clip);
    }
  }

  /** Keys are distinct when the first differs from the others and the others are distinct. */
  lemma FirstDistinct<J(!new), K, V>(es: seq<J>, clip: J -> (K, V))
    requires es != []
    ensures DistinctKeys(MapSeq(clip, es))
            <==> DistinctKeys(MapSeq(clip, es[1..])) && forall e :: e in es[1..] ==> clip(e).0 != clip(es[0]).0
  {
    var cs, ds := MapSeq(clip, es), MapSeq(clip, es[1..]);
    assert forall i :: 0 <= i < |ds| ==> ds[i] == cs[i + 1];
    if DistinctKeys(cs) {
      forall e | e in es[1..] ensures clip(e).0 != clip(es[0]).0 {
        var i :| 0 <= i < |es[1..]| && es[1..][i] == e;
        assert cs[0].0 != cs[i + 1].0;
      }
    } else {
      var i, j :| 0 <= i < j < |cs| && cs[i].0 == cs[j].0;
      if i == 0 {
        assert es[1..][j - 1] in es[1..];
      } else {
        assert ds[i - 1].0 == ds[j - 1].0;
      }
    }
  }

  lemma {:induction false} EntriesExtend<K(!new), V(!new)>(n: nat, get: Bytes -> Parsed<(K, V)>, unique: bool, acc: map<K, V>, s: Bytes, e: Bytes)
    requires Extends(get) && GetEntries(n, get, unique, acc, s).Got?
    ensures GetEntries(n, get, unique, acc, s + e) == GetEntries(n, get, unique, acc, s).Before(e)
    decreases n
  {
    if n > 0 {
      assert get(s + e) == get(s).Before(e);
      var x := get(s).value;
      EntriesExtend(n - 1, get, unique, if x.0 !in acc then acc[x.0 := x.1] else acc, get(s).rest, e);
    }
  }

  lemma SkipMap<K(!new), V(!new)>(limit: u32, unique: bool, get: Bytes -> Parsed<(K, V)>, s: Bytes, e: Bytes) returns (r: Bytes)
    requires Extends(get) && GetMap(limit, unique, get, s).Got?
    ensures r == GetMap(limit, unique, get, s).rest
    ensures GetMap(limit, unique, get, s + e) == Got(GetMap(limit, unique, get, s).value, r + e)
  {
    hide Extends;
    r := SkipU32(s, e);
    EntriesExtend(GetU32(s).value, get, unique, map[], r, e);
    r := GetMap(limit, unique, get, s).rest;
  }

  // ---- The format ----

  /** A device's entry is written under its clipped key. */
  function PutEntry(e: (Text, DeviceState), rest: Bytes): Bytes { PutText(e.0, KEY, PutDevice(e.1, rest)) }

  function GetEntry(s: Bytes): Parsed<(Text, DeviceState)> {
    var (key, s) :- GetText(s, KEY);
    var (d, s) :- GetDevice(s);
    Got((key, d), s)
  }

  function ClipEntry(e: (Text, DeviceState)): (Text, DeviceState) { (Clip(e.0, KEY), ClipDevice(e.1)) }

  function PutHead(s: Snapshot, rest: Bytes): Bytes {
    PutU64(s.coordinator, PutU64(s.epoch, PutU64(s.fleetGeneration, PutU64(s.nodeGeneration, rest))))
  }

  const NO_SNAPSHOT: Snapshot := Snapshot(0, 0, 0, 0, map[], map[], map[], [], NO_ACCOUNTING)

  function GetHead(s: Bytes): Parsed<Snapshot> {
    var (coordinator, s) :- GetU64(s);
    var (epoch, s) :- GetU64(s);
    var (fleetGeneration, s) :- GetU64(s);
    var (nodeGeneration, s) :- GetU64(s);
    Got(NO_SNAPSHOT.(coordinator := coordinator, epoch := epoch, fleetGeneration := fleetGeneration,
                     nodeGeneration := nodeGeneration), s)
  }

  function PutNodes(m: map<u64, NodeRecord>, rest: Bytes): Bytes { PutCounted(Numbered(m), PutNode, rest) }

  function GetNodes(s: Bytes): Parsed<map<u64, NodeRecord>> { GetMap(NODES, false, GetNode, s) }

  function PutWorkers(m: map<u64, WorkerRecord>, rest: Bytes): Bytes { PutCounted(Numbered(m), PutWorker, rest) }

  function GetWorkers(s: Bytes): Parsed<map<u64, WorkerRecord>> { GetMap(WORKERS, true, GetWorker, s) }

  function PutDevices(m: map<Text, DeviceState>, rest: Bytes): Bytes { PutCounted(Lettered(m), PutEntry, rest) }

  function GetDevices(s: Bytes): Parsed<map<Text, DeviceState>> { GetMap(DEVICES, true, GetEntry, s) }

  function PutLog(log: seq<ChangeRecord>, rest: Bytes): Bytes { PutCounted(log, PutChange, rest) }

  function GetLog(s: Bytes): Parsed<seq<ChangeRecord>> { GetCounted(CHANGES, OutOfBounds, GetChange, s) }

  function PutSnapshot(s: Snapshot, rest: Bytes): Bytes {
    PutHead(s, PutNodes(s.nodes, PutWorkers(s.workers, PutDevices(s.devices, PutLog(s.log, rest)))))
  }

  function GetSnapshot(s: Bytes): Parsed<Snapshot> {
    var (t, s) :- GetHead(s).Or(Truncated);
    var (nodes, s) :- GetNodes(s);
    var (workers, s) :- GetWorkers(s);
    var (devices, s) :- GetDevices(s);
    var (log, s) :- GetLog(s);
    Got(t.(nodes := nodes, workers := workers, devices := devices, log := log), s)
  }

  function Decoded(data: Bytes): Result<Snapshot> { Entire(GetSnapshot(data)) }

  // ---- Writing ----

  method WriteNodes(w: ByteWriter, m: map<u64, NodeRecord>)
    modifies w
    ensures forall rest: Bytes :: w.buf + rest == old(w.buf) + PutNodes(m, rest)
  {
    hide Numbered, PutU32, PutNode;
    var es := Numbered(m);
    w.U32(|es| % 0x1_0000_0000);
    ghost var head := w.buf;
    for i := 0 to |es|
      invariant forall rest: Bytes :: w.buf + PutAll(es[i..], PutNode, rest) == head + PutAll(es, PutNode, rest)
    {
      assert es[i..][1..] == es[i + 1..];
      WriteNode(w, es[i]);
    }
    assert es[|es|..] == [];
  }

  method WriteWorkers(w: ByteWriter, m: map<u64, WorkerRecord>)
    modifies w
    ensures forall rest: Bytes :: w.buf + rest == old(w.buf) + PutWorkers(m, rest)
  {
    hide Numbered, PutU32, PutWorker;
    var es := Numbered(m);
    w.U32(|es| % 0x1_0000_0000);
    ghost var head := w.buf;
    for i := 0 to |es|
      invariant forall rest: Bytes :: w.buf + PutAll(es[i..], PutWorker, rest) == head + PutAll(es, PutWorker, rest)
    {
      assert es[i..][1..] == es[i + 1..];
      WriteWorker(w, es[i]);
    }
    assert es[|es|..] == [];
  }

  method WriteDevices(w: ByteWriter, m: map<Text, DeviceState>)
    modifies w
    ensures forall rest: Bytes :: w.buf + rest == old(w.buf) + PutDevices(m, rest)
  {
    hide Lettered, PutU32, PutText, PutDevice;
    var es := Lettered(m);
    w.U32(|es| % 0x1_0000_0000);
    ghost var head := w.buf;
    for i := 0 to |es|
      invariant forall rest: Bytes :: w.buf + PutAll(es[i..], PutEntry, rest) == head + PutAll(es, PutEntry, rest)
    {
      assert es[i..][1..] == es[i + 1..];
      w.Text(es[i].0, KEY);
      WriteDevice(w, es[i].1);
    }
    assert es[|es|..] == [];
  }

  method WriteLog(w: ByteWriter, log: seq<ChangeRecord>)
    modifies w
    ensures forall rest: Bytes :: w.buf + rest == old(w.buf) + PutLog(log, rest)
  {
    hide PutU32, PutChange;
    w.U32(|log| % 0x1_0000_0000);
    ghost var head := w.buf;
    for i := 0 to |log|
      invariant forall rest: Bytes :: w.buf + PutAll(log[i..], PutChange, rest) == head + PutAll(log, PutChange, rest)
    {
      assert log[i..][1..] == log[i + 1..];
      WriteChange(w, log[i]);
    }
    assert log[|log|..] == [];
  }

  method EncodeSnapshot(s: Snapshot) returns (data: Bytes)
    ensures data == PutSnapshot(s, [])
  {
    hide PutU64, PutNodes, PutWorkers, PutDevices, PutLog;
    var w := new ByteWriter();
    w.U64(s.coordinator);
    w.U64(s.epoch);
    w.U64(s.fleetGeneration);
    w.U64(s.nodeGeneration);
    WriteNodes(w, s.nodes);
    WriteWorkers(w, s.workers);
    WriteDevices(w, s.devices);
    WriteLog(w, s.log);
    data := w.buf;
    Whole(data, PutSnapshot(s, []));
  }

  // ---- Reading ----

  lemma NodeFails()
    ensures forall s :: GetNode(s).Fail? ==> GetNode(s).why == Truncated
    ensures forall s :: GetChange(s).Fail? ==> GetChange(s).why == Truncated
    ensures forall s :: GetDevice(s).Fail? ==> GetDevice(s).why == Truncated
  {
    hide GetU8, GetU64, GetI64, GetText, GetDeviceParts;
    TruncatedCount();
  }

  /** One entry further into a map. */
  lemma EntriesOn<K, V>(n: nat, get: Bytes -> Parsed<(K, V)>, unique: bool, acc: map<K, V>, s: Bytes)
    requires n > 0
    ensures get(s).Fail? ==> GetEntries(n, get, unique, acc, s) == Fail(get(s).why)
    ensures get(s).Got? && get(s).value.0 in acc ==>
              GetEntries(n, get, unique, acc, s)
              == if unique then Fail(Duplicate) else GetEntries(n - 1, get, unique, acc, get(s).rest)
    ensures get(s).Got? && get(s).value.0 !in acc ==>
              var e := get(s).value;
              GetEntries(n, get, unique, acc, s) == GetEntries(n - 1, get, unique, acc[e.0 := e.1], get(s).rest)
  {
  }

  lemma EntriesDone<K, V>(get: Bytes -> Parsed<(K, V)>, unique: bool, acc: map<K, V>, s: Bytes)
    ensures GetEntries(0, get, unique, acc, s) == Got(acc, s)
  {
  }

  method ReadNodes(r: ByteReader) returns (m: Result<map<u64, NodeRecord>>)
    requires r.Valid()
    modifies r`pos
    ensures r.Valid()
    ensures match GetNodes(old(r.Rest()))
            case Fail(why) => m == Failure(why)
            case Got(v, s) => m == Success(v) && r.Rest() == s
  {
    hide GetU32, GetNode, GetEntries;
    TruncatedCount();
    NodeFails();
    var ok, n := r.U32();
    if !ok {
      return Failure(Truncated);
    }
    if n > NODES {
      return Failure(OutOfBounds);
    }
    ghost var all := GetEntries(n, GetNode, false, map[], r.Rest());
    var nodes: map<u64, NodeRecord> := map[];
    for i := 0 to n
      invariant r.Valid() && all == GetEntries(n - i, GetNode, false, nodes, r.Rest())
    {
      EntriesOn(n - i, GetNode, false, nodes, r.Rest());
      var e;
      ok, e := ReadNode(r);
      if !ok {
        return Failure(Truncated);
      }
      if e.0 !in nodes {
        nodes := nodes[e.0 := e.1];
      }
    }
    EntriesDone(GetNode, false, nodes, r.Rest());
    m := Success(nodes);
  }

  method ReadWorkers(r: ByteReader) returns (m: Result<map<u64, WorkerRecord>>)
    requires r.Valid()
    modifies r`pos
    ensures r.Valid()
    ensures match GetWorkers(old(r.Rest()))
            case Fail(why) => m == Failure(why)
            case Got(v, s) => m == Success(v) && r.Rest() == s
  {
    hide GetU32, GetWorker, GetEntries;
    TruncatedCount();
    var ok, n := r.U32();
    if !ok {
      return Failure(Truncated);
    }
    if n > WORKERS {
      return Failure(OutOfBounds);
    }
    ghost var all := GetEntries(n, GetWorker, true, map[], r.Rest());
    var workers: map<u64, WorkerRecord> := map[];
    for i := 0 to n
      invariant r.Valid() && all == GetEntries(n - i, GetWorker, true, workers, r.Rest())
    {
      EntriesOn(n - i, GetWorker, true, workers, r.Rest());
      var e := ReadWorker(r);
      if e.Failure? {
        return Failure(e.status);
      }
      if e.value.0 in workers {
        return Failure(Duplicate);
      }
      workers := workers[e.value.0 := e.value.1];
    }
    EntriesDone(GetWorker, true, workers, r.Rest());
    m := Success(workers);
  }

  method ReadDevices(r: ByteReader) returns (m: Result<map<Text, DeviceState>>)
    requires r.Valid()
    modifies r`pos
    ensures r.Valid()
    ensures match GetDevices(old(r.Rest()))
            case Fail(why) => m == Failure(why)
            case Got(v, s) => m == Success(v) && r.Rest() == s
  {
    hide GetU32, GetText, GetDevice, GetEntries;
    TruncatedCount();
    NodeFails();
    var ok, n := r.U32();
    if !ok {
      return Failure(Truncated);
    }
    if n > DEVICES {
      return Failure(OutOfBounds);
    }
    ghost var all := GetEntries(n, GetEntry, true, map[], r.Rest());
    var devices: map<Text, DeviceState> := map[];
    for i := 0 to n
      invariant r.Valid() && all == GetEntries(n - i, GetEntry, true, devices, r.Rest())
    {
      EntriesOn(n - i, GetEntry, true, devices, r.Rest());
      var key, d;
      ok, key := r.Text(KEY);
      if !ok {
        return Failure(Truncated);
      }
      ok, d := ReadDevice(r);
      if !ok {
        return Failure(Truncated);
      }
      if key in devices {
        return Failure(Duplicate);
      }
      devices := devices[key := d];
    }
    EntriesDone(GetEntry, true, devices, r.Rest());
    m := Success(devices);
  }

  method ReadLog(r: ByteReader) returns (log: Result<seq<ChangeRecord>>)
    requires r.Valid()
    modifies r`pos
    ensures r.Valid()
    ensures match GetLog(old(r.Rest()))
            case Fail(why) => log == Failure(why)
            case Got(v, s) => log == Success(v) && r.Rest() == s
  {
    hide GetU32, GetChange, GetAll, Onto;
    TruncatedCount();
    NodeFails();
    var ok, n := r.U32();
    if !ok {
      return Failure(Truncated);
    }
    if n > CHANGES {
      return Failure(OutOfBounds);
    }
    ghost var all := GetAll(n, GetChange, r.Rest());
    var out: seq<ChangeRecord> := [];
    OntoNothing(all);
    for i := 0 to n
      invariant r.Valid() && all == Onto(out, GetAll(n - i, GetChange, r.Rest()))
    {
      ReadOn(out, n - i, GetChange, r.Rest());
      var c;
      ok, c := ReadChange(r);
      if !ok {
        return Failure(Truncated);
      }
      out := out + [c];
    }
    ReadThrough(out, GetChange, r.Rest());
    log := Success(out);
  }

  method DecodeSnapshot(data: Bytes) returns (out: Result<Snapshot>)
    ensures out == Decoded(data)
  {
    hide GetU64, GetNodes, GetWorkers, GetDevices, GetLog;
    TruncatedCount();
    var r := new ByteReader(data);
    var s := NO_SNAPSHOT;
    var ok, u := r.U64();
    if !ok { return Failure(Truncated); }
    s := s.(coordinator := u);
    ok, u := r.U64();
    if !ok { return Failure(Truncated); }
    s := s.(epoch := u);
    ok, u := r.U64();
    if !ok { return Failure(Truncated); }
    s := s.(fleetGeneration := u);
    ok, u := r.U64();
    if !ok { return Failure(Truncated); }
    s := s.(nodeGeneration := u);
    var nodes := ReadNodes(r);
    if nodes.Failure? { return Failure(nodes.status); }
    s := s.(nodes := nodes.value);
    var workers := ReadWorkers(r);
    if workers.Failure? { return Failure(workers.status); }
    s := s.(workers := workers.value);
    var devices := ReadDevices(r);
    if devices.Failure? { return Failure(devices.status); }
    s := s.(devices := devices.value);
    var log := ReadLog(r);
    if log.Failure? { return Failure(log.status); }
    s := s.(log := log.value);
    var done := r.Done();
    if !done {
      return Failure(Malformed);
    }
    out := Success(s.(accounting := NO_ACCOUNTING));
  }

  // ---- What comes back ----

  predicate DistinctClips(m: map<Text, DeviceState>) {
    forall j, k :: j in m && k in m && j != k ==> Clip(j, 256) != Clip(k, 256)
  }

  function ClipNodes(m: map<u64, NodeRecord>): map<u64, NodeRecord> { map k | k in m :: m[k].(node := k) }

  function ClipWorkers(m: map<u64, WorkerRecord>): map<u64, WorkerRecord> { map k | k in m :: ClipWorker((k, m[k])).1 }

  function ClipDevices(m: map<Text, DeviceState>): map<Text, DeviceState>
    requires DistinctClips(m)
  {
    map k | k in m :: Clip(k, KEY) := ClipDevice(m[k])
  }

  /** A snapshot as the wire keeps it: texts and device keys cut to their limits, counters dropped. */
  function Clipped(s: Snapshot): Snapshot
    requires DistinctClips(s.devices)
  {
    s.(nodes := ClipNodes(s.nodes), workers := ClipWorkers(s.workers), devices := ClipDevices(s.devices),
       log := MapSeq(ClipChange, s.log), accounting := NO_ACCOUNTING)
  }

  predicate WorkersFit(m: map<u64, WorkerRecord>) { |m| <= 100000 && forall k :: k in m ==> WorkerFits((k, m[k])) }

  predicate DevicesFit(m: map<Text, DeviceState>) {
    |m| <= 100000 && (forall k :: k in m ==> DeviceFits(m[k])) && DistinctClips(m)
  }

  /** The decoder's bounds. */
  predicate InBounds(s: Snapshot) {
    |s.nodes| <= 100000 && WorkersFit(s.workers) && DevicesFit(s.devices) && |s.log| <= 200000
  }

  /** Every count fits the 32 bits it is written in. */
  predicate Countable(s: Snapshot) {
    && |s.nodes| < 0x1_0000_0000 && |s.workers| < 0x1_0000_0000 && |s.devices| < 0x1_0000_0000 && |s.log| < 0x1_0000_0000
    && (forall k :: k in s.workers ==> WorkerCountable((k, s.workers[k])))
    && (forall k :: k in s.devices ==> DeviceCountable(s.devices[k]))
  }

  /** A counted map comes back, when its count is within the limit and its entries are admissible. */
  lemma MapBack<J(!new), K(!new), V>(es: seq<J>, put: (J, Bytes) -> Bytes, limit: u32, unique: bool,
                                     get: Bytes -> Parsed<(K, V)>, clip: J -> (K, V), fits: J -> bool, rest: Bytes)
    requires |es| < 0x1_0000_0000
    requires forall e, r :: e in es && fits(e) ==> get(put(e, r)) == Got(clip(e), r)
    requires forall e, r :: e in es && !fits(e) ==> get(put(e, r)).Fail?
    ensures |es| <= limit && Admissible(es, clip, fits, {}) ==>
              GetMap(limit, unique, get, PutCounted(es, put, rest)) == Got(AddAll(map[], MapSeq(clip, es)), rest)
    ensures |es| > limit || (unique && !Admissible(es, clip, fits, {})) ==>
              GetMap(limit, unique, get, PutCounted(es, put, rest)).Fail?
  {
    hide Admissible, AddAll, GetEntries, PutAll, PutCounted, GetU32;
    var none: map<K, V> := map[];
    assert none.Keys == {};
    EntriesBack(es, put, get, clip, fits, unique, none, rest);
    CountBack(es, put, rest);
  }

  lemma CountBack<J>(es: seq<J>, put: (J, Bytes) -> Bytes, rest: Bytes)
    requires |es| < 0x1_0000_0000
    ensures GetU32(PutCounted(es, put, rest)) == Got(|es|, PutAll(es, put, rest))
  {
    hide PutU32, GetU32, PutAll;
  }

  ghost function KeysOf<K, V>(es: seq<(K, V)>): set<K> { set e | e in es :: e.0 }

  lemma KeysOfCons<K, V>(es: seq<(K, V)>)
    requires es != []
    ensures KeysOf(es) == {es[0].0} + KeysOf(es[1..])
    ensures DistinctKeys(es) ==> es[0].0 !in KeysOf(es[1..]) && DistinctKeys(es[1..])
  {
    assert forall e :: e in es <==> e == es[0] || e in es[1..];
    if DistinctKeys(es) {
      forall e | e in es[1..] ensures e.0 != es[0].0 {
        var i :| 0 <= i < |es[1..]| && es[1..][i] == e;
        assert es[0].0 != es[i + 1].0;
      }
    }
  }

  /** Putting in entries of distinct new keys yields the map of those entries. */
  lemma {:induction false} AddAllExact<K, V>(acc: map<K, V>, es: seq<(K, V)>)
    requires DistinctKeys(es) && KeysOf(es) !! acc.Keys
    ensures AddAll(acc, es).Keys == acc.Keys + KeysOf(es)
    ensures forall k :: k in acc ==> AddAll(acc, es)[k] == acc[k]
    ensures forall e :: e in es ==> e.0 in KeysOf(es) && AddAll(acc, es)[e.0] == e.1
    decreases es
  {
    if es != [] {
      KeysOfCons(es);
      var next := acc[es[0].0 := es[0].1];
      hide DistinctKeys, KeysOf;
      AddAllExact(next, es[1..]);
      assert forall e :: e in es ==> e == es[0] || e in es[1..];
    }
  }

  lemma NumberedKeys<V>(m: map<u64, V>)
    ensures forall i, j :: 0 <= i < j < |Numbered(m)| ==> Numbered(m)[i].0 < Numbered(m)[j].0
    ensures forall k :: k in m ==> exists i :: 0 <= i < |Numbered(m)| && Numbered(m)[i] == (k, m[k])
  {
    NumberOrder();
    var ks := Sorted(m.Keys, NumberLess);
    forall i, j | 0 <= i < j < |Numbered(m)| ensures Numbered(m)[i].0 < Numbered(m)[j].0 {
      assert NumberLess(ks[i], ks[j]);
    }
    forall k | k in m ensures exists i :: 0 <= i < |Numbered(m)| && Numbered(m)[i] == (k, m[k]) {
      assert k in ks;
      var i :| 0 <= i < |ks| && ks[i] == k;
      assert Numbered(m)[i] == (k, m[k]);
    }
  }

  lemma LetteredKeys<V>(m: map<Text, V>)
    ensures forall i, j :: 0 <= i < j < |Lettered(m)| ==> TextLess(Lettered(m)[i].0, Lettered(m)[j].0)
    ensures forall i, j :: 0 <= i < j < |Lettered(m)| ==> Lettered(m)[i].0 != Lettered(m)[j].0
    ensures forall k :: k in m ==> exists i :: 0 <= i < |Lettered(m)| && Lettered(m)[i] == (k, m[k])
  {
    TextOrder();
    hide TextLess;
    var ks := Sorted(m.Keys, TextLess);
    forall i, j | 0 <= i < j < |Lettered(m)|
      ensures TextLess(Lettered(m)[i].0, Lettered(m)[j].0) && Lettered(m)[i].0 != Lettered(m)[j].0
    {
      assert TextLess(ks[i], ks[j]);
    }
    forall k | k in m ensures exists i :: 0 <= i < |Lettered(m)| && Lettered(m)[i] == (k, m[k]) {
      assert k in ks;
      var i :| 0 <= i < |ks| && ks[i] == k;
      assert Lettered(m)[i] == (k, m[k]);
    }
  }

  /** The map built from clipped entries of distinct keys: each of them, and nothing else. */
  lemma Built<J, K, V>(es: seq<J>, clip: J -> (K, V)) returns (r: map<K, V>)
    requires DistinctKeys(MapSeq(clip, es))
    ensures r == AddAll(map[], MapSeq(clip, es))
    ensures forall e :: e in es ==> clip(e).0 in r && r[clip(e).0] == clip(e).1
    ensures forall k :: k in r ==> exists e :: e in es && clip(e).0 == k
  {
    var cs := MapSeq(clip, es);
    var none: map<K, V> := map[];
    AddAllExact(none, cs);
    r := AddAll(none, cs);
    forall e | e in es ensures clip(e).0 in r && r[clip(e).0] == clip(e).1 {
      var i :| 0 <= i < |es| && es[i] == e;
      assert cs[i] in cs;
    }
    forall k | k in r ensures exists e :: e in es && clip(e).0 == k {
      var c :| c in cs && c.0 == k;
      var i :| 0 <= i < |cs| && cs[i] == c;
      assert es[i] in es;
    }
  }

  lemma NumberedDistinct<V, W>(m: map<u64, V>, clip: ((u64, V)) -> (u64, W))
    requires forall e :: clip(e).0 == e.0
    ensures DistinctKeys(MapSeq(clip, Numbered(m)))
    ensures forall k :: k in m ==> (k, m[k]) in Numbered(m)
  {
    NumberedKeys(m);
  }

  predicate AnyNode(e: (u64, NodeRecord)) { true }

  lemma NodeEntriesBack()
    ensures forall e, r :: GetNode(PutNode(e, r)) == Got(ClipNode(e), r)
  {
    forall e, r: Bytes ensures GetNode(PutNode(e, r)) == Got(ClipNode(e), r) {
      NodeBack(e, r);
    }
  }

  lemma NodesAdmissible(m: map<u64, NodeRecord>)
    ensures Admissible(Numbered(m), ClipNode, AnyNode, {})
    ensures AddAll(map[], MapSeq(ClipNode, Numbered(m))) == ClipNodes(m)
  {
    hide Numbered, Admissible, AddAll, DistinctKeys;
    NumberedDistinct(m, ClipNode);
    AdmissibleExact(Numbered(m), ClipNode, AnyNode, {});
    var r := Built(Numbered(m), ClipNode);
    assert r == ClipNodes(m);
  }

  lemma NodesBack(m: map<u64, NodeRecord>, rest: Bytes)
    requires |m| < 0x1_0000_0000
    ensures |m| <= NODES ==> GetNodes(PutNodes(m, rest)) == Got(ClipNodes(m), rest)
    ensures |m| > NODES ==> GetNodes(PutNodes(m, rest)).Fail?
  {
    hide Numbered, PutNode, GetNode, GetMap, PutCounted, Admissible, AddAll, ClipNodes, ClipNode, MapSeq;
    NodeEntriesBack();
    NodesAdmissible(m);
    MapBack(Numbered(m), PutNode, NODES, false, GetNode, ClipNode, AnyNode, rest);
  }

  lemma WorkerEntriesBack(m: map<u64, WorkerRecord>)
    requires forall k :: k in m ==> WorkerCountable((k, m[k]))
    ensures forall e, r :: e in Numbered(m) && WorkerFits(e) ==> GetWorker(PutWorker(e, r)) == Got(ClipWorker(e), r)
    ensures forall e, r :: e in Numbered(m) && !WorkerFits(e) ==> GetWorker(PutWorker(e, r)).Fail?
  {
    forall e, r: Bytes | e in Numbered(m)
      ensures WorkerFits(e) ==> GetWorker(PutWorker(e, r)) == Got(ClipWorker(e), r)
      ensures !WorkerFits(e) ==> GetWorker(PutWorker(e, r)).Fail?
    {
      hide GetWorker, PutWorker, ClipWorker;
      assert e == (e.0, m[e.0]);
      WorkerBack(e, r);
    }
  }

  lemma WorkerKeysKept()
    ensures forall e: (u64, WorkerRecord) :: ClipWorker(e).0 == e.0
  {
  }

  lemma WorkersAdmissible(m: map<u64, WorkerRecord>)
    ensures Admissible(Numbered(m), ClipWorker, WorkerFits, {}) <==> forall k :: k in m ==> WorkerFits((k, m[k]))
  {
    hide Numbered, Admissible, DistinctKeys, ClipWorker, WorkerFits, MapSeq;
    WorkerKeysKept();
    NumberedDistinct(m, ClipWorker);
    AdmissibleExact(Numbered(m), ClipWorker, WorkerFits, {});
  }

  lemma WorkersRebuilt(m: map<u64, WorkerRecord>)
    ensures AddAll(map[], MapSeq(ClipWorker, Numbered(m))) == ClipWorkers(m)
  {
    hide Numbered, AddAll, DistinctKeys, ClipWorker, MapSeq;
    WorkerKeysKept();
    NumberedDistinct(m, ClipWorker);
    var r := Built(Numbered(m), ClipWorker);
    SameMap(r, ClipWorkers(m), Numbered(m), ClipWorker);
  }

  /** Two maps of the same clipped entries are the same map. */
  lemma SameMap<J, K, V>(r: map<K, V>, n: map<K, V>, es: seq<J>, clip: J -> (K, V))
    requires forall e :: e in es ==> clip(e).0 in r && r[clip(e).0] == clip(e).1
    requires forall e :: e in es ==> clip(e).0 in n && n[clip(e).0] == clip(e).1
    requires forall k :: k in r ==> exists e :: e in es && clip(e).0 == k
    requires forall k :: k in n ==> exists e :: e in es && clip(e).0 == k
    ensures r == n
  {
    forall k | k in r ensures k in n && n[k] == r[k] {
      var e :| e in es && clip(e).0 == k;
    }
    forall k | k in n ensures k in r {
      var e :| e in es && clip(e).0 == k;
    }
  }

  lemma WorkersBack(m: map<u64, WorkerRecord>, rest: Bytes)
    requires |m| < 0x1_0000_0000 && forall k :: k in m ==> WorkerCountable((k, m[k]))
    ensures WorkersFit(m) ==> GetWorkers(PutWorkers(m, rest)) == Got(ClipWorkers(m), rest)
    ensures !WorkersFit(m) ==> GetWorkers(PutWorkers(m, rest)).Fail?
  {
    hide Numbered, PutWorker, GetWorker, GetMap, PutCounted, Admissible, AddAll, ClipWorkers, ClipWorker, WorkerFits,
         WorkerCountable, MapSeq;
    WorkerEntriesBack(m);
    WorkersAdmissible(m);
    WorkersRebuilt(m);
    MapBack(Numbered(m), PutWorker, WORKERS, true, GetWorker, ClipWorker, WorkerFits, rest);
  }

  predicate EntryFits(e: (Text, DeviceState)) { DeviceFits(e.1) }

  lemma EntryBack(e: (Text, DeviceState), rest: Bytes)
    requires DeviceCountable(e.1)
    ensures GetEntry(PutEntry(e, rest)) == if EntryFits(e) then Got(ClipEntry(e), rest) else Fail(Truncated)
  {
    hide GetDevice, PutDevice, GetText, PutText, Clip, ClipDevice, DeviceFits;
    DeviceBack(e.1, rest);
  }

  lemma DeviceEntriesBack(m: map<Text, DeviceState>)
    requires forall k :: k in m ==> DeviceCountable(m[k])
    ensures forall e, r :: e in Lettered(m) && EntryFits(e) ==> GetEntry(PutEntry(e, r)) == Got(ClipEntry(e), r)
    ensures forall e, r :: e in Lettered(m) && !EntryFits(e) ==> GetEntry(PutEntry(e, r)).Fail?
  {
    forall e, r: Bytes | e in Lettered(m)
      ensures EntryFits(e) ==> GetEntry(PutEntry(e, r)) == Got(ClipEntry(e), r)
      ensures !EntryFits(e) ==> GetEntry(PutEntry(e, r)).Fail?
    {
      hide GetEntry, PutEntry, ClipEntry, EntryFits;
      EntryBack(e, r);
    }
  }

  lemma ClipsKeptApart(m: map<Text, DeviceState>)
    requires DistinctClips(m)
    ensures DistinctKeys(MapSeq(ClipEntry, Lettered(m)))
  {
    LetteredKeys(m);
    hide Lettered, Clip, ClipDevice, TextLess;
    var es := Lettered(m);
    forall i, j | 0 <= i < j < |es| ensures ClipEntry(es[i]).0 != ClipEntry(es[j]).0 {
      assert es[i] in es && es[j] in es;
    }
  }

  lemma DistinctAt<K, V>(es: seq<(K, V)>, x: nat, y: nat)
    requires DistinctKeys(es) && x < |es| && y < |es| && x != y
    ensures es[x].0 != es[y].0
  {
  }

  lemma ApartPair(m: map<Text, DeviceState>, j: Text, k: Text)
    requires DistinctKeys(MapSeq(ClipEntry, Lettered(m))) && j in m && k in m && j != k
    ensures Clip(j, KEY) != Clip(k, KEY)
  {
    hide Lettered, Clip, ClipDevice, TextLess, DistinctKeys;
    LetteredKeys(m);
    var es := Lettered(m);
    var x :| 0 <= x < |es| && es[x] == (j, m[j]);
    var y :| 0 <= y < |es| && es[y] == (k, m[k]);
    DistinctAt(MapSeq(ClipEntry, es), x, y);
  }

  lemma ApartWhenDistinct(m: map<Text, DeviceState>)
    requires DistinctKeys(MapSeq(ClipEntry, Lettered(m)))
    ensures DistinctClips(m)
  {
    hide Lettered, Clip, ClipEntry, DistinctKeys, MapSeq;
    forall j, k | j in m && k in m && j != k ensures Clip(j, KEY) != Clip(k, KEY) {
      ApartPair(m, j, k);
    }
  }

  /** Clipped entries have distinct keys exactly when clipping keeps the map's keys apart. */
  lemma LetteredDistinct(m: map<Text, DeviceState>)
    ensures DistinctKeys(MapSeq(ClipEntry, Lettered(m))) <==> DistinctClips(m)
    ensures forall k :: k in m ==> (k, m[k]) in Lettered(m)
  {
    hide Lettered, ClipEntry, TextLess, DistinctKeys, DistinctClips, MapSeq;
    LetteredKeys(m);
    if DistinctClips(m) {
      ClipsKeptApart(m);
    }
    if DistinctKeys(MapSeq(ClipEntry, Lettered(m))) {
      ApartWhenDistinct(m);
    }
  }

  lemma DevicesAdmissible(m: map<Text, DeviceState>)
    ensures Admissible(Lettered(m), ClipEntry, EntryFits, {})
            <==> DistinctClips(m) && forall k :: k in m ==> DeviceFits(m[k])
  {
    hide Lettered, Admissible, DistinctKeys, DistinctClips, ClipEntry, DeviceFits, MapSeq;
    LetteredDistinct(m);
    AdmissibleExact(Lettered(m), ClipEntry, EntryFits, {});
  }

  lemma DevicesRebuilt(m: map<Text, DeviceState>)
    requires DistinctClips(m)
    ensures AddAll(map[], MapSeq(ClipEntry, Lettered(m))) == ClipDevices(m)
  {
    hide Lettered, AddAll, DistinctKeys, Clip, ClipDevice, MapSeq;
    LetteredDistinct(m);
    var r := Built(Lettered(m), ClipEntry);
    assert forall k :: k in m ==> ClipEntry((k, m[k])) == (Clip(k, KEY), ClipDevice(m[k]));
    assert r == ClipDevices(m);
  }

  lemma DevicesBack(m: map<Text, DeviceState>, rest: Bytes)
    requires |m| < 0x1_0000_0000 && forall k :: k in m ==> DeviceCountable(m[k])
    ensures DevicesFit(m) ==> GetDevices(PutDevices(m, rest)) == Got(ClipDevices(m), rest)
    ensures !DevicesFit(m) ==> GetDevices(PutDevices(m, rest)).Fail?
  {
    hide Lettered, PutEntry, GetEntry, GetMap, PutCounted, Admissible, AddAll, ClipDevices, ClipEntry, EntryFits, DeviceFits,
         DeviceCountable, MapSeq, DistinctClips;
    DeviceEntriesBack(m);
    DevicesAdmissible(m);
    MapBack(Lettered(m), PutEntry, DEVICES, true, GetEntry, ClipEntry, EntryFits, rest);
    if DevicesFit(m) {
      DevicesRebuilt(m);
    }
  }

  lemma ChangeEntriesBack()
    ensures forall c, r :: GetChange(PutChange(c, r)) == Got(ClipChange(c), r)
  {
    forall c, r: Bytes ensures GetChange(PutChange(c, r)) == Got(ClipChange(c), r) {
      ChangeBack(c, r);
    }
  }

  lemma LogBack(log: seq<ChangeRecord>, rest: Bytes)
    requires |log| < 0x1_0000_0000
    ensures GetLog(PutLog(log, rest)) == if |log| <= CHANGES then Got(MapSeq(ClipChange, log), rest) else Fail(OutOfBounds)
  {
    hide PutChange, GetChange, ClipChange, GetU32, GetAll, PutAll, MapSeq;
    CountBack(log, PutChange, rest);
    if |log| <= CHANGES {
      ChangeEntriesBack();
      GetPutCounted(log, PutChange, CHANGES, OutOfBounds, GetChange, ClipChange, rest);
    }
  }

  lemma HeadBack(s: Snapshot, rest: Bytes)
    ensures GetHead(PutHead(s, rest))
            == Got(NO_SNAPSHOT.(coordinator := s.coordinator, epoch := s.epoch, fleetGeneration := s.fleetGeneration,
                                nodeGeneration := s.nodeGeneration), rest)
  {
    hide GetU64, PutU64;
  }

  /** A snapshot comes back clipped exactly when it is within the decoder's bounds. */
  lemma SnapshotRoundTrip(s: Snapshot)
    requires Countable(s)
    ensures InBounds(s) ==> Decoded(PutSnapshot(s, [])) == Success(Clipped(s))
    ensures !InBounds(s) ==> Decoded(PutSnapshot(s, [])).Failure?
  {
    hide PutHead, PutNodes, PutWorkers, PutDevices, PutLog, GetHead, GetNodes, GetWorkers, GetDevices, GetLog;
    hide WorkerCountable, DeviceCountable, ClipNodes, ClipWorkers, ClipDevices, ClipChange, WorkersFit, DeviceFits;
    var l := PutLog(s.log, []);
    var d := PutDevices(s.devices, l);
    var w := PutWorkers(s.workers, d);
    HeadBack(s, PutNodes(s.nodes, w));
    NodesBack(s.nodes, w);
    WorkersBack(s.workers, d);
    DevicesBack(s.devices, l);
    LogBack(s.log, []);
  }

  // ---- Encoding again ----

  lemma {:induction false} PutAllSame<T(!new)>(xs: seq<T>, clip: T -> T, put: (T, Bytes) -> Bytes, rest: Bytes)
    requires forall x, r :: put(clip(x), r) == put(x, r)
    ensures PutAll(MapSeq(clip, xs), put, rest) == PutAll(xs, put, rest)
  {
    if xs != [] {
      var ys := MapSeq(clip, xs);
      assert ys[1..] == MapSeq(clip, xs[1..]);
      PutAllSame(xs[1..], clip, put, rest);
      assert put(clip(xs[0]), PutAll(xs[1..], put, rest)) == put(xs[0], PutAll(xs[1..], put, rest));
    } else {
      assert MapSeq(clip, xs) == [];
    }
  }

  lemma PutCountedSame<T(!new)>(xs: seq<T>, clip: T -> T, put: (T, Bytes) -> Bytes, rest: Bytes)
    requires forall x, r :: put(clip(x), r) == put(x, r)
    ensures PutCounted(MapSeq(clip, xs), put, rest) == PutCounted(xs, put, rest)
  {
    hide PutAll, PutU32;
    PutAllSame(xs, clip, put, rest);
  }

  lemma PutTextSame(t: Text, max: u32, rest: Bytes)
    ensures PutText(Clip(t, max), max, rest) == PutText(t, max, rest)
  {
    ClippedText(t, max);
    hide PutU32;
  }

  lemma PutTextsSame(ts: seq<Text>, max: u32, rest: Bytes)
    ensures PutTexts(ClipTexts(ts, max), max, rest) == PutTexts(ts, max, rest)
  {
    hide PutText, PutCounted, Clip, MapSeq;
    forall t, r: Bytes ensures TextPut(max)(TextClip(max)(t), r) == TextPut(max)(t, r) {
      PutTextSame(t, max, r);
    }
    PutCountedSame(ts, TextClip(max), TextPut(max), rest);
  }

  lemma PutCapabilitySame(c: Capability, rest: Bytes)
    ensures PutCapability(ClipCapability(c), rest) == PutCapability(c, rest)
  {
    hide PutText, PutU64, PutU8, Clip;
    PutTextSame(c.description, 256, rest);
    PutTextSame(c.value, 256, PutText(c.description, 256, rest));
    PutTextSame(c.name, 128, PutU8(c.kind as u8, PutText(c.value, 256, PutText(c.description, 256, rest))));
  }

  lemma PutCapabilitiesSame(cs: seq<Capability>, rest: Bytes)
    ensures PutCapabilities(ClipCapabilities(cs), rest) == PutCapabilities(cs, rest)
  {
    hide PutCapability, PutCounted, ClipCapability, MapSeq;
    forall c, r: Bytes ensures PutCapability(ClipCapability(c), r) == PutCapability(c, r) {
      PutCapabilitySame(c, r);
    }
    PutCountedSame(cs, ClipCapability, PutCapability, rest);
  }

  lemma PutIdentitySame(d: DeviceIdentity, rest: Bytes)
    ensures PutIdentity(ClipIdentity(d), rest) == PutIdentity(d, rest)
  {
    hide PutU8, PutU16, PutU32, PutU64, PutI64, PutText, PutOptional, Clip;
    PutTextAlwaysSame();
  }

  lemma PutTextAlwaysSame()
    ensures forall t, max: u32, r :: PutText(Clip(t, max), max, r) == PutText(t, max, r)
  {
    forall t, max: u32, r: Bytes ensures PutText(Clip(t, max), max, r) == PutText(t, max, r) {
      PutTextSame(t, max, r);
    }
  }

  lemma PutStandingSame(d: DeviceState, rest: Bytes)
    ensures PutStanding(ClipDevice(d), rest) == PutStanding(d, rest)
  {
    hide PutU8, PutText, Clip, ClipIdentity, ClipCapabilities;
    PutTextAlwaysSame();
  }

  lemma PutAxesSame(d: DeviceState, rest: Bytes)
    ensures PutAxes(ClipDevice(d), rest) == PutAxes(d, rest)
    ensures PutGauges(ClipDevice(d), rest) == PutGauges(d, rest)
  {
    hide PutU8, PutU64, PutI64, PutOptional, PutText, Clip, ClipIdentity, ClipCapabilities;
    PutTextAlwaysSame();
  }

  lemma PutHistorySame(d: DeviceState, rest: Bytes)
    ensures PutHistory(ClipDevice(d), rest) == PutHistory(d, rest)
  {
    hide PutU8, PutU64, PutI64, PutText, Clip, ClipIdentity, ClipCapabilities;
    PutTextAlwaysSame();
  }

  lemma PutDeviceSame(d: DeviceState, rest: Bytes)
    ensures PutDevice(ClipDevice(d), rest) == PutDevice(d, rest)
  {
    hide PutStanding, PutAxes, PutGauges, PutHistory, PutU64, PutCapabilities, PutReasons, PutIdentity, Clip, ClipIdentity,
         ClipCapabilities;
    var h := PutHistory(d, rest);
    PutHistorySame(d, rest);
    PutCapabilitiesSame(d.capabilities, h);
    var c := PutCapabilities(d.capabilities, h);
    PutAxesSame(d, c);
    var g := PutGauges(d, c);
    PutAxesSame(d, g);
    var q := PutReasons(d.reasons, PutAxes(d, g));
    PutStandingSame(d, q);
    PutIdentitySame(d.identity, PutStanding(d, q));
  }

  lemma PutEntrySame(e: (Text, DeviceState), rest: Bytes)
    ensures PutEntry(ClipEntry(e), rest) == PutEntry(e, rest)
  {
    hide PutDevice, ClipDevice, PutText, Clip;
    PutDeviceSame(e.1, rest);
    PutTextSame(e.0, KEY, PutDevice(e.1, rest));
  }

  lemma PutWorkerSame(e: (u64, WorkerRecord), rest: Bytes)
    ensures PutWorker(ClipWorker(e), rest) == PutWorker(e, rest)
  {
    hide PutU64, PutU32, PutText, PutTexts, Clip, ClipTexts, PutWorkerTail;
    PutTextAlwaysSame();
    var t := PutWorkerTail(e.1, rest);
    assert PutWorkerTail(ClipWorker(e).1, rest) == t by { PutWorkerTailSame(e, rest); }
    PutTextsSame(e.1.capabilities, 128, t);
    PutTextsSame(e.1.devices, 256, PutTexts(e.1.capabilities, 128, t));
  }

  lemma PutWorkerTailSame(e: (u64, WorkerRecord), rest: Bytes)
    ensures PutWorkerTail(ClipWorker(e).1, rest) == PutWorkerTail(e.1, rest)
  {
    hide PutU64, PutI64, PutU8, Clip, ClipTexts;
  }

  lemma PutChangeSame(c: ChangeRecord, rest: Bytes)
    ensures PutChange(ClipChange(c), rest) == PutChange(c, rest)
  {
    hide PutU8, PutU64, PutI64, PutText, Clip;
    PutTextAlwaysSame();
  }

  /** The numbered entries of a map changed value by value are the changed entries. */
  lemma NumberedClipped<V>(m: map<u64, V>, n: map<u64, V>, clip: ((u64, V)) -> (u64, V))
    requires n.Keys == m.Keys && forall k :: k in m ==> clip((k, m[k])) == (k, n[k])
    ensures Numbered(n) == MapSeq(clip, Numbered(m))
  {
    NumberOrder();
    var ks := Sorted(m.Keys, NumberLess);
    forall i | 0 <= i < |ks| ensures Numbered(n)[i] == MapSeq(clip, Numbered(m))[i] {
      assert Numbered(m)[i] == (ks[i], m[ks[i]]);
    }
  }

  lemma ClippedKeys(m: map<Text, DeviceState>, ks: seq<Text>)
    requires DistinctClips(m) && forall k :: k in ks <==> k in m
    ensures forall c :: c in MapSeq(TextClip(KEY), ks) <==> c in ClipDevices(m).Keys
  {
    hide Clip, ClipDevice;
    var n, cs := ClipDevices(m), MapSeq(TextClip(KEY), ks);
    forall c ensures c in cs <==> c in n.Keys {
      if c in n {
        var k :| k in m && Clip(k, KEY) == c;
        var i :| 0 <= i < |ks| && ks[i] == k;
        assert cs[i] == c;
      }
      if c in cs {
        var i :| 0 <= i < |cs| && cs[i] == c;
        assert ks[i] in ks;
      }
    }
  }

  lemma ClippedValue(m: map<Text, DeviceState>, k: Text)
    requires DistinctClips(m) && k in m
    ensures Clip(k, KEY) in ClipDevices(m) && ClipDevices(m)[Clip(k, KEY)] == ClipDevice(m[k])
  {
    hide Clip, ClipDevice;
  }

  /** Clipping keeps keys in order, so a clipped map is walked in the order of the map it came from. */
  lemma LetteredClipped(m: map<Text, DeviceState>)
    requires DistinctClips(m)
    ensures Lettered(ClipDevices(m)) == MapSeq(ClipEntry, Lettered(m))
  {
    hide TextLess, Clip, ClipDevice, ClipDevices, DistinctClips, StrictTotal, Ascending;
    var n := ClipDevices(m);
    ClippedKeysAscend(m);
    var ks := Sorted(m.Keys, TextLess);
    var cs := MapSeq(TextClip(KEY), ks);
    ClippedKeys(m, ks);
    SortedUnique(n.Keys, cs, TextLess);
    assert Sorted(n.Keys, TextLess) == cs;
    hide Sorted, MapSeq;
    forall i | 0 <= i < |cs| ensures Lettered(n)[i] == MapSeq(ClipEntry, Lettered(m))[i] {
      assert Lettered(m)[i] == (ks[i], m[ks[i]]) && Lettered(n)[i] == (cs[i], n[cs[i]]) && cs[i] == Clip(ks[i], KEY);
      ClippedEntryAt(m, i);
    }
  }

  lemma ClippedEntryAt(m: map<Text, DeviceState>, i: nat)
    requires DistinctClips(m) && i < |Lettered(m)|
    ensures var k := Lettered(m)[i].0;
            && Clip(k, KEY) in ClipDevices(m)
            && MapSeq(ClipEntry, Lettered(m))[i] == (Clip(k, KEY), ClipDevices(m)[Clip(k, KEY)])
  {
    hide Lettered, Clip, ClipDevice, ClipDevices, DistinctClips;
    assert Lettered(m)[i] in Lettered(m);
    ClippedValue(m, Lettered(m)[i].0);
  }

  lemma ClippedKeysAscend(m: map<Text, DeviceState>)
    requires DistinctClips(m)
    ensures StrictTotal(TextLess) && Ascending(MapSeq(TextClip(KEY), Sorted(m.Keys, TextLess)), TextLess)
  {
    TextOrder();
    hide TextLess, Clip;
    var ks := Sorted(m.Keys, TextLess);
    forall i, j | 0 <= i < j < |ks| ensures TextLess(Clip(ks[i], KEY), Clip(ks[j], KEY)) {
      assert ks[i] in ks && ks[j] in ks;
      assert ks[i] != ks[j];
      ClipKeepsOrder(ks[i], ks[j], KEY);
    }
  }

  lemma PutNodesSame(m: map<u64, NodeRecord>, rest: Bytes)
    ensures PutNodes(ClipNodes(m), rest) == PutNodes(m, rest)
  {
    hide Numbered, PutCounted, MapSeq, PutU64, PutI64;
    NumberedClipped(m, ClipNodes(m), ClipNode);
    PutCountedSame(Numbered(m), ClipNode, PutNode, rest);
  }

  lemma PutWorkersSame(m: map<u64, WorkerRecord>, rest: Bytes)
    ensures PutWorkers(ClipWorkers(m), rest) == PutWorkers(m, rest)
  {
    WorkerKeysKept();
    hide Numbered, PutCounted, MapSeq, PutWorker, ClipWorker;
    forall e, r: Bytes ensures PutWorker(ClipWorker(e), r) == PutWorker(e, r) {
      PutWorkerSame(e, r);
    }
    NumberedClipped(m, ClipWorkers(m), ClipWorker);
    PutCountedSame(Numbered(m), ClipWorker, PutWorker, rest);
  }

  lemma PutDevicesSame(m: map<Text, DeviceState>, rest: Bytes)
    requires DistinctClips(m)
    ensures PutDevices(ClipDevices(m), rest) == PutDevices(m, rest)
  {
    hide Lettered, PutCounted, MapSeq, PutEntry, ClipEntry, ClipDevices, DistinctClips;
    forall e, r: Bytes ensures PutEntry(ClipEntry(e), r) == PutEntry(e, r) {
      PutEntrySame(e, r);
    }
    LetteredClipped(m);
    PutCountedSame(Lettered(m), ClipEntry, PutEntry, rest);
  }

  lemma PutLogSame(log: seq<ChangeRecord>, rest: Bytes)
    ensures PutLog(MapSeq(ClipChange, log), rest) == PutLog(log, rest)
  {
    hide PutCounted, MapSeq, PutChange, ClipChange;
    forall c, r: Bytes ensures PutChange(ClipChange(c), r) == PutChange(c, r) {
      PutChangeSame(c, r);
    }
    PutCountedSame(log, ClipChange, PutChange, rest);
  }

  /** What was read back encodes to the same bytes. */
  lemma ReencodesTheSame(s: Snapshot, rest: Bytes)
    requires DistinctClips(s.devices)
    ensures PutSnapshot(Clipped(s), rest) == PutSnapshot(s, rest)
  {
    hide PutNodes, PutWorkers, PutDevices, PutLog, ClipNodes, ClipWorkers, ClipDevices, MapSeq, PutU64, DistinctClips;
    PutLogSame(s.log, rest);
    var l := PutLog(s.log, rest);
    PutDevicesSame(s.devices, l);
    var d := PutDevices(s.devices, l);
    PutWorkersSame(s.workers, d);
    PutNodesSame(s.nodes, PutWorkers(s.workers, d));
  }

  // ---- Longer inputs ----

  lemma SnapshotExtends()
    ensures Extends(GetSnapshot)
  {
    forall s: Bytes, e: Bytes | GetSnapshot(s).Got? ensures GetSnapshot(s + e) == GetSnapshot(s).Before(e) {
      SnapshotExtended(s, e);
    }
  }

  lemma NodeExtends()
    ensures Extends(GetNode) && Extends(GetWorker) && Extends(GetEntry) && Extends(GetChange)
  {
    forall s: Bytes, e: Bytes | GetNode(s).Got? ensures GetNode(s + e) == GetNode(s).Before(e) {
      hide GetNode;
      var r := SkipNode(s, e);
    }
    forall s: Bytes, e: Bytes | GetWorker(s).Got? ensures GetWorker(s + e) == GetWorker(s).Before(e) {
      hide GetWorker;
      var r := SkipWorker(s, e);
    }
    forall s: Bytes, e: Bytes | GetEntry(s).Got? ensures GetEntry(s + e) == GetEntry(s).Before(e) {
      hide GetText, GetDevice;
      var r := SkipText(s, KEY, e);
      r := SkipDevice(r, e);
    }
    forall s: Bytes, e: Bytes | GetChange(s).Got? ensures GetChange(s + e) == GetChange(s).Before(e) {
      hide GetChange;
      var r := SkipChange(s, e);
    }
  }

  lemma SkipHead(s: Bytes, e: Bytes) returns (r: Bytes)
    requires GetHead(s).Got?
    ensures r == GetHead(s).rest && GetHead(s + e) == Got(GetHead(s).value, r + e)
  {
    hide GetU64;
    r := SkipU64(s, e);
    r := SkipU64(r, e);
    r := SkipU64(r, e);
    r := SkipU64(r, e);
  }

  lemma SnapshotExtended(s: Bytes, e: Bytes)
    requires GetSnapshot(s).Got?
    ensures GetSnapshot(s + e) == GetSnapshot(s).Before(e)
  {
    hide GetHead, GetMap, GetCounted, Extends;
    NodeExtends();
    var r := SkipHead(s, e);
    r := SkipMap(NODES, false, GetNode, r, e);
    r := SkipMap(WORKERS, true, GetWorker, r, e);
    r := SkipMap(DEVICES, true, GetEntry, r, e);
    r := SkipCounted(CHANGES, OutOfBounds, GetChange, r, e);
  }

  /** No encoded snapshot is accepted with anything cut off its end or added to it. */
  lemma SnapshotPrefixFree(s: Snapshot, data: Bytes)
    requires Countable(s) && InBounds(s)
    requires data != PutSnapshot(s, []) && (data <= PutSnapshot(s, []) || PutSnapshot(s, []) <= data)
    ensures Decoded(data).Failure?
  {
    hide PutSnapshot, GetSnapshot, Extends, Countable, InBounds;
    SnapshotRoundTrip(s);
    SnapshotExtends();
    NeitherShorterNorLonger(GetSnapshot, PutSnapshot(s, []), data);
  }
}
