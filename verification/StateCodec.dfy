/** Encodings of the records a snapshot is made of: devices, nodes, workers, changes. */
module StateCodec {
  import opened Basics
  import opened Codec
  import opened ByteStream
  import opened Identity
  import opened Device
  import opened Pipeline
  import opened Records
  import opened Fleet

  // ---- Devices ----

  const REASONS: u32 := 32

  function PutReason(r: Reason, rest: Bytes): (b: Bytes)
    ensures GetReason(b) == Got(r, rest)
  {
    PutU8(r as u8, rest)
  }

  function GetReason(s: Bytes): Parsed<Reason> {
    var (b, s) :- GetU8(s);
    Got(b as Reason, s)
  }

  function PutReasons(rs: seq<Reason>, rest: Bytes): Bytes { PutCounted(rs, PutReason, rest) }

  function GetReasons(s: Bytes): Parsed<seq<Reason>> { GetCounted(REASONS, Truncated, GetReason, s) }

  function PutStanding(d: DeviceState, rest: Bytes): Bytes {
    PutU8(Flag(d.present), PutU8(d.health as u8, PutText(d.healthExplanation, 4096, PutU8(d.eligibility as u8, rest))))
  }

  function GetStanding(d: DeviceState, s: Bytes): Parsed<DeviceState> {
    var (present, s) :- GetU8(s);
    var (health, s) :- GetU8(s);
    var (explanation, s) :- GetText(s, 4096);
    var (eligibility, s) :- GetU8(s);
    Got(d.(present := present != 0, health := health as HealthState, healthExplanation := explanation,
           eligibility := eligibility as Eligibility), s)
  }

  function PutAxes(d: DeviceState, rest: Bytes): Bytes {
    PutU8(d.drain as u8, PutU8(Flag(d.quarantined), PutText(d.quarantine.reason, 512, PutText(d.quarantine.source, 128,
      PutU64(d.quarantine.generation, PutI64(d.quarantine.at, PutU64(d.quarantine.deviceId,
        PutU64(d.quarantine.authority, rest))))))))
  }

  function GetAxes(d: DeviceState, s: Bytes): Parsed<DeviceState> {
    var (drain, s) :- GetU8(s);
    var (quarantined, s) :- GetU8(s);
    var (reason, s) :- GetText(s, 512);
    var (source, s) :- GetText(s, 128);
    var (generation, s) :- GetU64(s);
    var (at, s) :- GetI64(s);
    var (deviceId, s) :- GetU64(s);
    var (authority, s) :- GetU64(s);
    Got(d.(drain := drain as DrainState, quarantined := quarantined != 0,
           quarantine := QuarantineRecord(reason, source, generation, at, deviceId, authority)), s)
  }

  function PutGauges(d: DeviceState, rest: Bytes): Bytes {
    PutU64(d.totalMemory, PutU64(d.usedMemory, PutU64(d.freeMemory, PutOptional(d.temperature, PutOptional(d.power, rest)))))
  }

  function GetGauges(d: DeviceState, s: Bytes): Parsed<DeviceState> {
    var (total, s) :- GetU64(s);
    var (used, s) :- GetU64(s);
    var (free, s) :- GetU64(s);
    var (temperature, s) :- GetOptional(s);
    var (power, s) :- GetOptional(s);
    Got(d.(totalMemory := total, usedMemory := used, freeMemory := free, temperature := temperature, power := power), s)
  }

  function PutHistory(d: DeviceState, rest: Bytes): Bytes {
    PutU8(Flag(d.coreValidationOk), PutText(d.validationDetail, 4096, PutI64(d.lastObservedAt, PutI64(d.lastValidatedAt,
      PutI64(d.lastAuthoritativeAt, PutU64(d.observationGeneration, PutU64(d.healthGeneration, PutU64(d.workerBoot,
        PutU8(Flag(d.isFresh), rest)))))))))
  }

  function GetHistory(d: DeviceState, s: Bytes): Parsed<DeviceState> {
    var (coreValidationOk, s) :- GetU8(s);
    var (detail, s) :- GetText(s, 4096);
    var (observedAt, s) :- GetI64(s);
    var (validatedAt, s) :- GetI64(s);
    var (authoritativeAt, s) :- GetI64(s);
    var (observationGeneration, s) :- GetU64(s);
    var (healthGeneration, s) :- GetU64(s);
    var (workerBoot, s) :- GetU64(s);
    var (isFresh, s) :- GetU8(s);
    Got(d.(coreValidationOk := coreValidationOk != 0, validationDetail := detail, lastObservedAt := observedAt,
           lastValidatedAt := validatedAt, lastAuthoritativeAt := authoritativeAt,
           observationGeneration := observationGeneration, healthGeneration := healthGeneration,
           workerBoot := workerBoot, isFresh := isFresh != 0), s)
  }

  function PutDevice(d: DeviceState, rest: Bytes): Bytes {
    PutU64(d.deviceId, PutU64(d.generation, PutIdentity(d.identity, PutStanding(d, PutReasons(d.reasons,
      PutAxes(d, PutGauges(d, PutCapabilities(d.capabilities, PutHistory(d, rest)))))))))
  }

  function GetDeviceParts(s: Bytes): Parsed<DeviceState> {
    var (deviceId, s) :- GetU64(s);
    var (generation, s) :- GetU64(s);
    var (id, s) :- GetIdentity(s);
    var (d, s) :- GetStanding(BLANK.(deviceId := deviceId, generation := generation, identity := id), s);
    var (reasons, s) :- GetReasons(s);
    var (d, s) :- GetAxes(d.(reasons := reasons), s);
    var (d, s) :- GetGauges(d, s);
    var (cs, s) :- GetCapabilities(s);
    GetHistory(d.(capabilities := cs), s)
  }

  /** Reading a device only succeeds or fails. */
  function GetDevice(s: Bytes): Parsed<DeviceState> { GetDeviceParts(s).Or(Truncated) }

  method WriteReasons(w: ByteWriter, rs: seq<Reason>)
    modifies w
    ensures forall rest: Bytes :: w.buf + rest == old(w.buf) + PutReasons(rs, rest)
  {
    hide PutU32, PutU8;
    w.U32(|rs| % 0x1_0000_0000);
    ghost var head := w.buf;
    for i := 0 to |rs|
      invariant forall rest: Bytes :: w.buf + PutAll(rs[i..], PutReason, rest) == head + PutAll(rs, PutReason, rest)
    {
      assert rs[i..][1..] == rs[i + 1..];
      w.U8(rs[i] as u8);
    }
    assert rs[|rs|..] == [];
  }

  method ReadReasons(r: ByteReader) returns (ok: bool, rs: seq<Reason>)
    requires r.Valid()
    modifies r`pos
    ensures r.Took(GetReasons(old(r.Rest())), ok, rs)
  {
    hide GetU32, GetU8, GetAll, Onto;
    rs := [];
    var n;
    ok, n := r.U32();
    if !ok {
      return;
    }
    if n > REASONS {
      return false, [];
    }
    ghost var all := GetAll(n, GetReason, r.Rest());
    OntoNothing(all);
    for i := 0 to n
      invariant r.Valid() && all == Onto(rs, GetAll(n - i, GetReason, r.Rest()))
    {
      ReadOn(rs, n - i, GetReason, r.Rest());
      var b;
      ok, b := r.U8();
      if !ok {
        return;
      }
      rs := rs + [b as Reason];
    }
    ReadThrough(rs, GetReason, r.Rest());
    ok := true;
  }

  method WriteStanding(w: ByteWriter, d: DeviceState)
    modifies w
    ensures forall rest: Bytes :: w.buf + rest == old(w.buf) + PutStanding(d, rest)
  {
    hide PutU8, PutText;
    w.U8(Flag(d.present));
    w.U8(d.health as u8);
    w.Text(d.healthExplanation, 4096);
    w.U8(d.eligibility as u8);
  }

  method WriteAxes(w: ByteWriter, d: DeviceState)
    modifies w
    ensures forall rest: Bytes :: w.buf + rest == old(w.buf) + PutAxes(d, rest)
  {
    hide PutU8, PutText, PutU64, PutI64;
    w.U8(d.drain as u8);
    w.U8(Flag(d.quarantined));
    w.Text(d.quarantine.reason, 512);
    w.Text(d.quarantine.source, 128);
    w.U64(d.quarantine.generation);
    w.I64(d.quarantine.at);
    w.U64(d.quarantine.deviceId);
    w.U64(d.quarantine.authority);
  }

  method WriteGauges(w: ByteWriter, d: DeviceState)
    modifies w
    ensures forall rest: Bytes :: w.buf + rest == old(w.buf) + PutGauges(d, rest)
  {
    hide PutU64, PutOptional;
    w.U64(d.totalMemory);
    w.U64(d.usedMemory);
    w.U64(d.freeMemory);
    w.Optional(d.temperature);
    w.Optional(d.power);
  }

  method WriteHistory(w: ByteWriter, d: DeviceState)
    modifies w
    ensures forall rest: Bytes :: w.buf + rest == old(w.buf) + PutHistory(d, rest)
  {
    hide PutU8, PutText, PutU64, PutI64;
    w.U8(Flag(d.coreValidationOk));
    w.Text(d.validationDetail, 4096);
    w.I64(d.lastObservedAt);
    w.I64(d.lastValidatedAt);
    w.I64(d.lastAuthoritativeAt);
    w.U64(d.observationGeneration);
    w.U64(d.healthGeneration);
    w.U64(d.workerBoot);
    w.U8(Flag(d.isFresh));
  }

  method WriteDevice(w: ByteWriter, d: DeviceState)
    modifies w
    ensures forall rest: Bytes :: w.buf + rest == old(w.buf) + PutDevice(d, rest)
  {
    hide PutU64, PutIdentity, PutStanding, PutReasons, PutAxes, PutGauges, PutCapabilities, PutHistory;
    w.U64(d.deviceId);
    w.U64(d.generation);
    WriteIdentity(w, d.identity);
    WriteStanding(w, d);
    WriteReasons(w, d.reasons);
    WriteAxes(w, d);
    WriteGauges(w, d);
    WriteCapabilities(w, d.capabilities);
    WriteHistory(w, d);
  }

  method ReadStanding(r: ByteReader, d: DeviceState) returns (ok: bool, out: DeviceState)
    requires r.Valid()
    modifies r`pos
    ensures r.Took(GetStanding(d, old(r.Rest())), ok, out)
  {
    hide GetU8, GetText;
    out := d;
    var b, t;
    ok, b := r.U8();
    if !ok { return; }
    out := out.(present := b != 0);
    ok, b := r.U8();
    if !ok { return; }
    out := out.(health := b as HealthState);
    ok, t := r.Text(4096);
    if !ok { return; }
    out := out.(healthExplanation := t);
    ok, b := r.U8();
    if !ok { return; }
    out := out.(eligibility := b as Eligibility);
  }

  method ReadAxes(r: ByteReader, d: DeviceState) returns (ok: bool, out: DeviceState)
    requires r.Valid()
    modifies r`pos
    ensures r.Took(GetAxes(d, old(r.Rest())), ok, out)
  {
    hide GetU8, GetText, GetU64, GetI64;
    out := d;
    var b, t, u, i;
    ok, b := r.U8();
    if !ok { return; }
    out := out.(drain := b as DrainState);
    ok, b := r.U8();
    if !ok { return; }
    out := out.(quarantined := b != 0);
    var q := NO_QUARANTINE;
    ok, t := r.Text(512);
    if !ok { return; }
    q := q.(reason := t);
    ok, t := r.Text(128);
    if !ok { return; }
    q := q.(source := t);
    ok, u := r.U64();
    if !ok { return; }
    q := q.(generation := u);
    ok, i := r.I64();
    if !ok { return; }
    q := q.(at := i);
    ok, u := r.U64();
    if !ok { return; }
    q := q.(deviceId := u);
    ok, u := r.U64();
    if !ok { return; }
    out := out.(quarantine := q.(authority := u));
  }

  method ReadGauges(r: ByteReader, d: DeviceState) returns (ok: bool, out: DeviceState)
    requires r.Valid()
    modifies r`pos
    ensures r.Took(GetGauges(d, old(r.Rest())), ok, out)
  {
    hide GetU64, GetOptional;
    out := d;
    var u, x;
    ok, u := r.U64();
    if !ok { return; }
    out := out.(totalMemory := u);
    ok, u := r.U64();
    if !ok { return; }
    out := out.(usedMemory := u);
    ok, u := r.U64();
    if !ok { return; }
    out := out.(freeMemory := u);
    ok, x := r.Optional();
    if !ok { return; }
    out := out.(temperature := x);
    ok, x := r.Optional();
    if !ok { return; }
    out := out.(power := x);
  }

  method ReadHistory(r: ByteReader, d: DeviceState) returns (ok: bool, out: DeviceState)
    requires r.Valid()
    modifies r`pos
    ensures r.Took(GetHistory(d, old(r.Rest())), ok, out)
  {
    hide GetU8, GetText, GetU64, GetI64;
    out := d;
    var b, t, u, i;
    ok, b := r.U8();
    if !ok { return; }
    out := out.(coreValidationOk := b != 0);
    ok, t := r.Text(4096);
    if !ok { return; }
    out := out.(validationDetail := t);
    ok, i := r.I64();
    if !ok { return; }
    out := out.(lastObservedAt := i);
    ok, i := r.I64();
    if !ok { return; }
    out := out.(lastValidatedAt := i);
    ok, i := r.I64();
    if !ok { return; }
    out := out.(lastAuthoritativeAt := i);
    ok, u := r.U64();
    if !ok { return; }
    out := out.(observationGeneration := u);
    ok, u := r.U64();
    if !ok { return; }
    out := out.(healthGeneration := u);
    ok, u := r.U64();
    if !ok { return; }
    out := out.(workerBoot := u);
    ok, b := r.U8();
    if !ok { return; }
    out := out.(isFresh := b != 0);
  }

  method ReadDevice(r: ByteReader) returns (ok: bool, d: DeviceState)
    requires r.Valid()
    modifies r`pos
    ensures r.Took(GetDevice(old(r.Rest())), ok, d)
  {
    hide GetU64, GetIdentity, GetStanding, GetReasons, GetAxes, GetGauges, GetCapabilities, GetHistory;
    d := BLANK;
    var u, id, reasons;
    ok, u := r.U64();
    if !ok { return; }
    d := d.(deviceId := u);
    ok, u := r.U64();
    if !ok { return; }
    d := d.(generation := u);
    ok, id := ReadIdentity(r);
    if !ok { return; }
    d := d.(identity := id);
    ok, d := ReadStanding(r, d);
    if !ok { return; }
    ok, reasons := ReadReasons(r);
    if !ok { return; }
    ok, d := ReadAxes(r, d.(reasons := reasons));
    if !ok { return; }
    ok, d := ReadGauges(r, d);
    if !ok { return; }
    var cs := ReadCapabilities(r);
    if cs.Failure? {
      return false, d;
    }
    ok, d := ReadHistory(r, d.(capabilities := cs.value));
  }

  /** A device as a snapshot keeps it: its texts cut to their limits. */
  function ClipDevice(d: DeviceState): DeviceState {
    d.(identity := ClipIdentity(d.identity), healthExplanation := Clip(d.healthExplanation, 4096),
       quarantine := d.quarantine.(reason := Clip(d.quarantine.reason, 512), source := Clip(d.quarantine.source, 128)),
       capabilities := ClipCapabilities(d.capabilities), validationDetail := Clip(d.validationDetail, 4096))
  }

  predicate DeviceFits(d: DeviceState) { |d.reasons| <= 32 && |d.capabilities| <= 4096 }

  /** Counts are 32 bits wide. */
  predicate DeviceCountable(d: DeviceState) { |d.reasons| < 0x1_0000_0000 && |d.capabilities| < 0x1_0000_0000 }

  function WithStanding(p: DeviceState, d: DeviceState): DeviceState {
    p.(present := d.present, health := d.health, healthExplanation := Clip(d.healthExplanation, 4096),
       eligibility := d.eligibility)
  }

  function WithAxes(p: DeviceState, d: DeviceState): DeviceState {
    p.(drain := d.drain, quarantined := d.quarantined,
       quarantine := d.quarantine.(reason := Clip(d.quarantine.reason, 512), source := Clip(d.quarantine.source, 128)))
  }

  function WithGauges(p: DeviceState, d: DeviceState): DeviceState {
    p.(totalMemory := d.totalMemory, usedMemory := d.usedMemory, freeMemory := d.freeMemory,
       temperature := d.temperature, power := d.power)
  }

  function WithHistory(p: DeviceState, d: DeviceState): DeviceState {
    p.(coreValidationOk := d.coreValidationOk, validationDetail := Clip(d.validationDetail, 4096),
       lastObservedAt := d.lastObservedAt, lastValidatedAt := d.lastValidatedAt,
       lastAuthoritativeAt := d.lastAuthoritativeAt, observationGeneration := d.observationGeneration,
       healthGeneration := d.healthGeneration, workerBoot := d.workerBoot, isFresh := d.isFresh)
  }

  lemma StandingBack(p: DeviceState, d: DeviceState, rest: Bytes)
    ensures GetStanding(p, PutStanding(d, rest)) == Got(WithStanding(p, d), rest)
  {
    hide GetU8, GetText, PutU8, PutText, Clip;
  }

  lemma AxesBack(p: DeviceState, d: DeviceState, rest: Bytes)
    ensures GetAxes(p, PutAxes(d, rest)) == Got(WithAxes(p, d), rest)
  {
    hide GetU8, GetText, GetU64, GetI64, PutU8, PutText, PutU64, PutI64, Clip;
  }

  lemma GaugesBack(p: DeviceState, d: DeviceState, rest: Bytes)
    ensures GetGauges(p, PutGauges(d, rest)) == Got(WithGauges(p, d), rest)
  {
    hide GetU64, GetOptional, PutU64, PutOptional;
  }

  lemma HistoryBack(p: DeviceState, d: DeviceState, rest: Bytes)
    ensures GetHistory(p, PutHistory(d, rest)) == Got(WithHistory(p, d), rest)
  {
    hide GetU8, GetText, GetU64, GetI64, PutU8, PutText, PutU64, PutI64, Clip;
  }

  lemma ReasonsBack(rs: seq<Reason>, rest: Bytes)
    ensures |rs| <= REASONS ==> GetReasons(PutReasons(rs, rest)) == Got(rs, rest)
    ensures REASONS < |rs| < 0x1_0000_0000 ==> GetReasons(PutReasons(rs, rest)) == Fail(Truncated)
  {
    hide PutU32, GetU32, PutReason, GetReason;
    if |rs| <= REASONS {
      var same := (r: Reason) => r;
      GetPutCounted(rs, PutReason, REASONS, Truncated, GetReason, same, rest);
      assert MapSeq(same, rs) == rs;
    }
  }

  lemma DeviceReassembled(d: DeviceState)
    ensures var p := WithStanding(BLANK.(deviceId := d.deviceId, generation := d.generation,
                                         identity := ClipIdentity(d.identity)), d).(reasons := d.reasons);
            WithHistory(WithGauges(WithAxes(p, d), d).(capabilities := ClipCapabilities(d.capabilities)), d) == ClipDevice(d)
  {
    hide Clip, ClipCapabilities, ClipIdentity;
  }

  /** A device comes back clipped exactly when its lists are within their bounds. */
  lemma DeviceBack(d: DeviceState, rest: Bytes)
    requires DeviceCountable(d)
    ensures GetDevice(PutDevice(d, rest)) == if DeviceFits(d) then Got(ClipDevice(d), rest) else Fail(Truncated)
  {
    hide GetU64, GetIdentity, GetStanding, GetReasons, GetAxes, GetGauges, GetCapabilities, GetHistory;
    hide PutU64, PutIdentity, PutStanding, PutReasons, PutAxes, PutGauges, PutCapabilities, PutHistory;
    hide WithStanding, WithAxes, WithGauges, WithHistory, ClipDevice, ClipIdentity, ClipCapabilities;
    var h := PutHistory(d, rest);
    var c := PutCapabilities(d.capabilities, h);
    var g := PutGauges(d, c);
    var x := PutAxes(d, g);
    var q := PutReasons(d.reasons, x);
    var n := PutStanding(d, q);
    var p := WithStanding(BLANK.(deviceId := d.deviceId, generation := d.generation, identity := ClipIdentity(d.identity)), d);
    IdentityBack(d.identity, n);
    StandingBack(BLANK.(deviceId := d.deviceId, generation := d.generation, identity := ClipIdentity(d.identity)), d, q);
    ReasonsBack(d.reasons, x);
    AxesBack(p.(reasons := d.reasons), d, g);
    GaugesBack(WithAxes(p.(reasons := d.reasons), d), d, c);
    CapabilitiesBack(d.capabilities, h);
    HistoryBack(WithGauges(WithAxes(p.(reasons := d.reasons), d), d).(capabilities := ClipCapabilities(d.capabilities)), d, rest);
    DeviceReassembled(d);
  }

  lemma SkipReasons(s: Bytes, e: Bytes) returns (r: Bytes)
    requires GetReasons(s).Got?
    ensures r == GetReasons(s).rest && GetReasons(s + e) == Got(GetReasons(s).value, r + e)
  {
    assert Extends(GetReason) by {
      forall t: Bytes, f: Bytes | GetReason(t).Got? ensures GetReason(t + f) == GetReason(t).Before(f) {
        var u := SkipU8(t, f);
      }
    }
    hide Extends;
    r := SkipCounted(REASONS, Truncated, GetReason, s, e);
  }

  lemma SkipStanding(d: DeviceState, s: Bytes, e: Bytes) returns (r: Bytes)
    requires GetStanding(d, s).Got?
    ensures r == GetStanding(d, s).rest && GetStanding(d, s + e) == Got(GetStanding(d, s).value, r + e)
  {
    hide GetU8, GetText;
    r := SkipU8(s, e);
    r := SkipU8(r, e);
    r := SkipText(r, 4096, e);
    r := SkipU8(r, e);
  }

  lemma SkipAxes(d: DeviceState, s: Bytes, e: Bytes) returns (r: Bytes)
    requires GetAxes(d, s).Got?
    ensures r == GetAxes(d, s).rest && GetAxes(d, s + e) == Got(GetAxes(d, s).value, r + e)
  {
    hide GetU8, GetText, GetU64, GetI64;
    r := SkipU8(s, e);
    r := SkipU8(r, e);
    r := SkipText(r, 512, e);
    r := SkipText(r, 128, e);
    r := SkipU64(r, e);
    r := SkipI64(r, e);
    r := SkipU64(r, e);
    r := SkipU64(r, e);
  }

  lemma SkipGauges(d: DeviceState, s: Bytes, e: Bytes) returns (r: Bytes)
    requires GetGauges(d, s).Got?
    ensures r == GetGauges(d, s).rest && GetGauges(d, s + e) == Got(GetGauges(d, s).value, r + e)
  {
    hide GetU64, GetOptional;
    r := SkipU64(s, e);
    r := SkipU64(r, e);
    r := SkipU64(r, e);
    r := SkipOptional(r, e);
    r := SkipOptional(r, e);
  }

  lemma SkipHistory(d: DeviceState, s: Bytes, e: Bytes) returns (r: Bytes)
    requires GetHistory(d, s).Got?
    ensures r == GetHistory(d, s).rest && GetHistory(d, s + e) == Got(GetHistory(d, s).value, r + e)
  {
    hide GetU8, GetText, GetU64, GetI64;
    r := SkipU8(s, e);
    r := SkipText(r, 4096, e);
    r := SkipI64(r, e);
    r := SkipI64(r, e);
    r := SkipI64(r, e);
    r := SkipU64(r, e);
    r := SkipU64(r, e);
    r := SkipU64(r, e);
    r := SkipU8(r, e);
  }

  lemma SkipDevice(s: Bytes, e: Bytes) returns (r: Bytes)
    requires GetDevice(s).Got?
    ensures r == GetDevice(s).rest && GetDevice(s + e) == Got(GetDevice(s).value, r + e)
  {
    hide GetU64, GetIdentity, GetStanding, GetReasons, GetAxes, GetGauges, GetCapabilities, GetHistory;
    r := SkipU64(s, e);
    var generation := GetU64(r).value;
    r := SkipU64(r, e);
    var d := BLANK.(deviceId := GetU64(s).value, generation := generation, identity := GetIdentity(r).value);
    r := SkipIdentity(r, e);
    var d2 := GetStanding(d, r).value;
    r := SkipStanding(d, r, e);
    d2 := d2.(reasons := GetReasons(r).value);
    r := SkipReasons(r, e);
    var d3 := GetAxes(d2, r).value;
    r := SkipAxes(d2, r, e);
    var d4 := GetGauges(d3, r).value;
    r := SkipGauges(d3, r, e);
    d4 := d4.(capabilities := GetCapabilities(r).value);
    r := SkipCapabilities(r, e);
    r := SkipHistory(d4, r, e);
  }

  // ---- Nodes ----

  function PutNode(e: (u64, NodeRecord), rest: Bytes): Bytes {
    PutU64(e.0, PutU64(e.1.generation, PutI64(e.1.firstSeen, rest)))
  }

  function GetNode(s: Bytes): Parsed<(u64, NodeRecord)> {
    var (node, s) :- GetU64(s);
    var (generation, s) :- GetU64(s);
    var (firstSeen, s) :- GetI64(s);
    Got((node, NodeRecord(node, generation, firstSeen)), s)
  }

  function ClipNode(e: (u64, NodeRecord)): (u64, NodeRecord) { (e.0, e.1.(node := e.0)) }

  lemma NodeBack(e: (u64, NodeRecord), rest: Bytes)
    ensures GetNode(PutNode(e, rest)) == Got(ClipNode(e), rest)
  {
    hide GetU64, GetI64, PutU64, PutI64;
  }

  lemma SkipNode(s: Bytes, e: Bytes) returns (r: Bytes)
    requires GetNode(s).Got?
    ensures r == GetNode(s).rest && GetNode(s + e) == Got(GetNode(s).value, r + e)
  {
    hide GetU64, GetI64;
    r := SkipU64(s, e);
    r := SkipU64(r, e);
    r := SkipI64(r, e);
  }

  method WriteNode(w: ByteWriter, e: (u64, NodeRecord))
    modifies w
    ensures forall rest: Bytes :: w.buf + rest == old(w.buf) + PutNode(e, rest)
  {
    hide PutU64, PutI64;
    w.U64(e.0);
    w.U64(e.1.generation);
    w.I64(e.1.firstSeen);
  }

  method ReadNode(r: ByteReader) returns (ok: bool, e: (u64, NodeRecord))
    requires r.Valid()
    modifies r`pos
    ensures r.Took(GetNode(old(r.Rest())), ok, e)
  {
    hide GetU64, GetI64;
    var n := NodeRecord(0, 0, NO_TIME);
    e := (0, n);
    var u, i;
    ok, u := r.U64();
    if !ok { return; }
    n := n.(node := u);
    ok, u := r.U64();
    if !ok { return; }
    n := n.(generation := u);
    ok, i := r.I64();
    if !ok { return; }
    n := n.(firstSeen := i);
    e := (n.node, n);
  }

  // ---- Changes ----

  function PutChange(c: ChangeRecord, rest: Bytes): Bytes {
    PutU8(c.kind as u8, PutU64(c.deviceId, PutI64(c.at, PutU64(c.generation, PutU64(c.epoch,
      PutText(c.detail, 512, PutText(c.from, 128, PutText(c.to, 128, rest))))))))
  }

  function GetChange(s: Bytes): Parsed<ChangeRecord> {
    var (kind, s) :- GetU8(s);
    var (deviceId, s) :- GetU64(s);
    var (at, s) :- GetI64(s);
    var (generation, s) :- GetU64(s);
    var (epoch, s) :- GetU64(s);
    var (detail, s) :- GetText(s, 512);
    var (from, s) :- GetText(s, 128);
    var (to, s) :- GetText(s, 128);
    Got(ChangeRecord(kind as ChangeKind, deviceId, at, generation, epoch, detail, from, to), s)
  }

  function ClipChange(c: ChangeRecord): ChangeRecord {
    c.(detail := Clip(c.detail, 512), from := Clip(c.from, 128), to := Clip(c.to, 128))
  }

  lemma ChangeBack(c: ChangeRecord, rest: Bytes)
    ensures GetChange(PutChange(c, rest)) == Got(ClipChange(c), rest)
  {
    hide GetU8, GetU64, GetI64, GetText, PutU8, PutU64, PutI64, PutText, Clip;
  }

  lemma SkipChange(s: Bytes, e: Bytes) returns (r: Bytes)
    requires GetChange(s).Got?
    ensures r == GetChange(s).rest && GetChange(s + e) == Got(GetChange(s).value, r + e)
  {
    hide GetU8, GetU64, GetI64, GetText;
    r := SkipU8(s, e);
    r := SkipU64(r, e);
    r := SkipI64(r, e);
    r := SkipU64(r, e);
    r := SkipU64(r, e);
    r := SkipText(r, 512, e);
    r := SkipText(r, 128, e);
    r := SkipText(r, 128, e);
  }

  method WriteChange(w: ByteWriter, c: ChangeRecord)
    modifies w
    ensures forall rest: Bytes :: w.buf + rest == old(w.buf) + PutChange(c, rest)
  {
    hide PutU8, PutU64, PutI64, PutText;
    w.U8(c.kind as u8);
    w.U64(c.deviceId);
    w.I64(c.at);
    w.U64(c.generation);
    w.U64(c.epoch);
    w.Text(c.detail, 512);
    w.Text(c.from, 128);
    w.Text(c.to, 128);
  }

  method ReadChange(r: ByteReader) returns (ok: bool, c: ChangeRecord)
    requires r.Valid()
    modifies r`pos
    ensures r.Took(GetChange(old(r.Rest())), ok, c)
  {
    hide GetU8, GetU64, GetI64, GetText;
    c := ChangeRecord(0, 0, NO_TIME, 0, 0, [], [], []);
    var b, u, i, t;
    ok, b := r.U8();
    if !ok { return; }
    c := c.(kind := b as ChangeKind);
    ok, u := r.U64();
    if !ok { return; }
    c := c.(deviceId := u);
    ok, i := r.I64();
    if !ok { return; }
    c := c.(at := i);
    ok, u := r.U64();
    if !ok { return; }
    c := c.(generation := u);
    ok, u := r.U64();
    if !ok { return; }
    c := c.(epoch := u);
    ok, t := r.Text(512);
    if !ok { return; }
    c := c.(detail := t);
    ok, t := r.Text(128);
    if !ok { return; }
    c := c.(from := t);
    ok, t := r.Text(128);
    if !ok { return; }
    c := c.(to := t);
  }

  // ---- Workers ----

  const LISTED: u32 := 4096

  function PutWorkerHead(e: (u64, WorkerRecord), rest: Bytes): Bytes {
    var wr := e.1;
    PutU64(e.0, PutU64(wr.boot, PutU64(wr.registrationGeneration, PutU64(wr.node, PutU64(wr.agent,
      PutU32(wr.agentVersion.major, PutU32(wr.agentVersion.minor, PutU32(wr.agentVersion.patch, PutU32(wr.protocolVersion,
        PutText(wr.osPlatform, 128, PutText(wr.driverVersion, 128, rest)))))))))))
  }

  const NO_WORKER: WorkerRecord := WorkerRecord(0, 0, 0, 0, 0, Version(0, 0, 0), 0, [], [], [], [], NO_TIME, NO_TIME, 0, true, false, false)

  function GetWorkerHead(s: Bytes): Parsed<WorkerRecord> {
    var (worker, s) :- GetU64(s);
    var (boot, s) :- GetU64(s);
    var (registrationGeneration, s) :- GetU64(s);
    var (node, s) :- GetU64(s);
    var (agent, s) :- GetU64(s);
    var (major, s) :- GetU32(s);
    var (minor, s) :- GetU32(s);
    var (patch, s) :- GetU32(s);
    var (protocol, s) :- GetU32(s);
    var (os, s) :- GetText(s, 128);
    var (driver, s) :- GetText(s, 128);
    Got(NO_WORKER.(worker := worker, boot := boot, registrationGeneration := registrationGeneration, node := node,
                   agent := agent, agentVersion := Version(major, minor, patch), protocolVersion := protocol,
                   osPlatform := os, driverVersion := driver), s)
  }

  function PutWorkerTail(wr: WorkerRecord, rest: Bytes): Bytes {
    PutI64(wr.registeredAt, PutI64(wr.lastHeartbeat, PutU64(wr.registeredEpoch,
      PutU8(Flag(wr.alive), PutU8(Flag(wr.fenced), PutU8(Flag(wr.lost), rest))))))
  }

  function GetWorkerTail(wr: WorkerRecord, s: Bytes): Parsed<WorkerRecord> {
    var (registeredAt, s) :- GetI64(s);
    var (lastHeartbeat, s) :- GetI64(s);
    var (registeredEpoch, s) :- GetU64(s);
    var (alive, s) :- GetU8(s);
    var (fenced, s) :- GetU8(s);
    var (lost, s) :- GetU8(s);
    Got(wr.(registeredAt := registeredAt, lastHeartbeat := lastHeartbeat, registeredEpoch := registeredEpoch,
            alive := alive != 0, fenced := fenced != 0, lost := lost != 0), s)
  }

  function PutWorker(e: (u64, WorkerRecord), rest: Bytes): Bytes {
    PutWorkerHead(e, PutTexts(e.1.devices, 256, PutTexts(e.1.capabilities, 128, PutWorkerTail(e.1, rest))))
  }

  function GetWorker(s: Bytes): Parsed<(u64, WorkerRecord)> {
    var (wr, s) :- GetWorkerHead(s).Or(Truncated);
    var (devices, s) :- GetTexts(LISTED, 256, s);
    var (capabilities, s) :- GetTexts(LISTED, 128, s);
    var (wr, s) :- GetWorkerTail(wr.(devices := devices, capabilities := capabilities), s).Or(Truncated);
    Got((wr.worker, wr), s)
  }

  /** A worker's entry as a snapshot keeps it: named by its key, its texts cut to their limits. */
  function ClipWorker(e: (u64, WorkerRecord)): (u64, WorkerRecord) {
    (e.0, e.1.(worker := e.0, osPlatform := Clip(e.1.osPlatform, 128), driverVersion := Clip(e.1.driverVersion, 128),
               devices := ClipTexts(e.1.devices, 256), capabilities := ClipTexts(e.1.capabilities, 128)))
  }

  predicate WorkerFits(e: (u64, WorkerRecord)) { |e.1.devices| <= 4096 && |e.1.capabilities| <= 4096 }

  predicate WorkerCountable(e: (u64, WorkerRecord)) {
    |e.1.devices| < 0x1_0000_0000 && |e.1.capabilities| < 0x1_0000_0000
  }

  function WorkerHead(e: (u64, WorkerRecord)): WorkerRecord {
    NO_WORKER.(worker := e.0, boot := e.1.boot, registrationGeneration := e.1.registrationGeneration, node := e.1.node,
               agent := e.1.agent, agentVersion := e.1.agentVersion, protocolVersion := e.1.protocolVersion,
               osPlatform := Clip(e.1.osPlatform, 128), driverVersion := Clip(e.1.driverVersion, 128))
  }

  function WithWorkerTail(p: WorkerRecord, wr: WorkerRecord): WorkerRecord {
    p.(registeredAt := wr.registeredAt, lastHeartbeat := wr.lastHeartbeat, registeredEpoch := wr.registeredEpoch,
       alive := wr.alive, fenced := wr.fenced, lost := wr.lost)
  }

  lemma WorkerHeadBack(e: (u64, WorkerRecord), rest: Bytes)
    ensures GetWorkerHead(PutWorkerHead(e, rest)) == Got(WorkerHead(e), rest)
  {
    hide GetU64, GetU32, GetText, PutU64, PutU32, PutText, Clip;
  }

  lemma WorkerTailBack(p: WorkerRecord, wr: WorkerRecord, rest: Bytes)
    ensures GetWorkerTail(p, PutWorkerTail(wr, rest)) == Got(WithWorkerTail(p, wr), rest)
  {
    hide GetU64, GetI64, GetU8, PutU64, PutI64, PutU8;
  }

  lemma WorkerReassembled(e: (u64, WorkerRecord))
    ensures var p := WorkerHead(e).(devices := ClipTexts(e.1.devices, 256), capabilities := ClipTexts(e.1.capabilities, 128));
            ClipWorker(e) == (e.0, WithWorkerTail(p, e.1)) && WithWorkerTail(p, e.1).worker == e.0
  {
    hide Clip, ClipTexts;
  }

  /** A worker's entry comes back clipped exactly when its lists are within their bounds. */
  lemma WorkerBack(e: (u64, WorkerRecord), rest: Bytes)
    requires WorkerCountable(e)
    ensures GetWorker(PutWorker(e, rest)) == if WorkerFits(e) then Got(ClipWorker(e), rest) else Fail(OutOfBounds)
  {
    hide GetWorkerHead, GetTexts, GetWorkerTail, PutWorkerHead, PutTexts, PutWorkerTail;
    hide WorkerHead, WithWorkerTail, ClipWorker, ClipTexts;
    var t := PutWorkerTail(e.1, rest);
    var c := PutTexts(e.1.capabilities, 128, t);
    WorkerHeadBack(e, PutTexts(e.1.devices, 256, c));
    TextsBack(e.1.devices, LISTED, 256, c);
    TextsBack(e.1.capabilities, LISTED, 128, t);
    WorkerTailBack(WorkerHead(e).(devices := ClipTexts(e.1.devices, 256), capabilities := ClipTexts(e.1.capabilities, 128)), e.1, rest);
    WorkerReassembled(e);
  }

  lemma SkipWorkerHead(s: Bytes, e: Bytes) returns (r: Bytes)
    requires GetWorkerHead(s).Got?
    ensures r == GetWorkerHead(s).rest && GetWorkerHead(s + e) == Got(GetWorkerHead(s).value, r + e)
  {
    hide GetU64, GetU32, GetText;
    r := SkipU64(s, e);
    r := SkipU64(r, e);
    r := SkipU64(r, e);
    r := SkipU64(r, e);
    r := SkipU64(r, e);
    r := SkipU32(r, e);
    r := SkipU32(r, e);
    r := SkipU32(r, e);
    r := SkipU32(r, e);
    r := SkipText(r, 128, e);
    r := SkipText(r, 128, e);
  }

  lemma SkipWorkerTail(wr: WorkerRecord, s: Bytes, e: Bytes) returns (r: Bytes)
    requires GetWorkerTail(wr, s).Got?
    ensures r == GetWorkerTail(wr, s).rest && GetWorkerTail(wr, s + e) == Got(GetWorkerTail(wr, s).value, r + e)
  {
    hide GetU64, GetI64, GetU8;
    r := SkipI64(s, e);
    r := SkipI64(r, e);
    r := SkipU64(r, e);
    r := SkipU8(r, e);
    r := SkipU8(r, e);
    r := SkipU8(r, e);
  }

  lemma SkipWorker(s: Bytes, e: Bytes) returns (r: Bytes)
    requires GetWorker(s).Got?
    ensures r == GetWorker(s).rest && GetWorker(s + e) == Got(GetWorker(s).value, r + e)
  {
    hide GetWorkerHead, GetTexts, GetWorkerTail;
    var wr := GetWorkerHead(s).value;
    r := SkipWorkerHead(s, e);
    wr := wr.(devices := GetTexts(LISTED, 256, r).value);
    r := SkipTexts(LISTED, 256, r, e);
    wr := wr.(capabilities := GetTexts(LISTED, 128, r).value);
    r := SkipTexts(LISTED, 128, r, e);
    r := SkipWorkerTail(wr, r, e);
  }

  method WriteWorker(w: ByteWriter, e: (u64, WorkerRecord))
    modifies w
    ensures forall rest: Bytes :: w.buf + rest == old(w.buf) + PutWorker(e, rest)
  {
    hide PutWorkerHead, PutTexts, PutWorkerTail;
    WriteWorkerHead(w, e);
    WriteTexts(w, e.1.devices, 256);
    WriteTexts(w, e.1.capabilities, 128);
    WriteWorkerTail(w, e.1);
  }

  method WriteWorkerHead(w: ByteWriter, e: (u64, WorkerRecord))
    modifies w
    ensures forall rest: Bytes :: w.buf + rest == old(w.buf) + PutWorkerHead(e, rest)
  {
    hide PutU64, PutU32, PutText;
    var wr := e.1;
    w.U64(e.0);
    w.U64(wr.boot);
    w.U64(wr.registrationGeneration);
    w.U64(wr.node);
    w.U64(wr.agent);
    w.U32(wr.agentVersion.major);
    w.U32(wr.agentVersion.minor);
    w.U32(wr.agentVersion.patch);
    w.U32(wr.protocolVersion);
    w.Text(wr.osPlatform, 128);
    w.Text(wr.driverVersion, 128);
  }

  method WriteWorkerTail(w: ByteWriter, wr: WorkerRecord)
    modifies w
    ensures forall rest: Bytes :: w.buf + rest == old(w.buf) + PutWorkerTail(wr, rest)
  {
    hide PutU64, PutI64, PutU8;
    w.I64(wr.registeredAt);
    w.I64(wr.lastHeartbeat);
    w.U64(wr.registeredEpoch);
    w.U8(Flag(wr.alive));
    w.U8(Flag(wr.fenced));
    w.U8(Flag(wr.lost));
  }

  method ReadWorkerHead(r: ByteReader) returns (ok: bool, wr: WorkerRecord)
    requires r.Valid()
    modifies r`pos
    ensures r.Took(GetWorkerHead(old(r.Rest())), ok, wr)
  {
    hide GetU64, GetU32, GetText;
    wr := NO_WORKER;
    var u, w, t;
    ok, u := r.U64();
    if !ok { return; }
    wr := wr.(worker := u);
    ok, u := r.U64();
    if !ok { return; }
    wr := wr.(boot := u);
    ok, u := r.U64();
    if !ok { return; }
    wr := wr.(registrationGeneration := u);
    ok, u := r.U64();
    if !ok { return; }
    wr := wr.(node := u);
    ok, u := r.U64();
    if !ok { return; }
    wr := wr.(agent := u);
    ok, w := r.U32();
    if !ok { return; }
    wr := wr.(agentVersion := wr.agentVersion.(major := w));
    ok, w := r.U32();
    if !ok { return; }
    wr := wr.(agentVersion := wr.agentVersion.(minor := w));
    ok, w := r.U32();
    if !ok { return; }
    wr := wr.(agentVersion := wr.agentVersion.(patch := w));
    ok, w := r.U32();
    if !ok { return; }
    wr := wr.(protocolVersion := w);
    ok, t := r.Text(128);
    if !ok { return; }
    wr := wr.(osPlatform := t);
    ok, t := r.Text(128);
    if !ok { return; }
    wr := wr.(driverVersion := t);
  }

  method ReadWorkerTail(r: ByteReader, wr: WorkerRecord) returns (ok: bool, out: WorkerRecord)
    requires r.Valid()
    modifies r`pos
    ensures r.Took(GetWorkerTail(wr, old(r.Rest())), ok, out)
  {
    hide GetU64, GetI64, GetU8;
    out := wr;
    var b, u, i;
    ok, i := r.I64();
    if !ok { return; }
    out := out.(registeredAt := i);
    ok, i := r.I64();
    if !ok { return; }
    out := out.(lastHeartbeat := i);
    ok, u := r.U64();
    if !ok { return; }
    out := out.(registeredEpoch := u);
    ok, b := r.U8();
    if !ok { return; }
    out := out.(alive := b != 0);
    ok, b := r.U8();
    if !ok { return; }
    out := out.(fenced := b != 0);
    ok, b := r.U8();
    if !ok { return; }
    out := out.(lost := b != 0);
  }

  method ReadWorker(r: ByteReader) returns (e: Result<(u64, WorkerRecord)>)
    requires r.Valid()
    modifies r`pos
    ensures r.Valid()
    ensures match GetWorker(old(r.Rest()))
            case Fail(why) => e == Failure(why)
            case Got(v, s) => e == Success(v) && r.Rest() == s
  {
    hide GetWorkerHead, GetTexts, GetWorkerTail;
    var ok, wr := ReadWorkerHead(r);
    if !ok {
      return Failure(Truncated);
    }
    var devices := ReadTexts(r, LISTED, 256);
    if devices.Failure? {
      return Failure(devices.status);
    }
    var capabilities := ReadTexts(r, LISTED, 128);
    if capabilities.Failure? {
      return Failure(capabilities.status);
    }
    ok, wr := ReadWorkerTail(r, wr.(devices := devices.value, capabilities := capabilities.value));
    if !ok {
      return Failure(Truncated);
    }
    e := Success((wr.worker, wr));
  }
}
