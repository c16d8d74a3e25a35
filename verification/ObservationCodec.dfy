/** The encoding of observations and of batches of them. */
module ObservationCodec {
  import opened Basics
  import opened Codec
  import opened ByteStream
  import opened Identity
  import opened Device
  import opened Records

  const BATCH: u32 := 4096
  const MAX_BLOB_SIZE: u32 := 16 * 1024 * 1024

  const NO_OBSERVATION: Observation := Observation(
    0, 0, 0, NO_TIME, 0, 0, 0, 0, 0, HealthState.UNKNOWN, [], 0, 0, 0, None, None, [], false, [],
    false, false, false, false, false, false, false, false, false, false, NO_IDENTITY)

  // ---- One observation: source and readings, capabilities, probe results, identity ----

  function PutSource(o: Observation, rest: Bytes): Bytes {
    PutU64(o.deviceId, PutU64(o.observationGeneration, PutU64(o.healthGeneration, PutI64(o.observedAt,
      PutU64(o.workerBoot, PutU64(o.worker, PutU64(o.node, PutU64(o.epoch, PutU64(o.deviceGeneration, rest)))))))))
  }

  function GetSource(s: Bytes): Parsed<Observation> {
    var (deviceId, s) :- GetU64(s);
    var (observationGeneration, s) :- GetU64(s);
    var (healthGeneration, s) :- GetU64(s);
    var (observedAt, s) :- GetI64(s);
    var (workerBoot, s) :- GetU64(s);
    var (worker, s) :- GetU64(s);
    var (node, s) :- GetU64(s);
    var (epoch, s) :- GetU64(s);
    var (deviceGeneration, s) :- GetU64(s);
    Got(NO_OBSERVATION.(
        deviceId := deviceId, observationGeneration := observationGeneration, healthGeneration := healthGeneration,
        observedAt := observedAt, workerBoot := workerBoot, worker := worker, node := node, epoch := epoch,
        deviceGeneration := deviceGeneration), s)
  }

  function PutReadings(o: Observation, rest: Bytes): Bytes {
    PutU8(o.health as u8, PutText(o.healthExplanation, 4096, PutU64(o.totalMemory, PutU64(o.usedMemory,
      PutU64(o.freeMemory, PutOptional(o.temperature, PutOptional(o.power, rest)))))))
  }

  function GetReadings(o: Observation, s: Bytes): Parsed<Observation> {
    var (health, s) :- GetU8(s);
    var (explanation, s) :- GetText(s, 4096);
    var (total, s) :- GetU64(s);
    var (used, s) :- GetU64(s);
    var (free, s) :- GetU64(s);
    var (temperature, s) :- GetOptional(s);
    var (power, s) :- GetOptional(s);
    Got(o.(health := health as HealthState, healthExplanation := explanation, totalMemory := total, usedMemory := used,
           freeMemory := free, temperature := temperature, power := power), s)
  }

  function PutProbe(o: Observation, rest: Bytes): Bytes {
    PutU8(Flag(o.coreValidationOk), PutText(o.validationDetail, 4096, PutU8(Flag(o.enumerated), PutU8(Flag(o.present),
      PutU8(Flag(o.driverRuntimeOk), PutU8(Flag(o.cudaInitOk), rest))))))
  }

  function GetProbe(o: Observation, s: Bytes): Parsed<Observation> {
    var (coreValidationOk, s) :- GetU8(s);
    var (detail, s) :- GetText(s, 4096);
    var (enumerated, s) :- GetU8(s);
    var (present, s) :- GetU8(s);
    var (driverRuntimeOk, s) :- GetU8(s);
    var (cudaInitOk, s) :- GetU8(s);
    Got(o.(coreValidationOk := coreValidationOk != 0, validationDetail := detail, enumerated := enumerated != 0, present := present != 0,
           driverRuntimeOk := driverRuntimeOk != 0, cudaInitOk := cudaInitOk != 0), s)
  }

  function PutOperations(o: Observation, rest: Bytes): Bytes {
    PutU8(Flag(o.memoryAllocOk), PutU8(Flag(o.h2dOk), PutU8(Flag(o.kernelExecOk),
      PutU8(Flag(o.syncOk), PutU8(Flag(o.d2hOk), PutU8(Flag(o.verifyOk), rest))))))
  }

  function GetOperations(o: Observation, s: Bytes): Parsed<Observation> {
    var (memoryAllocOk, s) :- GetU8(s);
    var (h2dOk, s) :- GetU8(s);
    var (kernelExecOk, s) :- GetU8(s);
    var (syncOk, s) :- GetU8(s);
    var (d2hOk, s) :- GetU8(s);
    var (verifyOk, s) :- GetU8(s);
    Got(o.(memoryAllocOk := memoryAllocOk != 0, h2dOk := h2dOk != 0, kernelExecOk := kernelExecOk != 0, syncOk := syncOk != 0,
           d2hOk := d2hOk != 0, verifyOk := verifyOk != 0), s)
  }

  function PutObservation(o: Observation, rest: Bytes): Bytes {
    PutSource(o, PutReadings(o, PutCapabilities(o.capabilities, PutProbe(o, PutOperations(o, PutIdentity(o.identity, rest))))))
  }

  function GetObservation(s: Bytes): Parsed<Observation> {
    var (o, s) :- GetSource(s).Or(Truncated);
    var (o, s) :- GetReadings(o, s).Or(Truncated);
    var (cs, s) :- GetCapabilities(s);
    var (o, s) :- GetProbe(o.(capabilities := cs), s).Or(Truncated);
    var (o, s) :- GetOperations(o, s).Or(Truncated);
    var (id, s) :- GetIdentity(s).Or(Truncated);
    Got(o.(identity := id), s)
  }

  function Decoded(data: Bytes): Result<Observation> { Entire(GetObservation(data)) }

  // ---- Writing ----

  method WriteSource(w: ByteWriter, o: Observation)
    modifies w
    ensures forall rest: Bytes :: w.buf + rest == old(w.buf) + PutSource(o, rest)
  {
    hide PutU64, PutI64;
    w.U64(o.deviceId);
    w.U64(o.observationGeneration);
    w.U64(o.healthGeneration);
    w.I64(o.observedAt);
    w.U64(o.workerBoot);
    w.U64(o.worker);
    w.U64(o.node);
    w.U64(o.epoch);
    w.U64(o.deviceGeneration);
  }

  method WriteReadings(w: ByteWriter, o: Observation)
    modifies w
    ensures forall rest: Bytes :: w.buf + rest == old(w.buf) + PutReadings(o, rest)
  {
    hide PutU8, PutU64, PutText, PutOptional;
    w.U8(o.health as u8);
    w.Text(o.healthExplanation, 4096);
    w.U64(o.totalMemory);
    w.U64(o.usedMemory);
    w.U64(o.freeMemory);
    w.Optional(o.temperature);
    w.Optional(o.power);
  }

  method WriteProbe(w: ByteWriter, o: Observation)
    modifies w
    ensures forall rest: Bytes :: w.buf + rest == old(w.buf) + PutProbe(o, rest)
  {
    hide PutU8, PutText;
    w.U8(Flag(o.coreValidationOk));
    w.Text(o.validationDetail, 4096);
    w.U8(Flag(o.enumerated));
    w.U8(Flag(o.present));
    w.U8(Flag(o.driverRuntimeOk));
    w.U8(Flag(o.cudaInitOk));
  }

  method WriteOperations(w: ByteWriter, o: Observation)
    modifies w
    ensures forall rest: Bytes :: w.buf + rest == old(w.buf) + PutOperations(o, rest)
  {
    hide PutU8;
    w.U8(Flag(o.memoryAllocOk));
    w.U8(Flag(o.h2dOk));
    w.U8(Flag(o.kernelExecOk));
    w.U8(Flag(o.syncOk));
    w.U8(Flag(o.d2hOk));
    w.U8(Flag(o.verifyOk));
  }

  method EncodeObservation(o: Observation) returns (data: Bytes)
    ensures data == PutObservation(o, [])
  {
    hide PutSource, PutReadings, PutCapabilities, PutProbe, PutOperations, PutIdentity;
    var w := new ByteWriter();
    WriteSource(w, o);
    WriteReadings(w, o);
    WriteCapabilities(w, o.capabilities);
    WriteProbe(w, o);
    WriteOperations(w, o);
    WriteIdentity(w, o.identity);
    data := w.buf;
    Whole(data, PutObservation(o, []));
  }

  // ---- Reading ----

  method ReadSource(r: ByteReader) returns (ok: bool, o: Observation)
    requires r.Valid()
    modifies r`pos
    ensures r.Took(GetSource(old(r.Rest())), ok, o)
  {
    hide GetU64, GetI64;
    o := NO_OBSERVATION;
    var deviceId, observationGeneration, healthGeneration, observedAt, workerBoot, worker, node, epoch, deviceGeneration;
    ok, deviceId := r.U64();
    if !ok { return; }
    ok, observationGeneration := r.U64();
    if !ok { return; }
    ok, healthGeneration := r.U64();
    if !ok { return; }
    ok, observedAt := r.I64();
    if !ok { return; }
    ok, workerBoot := r.U64();
    if !ok { return; }
    ok, worker := r.U64();
    if !ok { return; }
    ok, node := r.U64();
    if !ok { return; }
    ok, epoch := r.U64();
    if !ok { return; }
    ok, deviceGeneration := r.U64();
    if !ok { return; }
    o := o.(deviceId := deviceId, observationGeneration := observationGeneration, healthGeneration := healthGeneration,
            observedAt := observedAt, workerBoot := workerBoot, worker := worker, node := node, epoch := epoch,
            deviceGeneration := deviceGeneration);
  }

  method ReadReadings(r: ByteReader, o: Observation) returns (ok: bool, out: Observation)
    requires r.Valid()
    modifies r`pos
    ensures r.Took(GetReadings(o, old(r.Rest())), ok, out)
  {
    hide GetU8, GetU64, GetText, GetOptional;
    out := o;
    var b, t, u, x;
    ok, b := r.U8();
    if !ok { return; }
    out := out.(health := b as HealthState);
    ok, t := r.Text(4096);
    if !ok { return; }
    out := out.(healthExplanation := t);
    ok, u := r.U64();
    if !ok { return; }
    out := out.(totalMemory := u);
    ok, u := r.U64();
    if !ok { return; }
    out := out.(usedMemory := u);
    ok, u := r.U64();
    if !ok { return; }
    out := out.(freeMemory := u);
    ok, x := r.Optional();
    if !ok { return; }
    out := out.(temperature := x);
    ok, x := r.Optional();
    if !ok { return; }
    out := out.(power := x);
  }

  method ReadProbe(r: ByteReader, o: Observation) returns (ok: bool, out: Observation)
    requires r.Valid()
    modifies r`pos
    ensures r.Took(GetProbe(o, old(r.Rest())), ok, out)
  {
    hide GetU8, GetText;
    out := o;
    var b, t;
    ok, b := r.U8();
    if !ok { return; }
    out := out.(coreValidationOk := b != 0);
    ok, t := r.Text(4096);
    if !ok { return; }
    out := out.(validationDetail := t);
    ok, b := r.U8();
    if !ok { return; }
    out := out.(enumerated := b != 0);
    ok, b := r.U8();
    if !ok { return; }
    out := out.(present := b != 0);
    ok, b := r.U8();
    if !ok { return; }
    out := out.(driverRuntimeOk := b != 0);
    ok, b := r.U8();
    if !ok { return; }
    out := out.(cudaInitOk := b != 0);
  }

  method ReadOperations(r: ByteReader, o: Observation) returns (ok: bool, out: Observation)
    requires r.Valid()
    modifies r`pos
    ensures r.Took(GetOperations(o, old(r.Rest())), ok, out)
  {
    hide GetU8;
    out := o;
    var b;
    ok, b := r.U8();
    if !ok { return; }
    out := out.(memoryAllocOk := b != 0);
    ok, b := r.U8();
    if !ok { return; }
    out := out.(h2dOk := b != 0);
    ok, b := r.U8();
    if !ok { return; }
    out := out.(kernelExecOk := b != 0);
    ok, b := r.U8();
    if !ok { return; }
    out := out.(syncOk := b != 0);
    ok, b := r.U8();
    if !ok { return; }
    out := out.(d2hOk := b != 0);
    ok, b := r.U8();
    if !ok { return; }
    out := out.(verifyOk := b != 0);
  }

  method DecodeObservation(data: Bytes) returns (out: Result<Observation>)
    ensures out == Decoded(data)
  {
    hide GetSource, GetReadings, GetCapabilities, GetProbe, GetOperations, GetIdentity;
    var r := new ByteReader(data);
    var ok, o := ReadSource(r);
    if !ok { return Failure(Truncated); }
    ok, o := ReadReadings(r, o);
    if !ok { return Failure(Truncated); }
    var cs := ReadCapabilities(r);
    if cs.Failure? { return Failure(cs.status); }
    o := o.(capabilities := cs.value);
    ok, o := ReadProbe(r, o);
    if !ok { return Failure(Truncated); }
    ok, o := ReadOperations(r, o);
    if !ok { return Failure(Truncated); }
    var id;
    ok, id := ReadIdentity(r);
    if !ok { return Failure(Truncated); }
    o := o.(identity := id);
    var done := r.Done();
    out := if done then Success(o) else Failure(Malformed);
  }

  // ---- What comes back ----

  /** An observation as the wire keeps it: its texts cut to their limits. */
  function Clipped(o: Observation): Observation {
    o.(healthExplanation := Clip(o.healthExplanation, 4096), capabilities := ClipCapabilities(o.capabilities),
       validationDetail := Clip(o.validationDetail, 4096), identity := ClipIdentity(o.identity))
  }

  function SourceOf(o: Observation): Observation {
    NO_OBSERVATION.(
      deviceId := o.deviceId, observationGeneration := o.observationGeneration, healthGeneration := o.healthGeneration,
      observedAt := o.observedAt, workerBoot := o.workerBoot, worker := o.worker, node := o.node, epoch := o.epoch,
      deviceGeneration := o.deviceGeneration)
  }

  function WithReadings(p: Observation, o: Observation): Observation {
    p.(health := o.health, healthExplanation := Clip(o.healthExplanation, 4096), totalMemory := o.totalMemory,
       usedMemory := o.usedMemory, freeMemory := o.freeMemory, temperature := o.temperature, power := o.power)
  }

  function WithProbe(p: Observation, o: Observation): Observation {
    p.(coreValidationOk := o.coreValidationOk, validationDetail := Clip(o.validationDetail, 4096),
       enumerated := o.enumerated, present := o.present, driverRuntimeOk := o.driverRuntimeOk,
       cudaInitOk := o.cudaInitOk)
  }

  function WithOperations(p: Observation, o: Observation): Observation {
    p.(memoryAllocOk := o.memoryAllocOk, h2dOk := o.h2dOk, kernelExecOk := o.kernelExecOk, syncOk := o.syncOk,
       d2hOk := o.d2hOk, verifyOk := o.verifyOk)
  }

  lemma SourceBack(o: Observation, rest: Bytes)
    ensures GetSource(PutSource(o, rest)) == Got(SourceOf(o), rest)
  {
    hide GetU64, GetI64, PutU64, PutI64;
  }

  lemma ReadingsBack(p: Observation, o: Observation, rest: Bytes)
    ensures GetReadings(p, PutReadings(o, rest)) == Got(WithReadings(p, o), rest)
  {
    hide GetU8, GetU64, GetText, GetOptional, PutU8, PutU64, PutText, PutOptional, Clip;
  }

  lemma ProbeBack(p: Observation, o: Observation, rest: Bytes)
    ensures GetProbe(p, PutProbe(o, rest)) == Got(WithProbe(p, o), rest)
  {
    hide GetU8, GetText, PutU8, PutText, Clip;
  }

  lemma OperationsBack(p: Observation, o: Observation, rest: Bytes)
    ensures GetOperations(p, PutOperations(o, rest)) == Got(WithOperations(p, o), rest)
  {
    hide GetU8, PutU8;
  }

  lemma Reassembled(o: Observation)
    ensures var p := WithReadings(SourceOf(o), o).(capabilities := ClipCapabilities(o.capabilities));
            WithOperations(WithProbe(p, o), o).(identity := ClipIdentity(o.identity)) == Clipped(o)
  {
    hide Clip, ClipCapabilities, ClipIdentity;
  }

  lemma ObservationBack(o: Observation, rest: Bytes)
    ensures |o.capabilities| <= CAPABILITIES ==> GetObservation(PutObservation(o, rest)) == Got(Clipped(o), rest)
    ensures CAPABILITIES < |o.capabilities| < 0x1_0000_0000 ==> GetObservation(PutObservation(o, rest)) == Fail(OutOfBounds)
  {
    hide GetSource, GetReadings, GetCapabilities, GetProbe, GetOperations, GetIdentity;
    hide PutSource, PutReadings, PutCapabilities, PutProbe, PutOperations, PutIdentity;
    hide SourceOf, WithReadings, WithProbe, WithOperations, Clipped, ClipIdentity, ClipCapabilities;
    var e := PutIdentity(o.identity, rest);
    IdentityBack(o.identity, rest);
    var d := PutOperations(o, e);
    var p := WithReadings(SourceOf(o), o).(capabilities := ClipCapabilities(o.capabilities));
    OperationsBack(WithProbe(p, o), o, e);
    var c := PutProbe(o, d);
    ProbeBack(p, o, d);
    var b := PutCapabilities(o.capabilities, c);
    CapabilitiesBack(o.capabilities, c);
    var a := PutReadings(o, b);
    ReadingsBack(SourceOf(o), o, b);
    SourceBack(o, a);
    Reassembled(o);
  }

  /** An observation comes back clipped exactly when its capabilities are within the bound. */
  lemma ObservationRoundTrip(o: Observation)
    requires |o.capabilities| < 0x1_0000_0000
    ensures Decoded(PutObservation(o, []))
            == if |o.capabilities| <= 4096 then Success(Clipped(o)) else Failure(OutOfBounds)
  {
    hide GetObservation, PutObservation, Clipped;
    ObservationBack(o, []);
  }

  // ---- Longer inputs ----

  lemma SkipSource(s: Bytes, e: Bytes) returns (r: Bytes)
    requires GetSource(s).Got?
    ensures r == GetSource(s).rest && GetSource(s + e) == Got(GetSource(s).value, r + e)
  {
    hide GetU64, GetI64;
    r := SkipU64(s, e);
    r := SkipU64(r, e);
    r := SkipU64(r, e);
    r := SkipI64(r, e);
    r := SkipU64(r, e);
    r := SkipU64(r, e);
    r := SkipU64(r, e);
    r := SkipU64(r, e);
    r := SkipU64(r, e);
  }

  lemma SkipReadings(o: Observation, s: Bytes, e: Bytes) returns (r: Bytes)
    requires GetReadings(o, s).Got?
    ensures r == GetReadings(o, s).rest && GetReadings(o, s + e) == Got(GetReadings(o, s).value, r + e)
  {
    hide GetU8, GetU64, GetText, GetOptional;
    r := SkipU8(s, e);
    r := SkipText(r, 4096, e);
    r := SkipU64(r, e);
    r := SkipU64(r, e);
    r := SkipU64(r, e);
    r := SkipOptional(r, e);
    r := SkipOptional(r, e);
  }

  lemma SkipProbe(o: Observation, s: Bytes, e: Bytes) returns (r: Bytes)
    requires GetProbe(o, s).Got?
    ensures r == GetProbe(o, s).rest && GetProbe(o, s + e) == Got(GetProbe(o, s).value, r + e)
  {
    hide GetU8, GetText;
    r := SkipU8(s, e);
    r := SkipText(r, 4096, e);
    r := SkipU8(r, e);
    r := SkipU8(r, e);
    r := SkipU8(r, e);
    r := SkipU8(r, e);
  }

  lemma SkipOperations(o: Observation, s: Bytes, e: Bytes) returns (r: Bytes)
    requires GetOperations(o, s).Got?
    ensures r == GetOperations(o, s).rest && GetOperations(o, s + e) == Got(GetOperations(o, s).value, r + e)
  {
    hide GetU8;
    r := SkipU8(s, e);
    r := SkipU8(r, e);
    r := SkipU8(r, e);
    r := SkipU8(r, e);
    r := SkipU8(r, e);
    r := SkipU8(r, e);
  }

  lemma ObservationExtends()
    ensures Extends(GetObservation)
  {
    forall s: Bytes, e: Bytes | GetObservation(s).Got? ensures GetObservation(s + e) == GetObservation(s).Before(e) {
      hide GetSource, GetReadings, GetCapabilities, GetProbe, GetOperations, GetIdentity;
      var r := SkipSource(s, e);
      var o := GetSource(s).value;
      var p := GetReadings(o, r).value;
      r := SkipReadings(o, r, e);
      p := p.(capabilities := GetCapabilities(r).value);
      r := SkipCapabilities(r, e);
      var q := GetProbe(p, r).value;
      r := SkipProbe(p, r, e);
      r := SkipOperations(q, r, e);
      r := SkipIdentity(r, e);
    }
  }

  // ---- How long an observation can be ----

  lemma ProbeLength(o: Observation, rest: Bytes)
    ensures |PutProbe(o, rest)| <= 4105 + |rest|
  {
    hide PutU8, PutText;
    var r := PutU8(Flag(o.cudaInitOk), rest);
    IntegerLength(Flag(o.cudaInitOk), rest);
    IntegerLength(Flag(o.driverRuntimeOk), r);
    r := PutU8(Flag(o.driverRuntimeOk), r);
    IntegerLength(Flag(o.present), r);
    r := PutU8(Flag(o.present), r);
    IntegerLength(Flag(o.enumerated), r);
    r := PutU8(Flag(o.enumerated), r);
    TextLength(o.validationDetail, 4096, r);
    IntegerLength(Flag(o.coreValidationOk), PutText(o.validationDetail, 4096, r));
  }

  lemma OperationsLength(o: Observation, rest: Bytes)
    ensures |PutOperations(o, rest)| == 6 + |rest|
  {
    hide PutU8;
    var r := PutU8(Flag(o.verifyOk), rest);
    IntegerLength(Flag(o.verifyOk), rest);
    IntegerLength(Flag(o.d2hOk), r);
    r := PutU8(Flag(o.d2hOk), r);
    IntegerLength(Flag(o.syncOk), r);
    r := PutU8(Flag(o.syncOk), r);
    IntegerLength(Flag(o.kernelExecOk), r);
    r := PutU8(Flag(o.kernelExecOk), r);
    IntegerLength(Flag(o.h2dOk), r);
    r := PutU8(Flag(o.h2dOk), r);
    IntegerLength(Flag(o.memoryAllocOk), r);
  }

  lemma ReadingsLength(o: Observation, rest: Bytes)
    ensures |rest| <= |PutReadings(o, rest)| <= 4200 + |rest|
  {
    hide PutU8, PutU64, PutText, PutOptional;
    var r := PutOptional(o.power, rest);
    OptionalLength(o.power, rest);
    OptionalLength(o.temperature, r);
    r := PutOptional(o.temperature, r);
    IntegerLength(o.freeMemory, r);
    r := PutU64(o.freeMemory, r);
    IntegerLength(o.usedMemory, r);
    r := PutU64(o.usedMemory, r);
    IntegerLength(o.totalMemory, r);
    r := PutU64(o.totalMemory, r);
    TextLength(o.healthExplanation, 4096, r);
    IntegerLength(o.health as int, PutText(o.healthExplanation, 4096, r));
  }

  lemma SourceLength(o: Observation, rest: Bytes)
    ensures |PutSource(o, rest)| == 72 + |rest|
  {
    hide PutU64, PutI64;
    var r := PutU64(o.deviceGeneration, rest);
    IntegerLength(o.deviceGeneration, rest);
    IntegerLength(o.epoch, r);
    r := PutU64(o.epoch, r);
    IntegerLength(o.node, r);
    r := PutU64(o.node, r);
    IntegerLength(o.worker, r);
    r := PutU64(o.worker, r);
    IntegerLength(o.workerBoot, r);
    r := PutU64(o.workerBoot, r);
    IntegerLength(o.observedAt, r);
    r := PutI64(o.observedAt, r);
    IntegerLength(o.healthGeneration, r);
    r := PutU64(o.healthGeneration, r);
    IntegerLength(o.observationGeneration, r);
    r := PutU64(o.observationGeneration, r);
    IntegerLength(o.deviceId, r);
  }

  /** No observation within the capability bound ever meets the bound on its encoding. */
  lemma ObservationFits(o: Observation)
    requires |o.capabilities| <= CAPABILITIES
    ensures |PutObservation(o, [])| < MAX_BLOB_SIZE
  {
    hide PutSource, PutReadings, PutCapabilities, PutProbe, PutOperations, PutIdentity;
    var e := PutIdentity(o.identity, []);
    IdentityLength(o.identity, []);
    var d := PutOperations(o, e);
    OperationsLength(o, e);
    var c := PutProbe(o, d);
    ProbeLength(o, d);
    var b := PutCapabilities(o.capabilities, c);
    CapabilitiesLength(o.capabilities, c);
    CapabilitiesBound(o.capabilities);
    ReadingsLength(o, b);
    SourceLength(o, PutReadings(o, b));
  }

  // ---- Batches ----

  function PutNested(o: Observation, rest: Bytes): Bytes { PutBlob(PutObservation(o, []), rest) }

  function GetNested(s: Bytes): Parsed<Observation> {
    var (blob, s) :- GetBytes(s, MAX_BLOB_SIZE);
    match Decoded(blob)
    case Failure(_) => Fail(Malformed)
    case Success(o) => Got(o, s)
  }

  function PutBatch(obs: seq<Observation>, rest: Bytes): Bytes { PutCounted(obs, PutNested, rest) }

  function GetBatch(s: Bytes): Parsed<seq<Observation>> { GetCounted(BATCH, OutOfBounds, GetNested, s) }

  function DecodedBatch(data: Bytes): Result<seq<Observation>> { Entire(GetBatch(data)) }

  method EncodeBatch(obs: seq<Observation>) returns (data: Bytes)
    ensures data == PutBatch(obs, [])
  {
    hide PutU32, PutObservation;
    var w := new ByteWriter();
    w.U32(|obs| % 0x1_0000_0000);
    ghost var head := w.buf;
    for i := 0 to |obs|
      invariant forall rest: Bytes :: w.buf + PutAll(obs[i..], PutNested, rest) == head + PutAll(obs, PutNested, rest)
    {
      assert obs[i..][1..] == obs[i + 1..];
      var blob := EncodeObservation(obs[i]);
      w.Blob(blob);
    }
    assert obs[|obs|..] == [];
    data := w.buf;
    Whole(data, PutBatch(obs, []));
  }

  method ReadNested(r: ByteReader) returns (o: Result<Observation>)
    requires r.Valid()
    modifies r`pos
    ensures r.Valid()
    ensures match GetNested(old(r.Rest()))
            case Fail(why) => o == Failure(why)
            case Got(v, s) => o == Success(v) && r.Rest() == s
  {
    hide GetU32, Decoded;
    TruncatedCount();
    var ok, len := r.U32();
    if !ok {
      return Failure(Truncated);
    }
    if len > MAX_BLOB_SIZE {
      return Failure(OutOfBounds);
    }
    var blob;
    ok, blob := r.Raw(len);
    if !ok {
      return Failure(Truncated);
    }
    o := DecodeObservation(blob);
    if o.Failure? {
      return Failure(Malformed);
    }
  }

  method DecodeBatch(data: Bytes) returns (out: Result<seq<Observation>>)
    ensures out == DecodedBatch(data)
  {
    hide GetU32, GetNested, GetAll, Onto;
    TruncatedCount();
    var r := new ByteReader(data);
    var ok, count := r.U32();
    if !ok {
      return Failure(Truncated);
    }
    if count > BATCH {
      return Failure(OutOfBounds);
    }
    ghost var all := GetAll(count, GetNested, r.Rest());
    var obs: seq<Observation> := [];
    OntoNothing(all);
    for i := 0 to count
      invariant r.Valid() && all == Onto(obs, GetAll(count - i, GetNested, r.Rest()))
    {
      ReadOn(obs, count - i, GetNested, r.Rest());
      var o := ReadNested(r);
      if o.Failure? {
        return Failure(o.status);
      }
      obs := obs + [o.value];
    }
    ReadThrough(obs, GetNested, r.Rest());
    var done := r.Done();
    out := if done then Success(obs) else Failure(Malformed);
  }

  /** An encoding is longer than its capability list. */
  lemma ObservationCounts(o: Observation)
    ensures |o.capabilities| <= |PutObservation(o, [])|
  {
    hide PutSource, PutReadings, PutCapabilities, PutProbe, PutOperations, PutIdentity, TotalSize;
    var c := PutProbe(o, PutOperations(o, PutIdentity(o.identity, [])));
    var b := PutCapabilities(o.capabilities, c);
    CapabilitiesLength(o.capabilities, c);
    CapabilitiesCounted(o.capabilities);
    ReadingsLength(o, b);
    SourceLength(o, PutReadings(o, b));
  }

  function NestedSize(o: Observation): nat { 4 + |PutObservation(o, [])| }

  lemma NestedLength(o: Observation, rest: Bytes)
    ensures |PutNested(o, rest)| == NestedSize(o) + |rest|
  {
    hide PutObservation, PutU32;
    var blob := PutObservation(o, []);
    IntegerLength(|blob| % 0x1_0000_0000, blob + rest);
  }

  lemma {:induction false} NestedTotal(obs: seq<Observation>)
    ensures |obs| <= TotalSize(obs, NestedSize) && forall o :: o in obs ==> |o.capabilities| <= TotalSize(obs, NestedSize)
  {
    hide PutObservation;
    if obs != [] {
      NestedTotal(obs[1..]);
      ObservationCounts(obs[0]);
    }
  }

  /** An encoded batch is longer than any list in it. */
  lemma BatchCounts(obs: seq<Observation>)
    ensures |obs| <= |PutBatch(obs, [])| && forall o :: o in obs ==> |o.capabilities| <= |PutBatch(obs, [])|
  {
    hide PutNested, NestedSize, PutCounted, TotalSize;
    forall o, r: Bytes ensures |PutNested(o, r)| == NestedSize(o) + |r| {
      NestedLength(o, r);
    }
    CountedLength(obs, PutNested, NestedSize, []);
    NestedTotal(obs);
  }

  predicate WithinCapabilities(o: Observation) { |o.capabilities| <= 4096 }

  /** A nested observation comes back clipped, or is refused, whatever follows it. */
  lemma NestedBack(o: Observation, rest: Bytes)
    requires |o.capabilities| < 0x1_0000_0000
    ensures WithinCapabilities(o) ==> GetNested(PutNested(o, rest)) == Got(Clipped(o), rest)
    ensures !WithinCapabilities(o) ==> GetNested(PutNested(o, rest)).Fail?
  {
    hide PutObservation, GetObservation, Clipped, GetU32, PutU32;
    var blob := PutObservation(o, []);
    ObservationRoundTrip(o);
    if WithinCapabilities(o) {
      ObservationFits(o);
      assert (blob + rest)[..|blob|] == blob && (blob + rest)[|blob|..] == rest;
    } else {
      var n := |blob| % 0x1_0000_0000;
      assert GetU32(PutNested(o, rest)) == Got(n, blob + rest);
      assert (blob + rest)[..n] == blob[..n];
      PartRefused(o, n);
    }
  }

  /** No part of an encoding that is refused is accepted. */
  lemma PartRefused(o: Observation, n: nat)
    requires CAPABILITIES < |o.capabilities| < 0x1_0000_0000 && n <= |PutObservation(o, [])|
    ensures Decoded(PutObservation(o, [])[..n]).Failure?
  {
    hide PutObservation, GetObservation, Extends;
    var blob := PutObservation(o, []);
    ObservationBack(o, []);
    ObservationExtends();
    assert blob == blob[..n] + blob[n..];
    if GetObservation(blob[..n]).Got? {
      LongerLeavesMore(GetObservation, blob[..n], blob[n..]);
    }
  }

  lemma NestedAllBack(obs: seq<Observation>)
    requires forall o :: o in obs ==> |o.capabilities| < 0x1_0000_0000
    ensures forall o, r :: o in obs && WithinCapabilities(o) ==> GetNested(PutNested(o, r)) == Got(Clipped(o), r)
    ensures forall o, r :: o in obs && !WithinCapabilities(o) ==> GetNested(PutNested(o, r)).Fail?
  {
    hide GetNested, PutNested, Clipped, WithinCapabilities;
    forall o, r: Bytes | o in obs
      ensures WithinCapabilities(o) ==> GetNested(PutNested(o, r)) == Got(Clipped(o), r)
      ensures !WithinCapabilities(o) ==> GetNested(PutNested(o, r)).Fail?
    {
      NestedBack(o, r);
    }
  }

  /** A batch comes back clipped exactly when it and each of its capability lists are within the count bounds. */
  lemma BatchRoundTrip(obs: seq<Observation>)
    requires |obs| < 0x1_0000_0000 && forall o :: o in obs ==> |o.capabilities| < 0x1_0000_0000
    ensures var inBounds := |obs| <= 4096 && forall o :: o in obs ==> |o.capabilities| <= 4096;
            && (inBounds ==> DecodedBatch(PutBatch(obs, [])) == Success(MapSeq(Clipped, obs)))
            && (!inBounds ==> DecodedBatch(PutBatch(obs, [])).Failure?)
  {
    hide PutNested, GetNested, Clipped, PutU32, GetU32;
    NestedAllBack(obs);
    GetPutCountedExact(obs, PutNested, BATCH, OutOfBounds, GetNested, Clipped, WithinCapabilities, []);
  }

  lemma BatchExtends()
    ensures Extends(GetBatch)
  {
    hide GetNested;
    assert Extends(GetNested) by {
      forall s: Bytes, e: Bytes | GetNested(s).Got? ensures GetNested(s + e) == GetNested(s).Before(e) {
        NestedExtends(s, e);
      }
    }
    forall s: Bytes, e: Bytes | GetBatch(s).Got? ensures GetBatch(s + e) == GetBatch(s).Before(e) {
      hide GetCounted, Extends;
      var r := SkipCounted(BATCH, OutOfBounds, GetNested, s, e);
    }
  }

  lemma NestedExtends(s: Bytes, e: Bytes)
    requires GetNested(s).Got?
    ensures GetNested(s + e) == GetNested(s).Before(e)
  {
    hide GetBytes, Decoded;
    var r := SkipBytes(s, MAX_BLOB_SIZE, e);
  }

  /** No encoded batch is accepted with anything cut off its end or added to it. */
  lemma BatchPrefixFree(obs: seq<Observation>, data: Bytes)
    requires |obs| <= BATCH && forall o :: o in obs ==> |o.capabilities| <= CAPABILITIES
    requires data != PutBatch(obs, []) && (data <= PutBatch(obs, []) || PutBatch(obs, []) <= data)
    ensures DecodedBatch(data).Failure?
  {
    BatchRoundTrip(obs);
    BatchExtends();
    hide PutBatch, GetBatch, Extends;
    NeitherShorterNorLonger(GetBatch, PutBatch(obs, []), data);
  }

  // ---- What a decoder can yield ----

  lemma ObservationStorable(s: Bytes)
    requires GetObservation(s).Got?
    ensures Storable(GetObservation(s).value.identity) && WithinCapabilities(GetObservation(s).value)
  {
    hide GetSource, GetReadings, GetCapabilities, GetProbe, GetOperations, GetIdentity, Storable;
    var p := GetSource(s);
    var q := GetReadings(p.value, p.rest);
    var cs := GetCapabilities(q.rest);
    var r := GetProbe(q.value.(capabilities := cs.value), cs.rest);
    var u := GetOperations(r.value, r.rest);
    IdentityStorable(u.rest);
    CapabilitiesWithin(q.rest);
    KeepsCapabilities(q.value.(capabilities := cs.value), cs.rest);
    KeepsCapabilities(r.value, r.rest);
  }

  lemma CapabilitiesWithin(s: Bytes)
    requires GetCapabilities(s).Got?
    ensures |GetCapabilities(s).value| <= CAPABILITIES
  {
    hide GetU32, GetAll;
  }

  lemma KeepsCapabilities(o: Observation, s: Bytes)
    ensures GetProbe(o, s).Got? ==> GetProbe(o, s).value.capabilities == o.capabilities
    ensures GetOperations(o, s).Got? ==> GetOperations(o, s).value.capabilities == o.capabilities
  {
    hide GetU8, GetText;
  }

  lemma {:induction false} NestedStorable(n: nat, s: Bytes)
    requires GetAll(n, GetNested, s).Got?
    ensures forall o :: o in GetAll(n, GetNested, s).value ==> Storable(o.identity) && WithinCapabilities(o)
    decreases n
  {
    hide GetObservation, Storable, GetBytes;
    if n > 0 {
      var blob := GetBytes(s, MAX_BLOB_SIZE).value;
      ObservationStorable(blob);
      NestedStorable(n - 1, GetNested(s).rest);
    }
  }

  /** Whatever bytes a batch is decoded from, the identities in it are within the limits, and so are its lists. */
  lemma BatchStorable(data: Bytes)
    requires DecodedBatch(data).Success?
    ensures forall o :: o in DecodedBatch(data).value ==> Storable(o.identity) && WithinCapabilities(o)
  {
    hide GetNested, Storable, GetAll, GetU32, WithinCapabilities;
    NestedStorable(GetU32(data).value, GetU32(data).rest);
  }
}
