/** The encoding of a worker's registration. */
module RegistrationCodec {
  import opened Basics
  import opened Codec
  import opened ByteStream
  import opened Records
  import opened Fleet

  const LISTED: u32 := 4096

  function PutRegistration(g: Registration, rest: Bytes): Bytes {
    PutU64(g.node, PutU64(g.worker, PutU64(g.boot,
      PutU32(g.agentVersion.major, PutU32(g.agentVersion.minor, PutU32(g.agentVersion.patch, PutU32(g.protocolVersion,
        PutText(g.osPlatform, 128, PutText(g.driverVersion, 128, PutU32(g.runtimeMajor, PutU32(g.runtimeMinor,
          PutTexts(g.devices, 256, PutTexts(g.capabilities, 128,
            PutU64(g.registrationGeneration, PutU64(g.epoch, rest)))))))))))))))
  }

  function GetRegistration(s: Bytes): Parsed<Registration> {
    var (node, s) :- GetU64(s);
    var (worker, s) :- GetU64(s);
    var (boot, s) :- GetU64(s);
    var (major, s) :- GetU32(s);
    var (minor, s) :- GetU32(s);
    var (patch, s) :- GetU32(s);
    var (protocol, s) :- GetU32(s);
    var (os, s) :- GetText(s, 128);
    var (driver, s) :- GetText(s, 128);
    var (runtimeMajor, s) :- GetU32(s);
    var (runtimeMinor, s) :- GetU32(s);
    var (devices, s) :- GetTexts(LISTED, 256, s);
    var (capabilities, s) :- GetTexts(LISTED, 128, s);
    var (generation, s) :- GetU64(s);
    var (epoch, s) :- GetU64(s);
    Got(Registration(node, worker, boot, Version(major, minor, patch), protocol, os, driver, runtimeMajor, runtimeMinor,
                     devices, capabilities, generation, epoch), s)
  }

  function Decoded(data: Bytes): Result<Registration> { Entire(GetRegistration(data)) }

  method EncodeRegistration(g: Registration) returns (data: Bytes)
    ensures data == PutRegistration(g, [])
  {
    hide PutU64, PutU32, PutText, PutTexts;
    var w := new ByteWriter();
    w.U64(g.node);
    w.U64(g.worker);
    w.U64(g.boot);
    w.U32(g.agentVersion.major);
    w.U32(g.agentVersion.minor);
    w.U32(g.agentVersion.patch);
    w.U32(g.protocolVersion);
    w.Text(g.osPlatform, 128);
    w.Text(g.driverVersion, 128);
    w.U32(g.runtimeMajor);
    w.U32(g.runtimeMinor);
    WriteTexts(w, g.devices, 256);
    WriteTexts(w, g.capabilities, 128);
    w.U64(g.registrationGeneration);
    w.U64(g.epoch);
    data := w.buf;
    Whole(data, PutRegistration(g, []));
  }

  method DecodeRegistration(data: Bytes) returns (out: Result<Registration>)
    ensures out == Decoded(data)
  {
    hide GetU64, GetU32, GetBytes, GetTexts;
    TruncatedCount();
    var r := new ByteReader(data);
    var g := Registration(0, 0, 0, Version(0, 0, 0), 0, [], [], 0, 0, [], [], 0, 0);
    var ok, u, w, t;
    ok, u := r.U64();
    if !ok { return Failure(Truncated); }
    g := g.(node := u);
    ok, u := r.U64();
    if !ok { return Failure(Truncated); }
    g := g.(worker := u);
    ok, u := r.U64();
    if !ok { return Failure(Truncated); }
    g := g.(boot := u);
    ok, w := r.U32();
    if !ok { return Failure(Truncated); }
    g := g.(agentVersion := g.agentVersion.(major := w));
    ok, w := r.U32();
    if !ok { return Failure(Truncated); }
    g := g.(agentVersion := g.agentVersion.(minor := w));
    ok, w := r.U32();
    if !ok { return Failure(Truncated); }
    g := g.(agentVersion := g.agentVersion.(patch := w));
    ok, w := r.U32();
    if !ok { return Failure(Truncated); }
    g := g.(protocolVersion := w);
    ok, t := r.Text(128);
    if !ok { return Failure(Truncated); }
    g := g.(osPlatform := t);
    ok, t := r.Text(128);
    if !ok { return Failure(Truncated); }
    g := g.(driverVersion := t);
    ok, w := r.U32();
    if !ok { return Failure(Truncated); }
    g := g.(runtimeMajor := w);
    ok, w := r.U32();
    if !ok { return Failure(Truncated); }
    g := g.(runtimeMinor := w);
    var devices := ReadTexts(r, LISTED, 256);
    if devices.Failure? { return Failure(devices.status); }
    g := g.(devices := devices.value);
    var capabilities := ReadTexts(r, LISTED, 128);
    if capabilities.Failure? { return Failure(capabilities.status); }
    g := g.(capabilities := capabilities.value);
    ok, u := r.U64();
    if !ok { return Failure(Truncated); }
    g := g.(registrationGeneration := u);
    ok, u := r.U64();
    if !ok { return Failure(Truncated); }
    g := g.(epoch := u);
    var done := r.Done();
    out := if done then Success(g) else Failure(Malformed);
  }

  /** A registration as the wire keeps it: its texts cut to their limits. */
  function Clipped(g: Registration): Registration {
    g.(osPlatform := Clip(g.osPlatform, 128), driverVersion := Clip(g.driverVersion, 128),
       devices := ClipTexts(g.devices, 256), capabilities := ClipTexts(g.capabilities, 128))
  }

  /** Within the count bounds a registration comes back clipped; beyond them it is refused. Counts are 32 bits wide. */
  lemma RegistrationRoundTrip(g: Registration)
    requires |g.devices| < 0x1_0000_0000 && |g.capabilities| < 0x1_0000_0000
    ensures Decoded(PutRegistration(g, []))
            == if |g.devices| <= 4096 && |g.capabilities| <= 4096 then Success(Clipped(g)) else Failure(OutOfBounds)
  {
    hide GetU64, GetU32, GetText, GetTexts, PutU64, PutU32, PutText, PutTexts, Clip, ClipTexts;
    var tail := PutU64(g.registrationGeneration, PutU64(g.epoch, []));
    TextsBack(g.capabilities, LISTED, 128, tail);
    TextsBack(g.devices, LISTED, 256, PutTexts(g.capabilities, 128, tail));
  }

  lemma RegistrationExtends()
    ensures Extends(GetRegistration)
  {
    forall s: Bytes, e: Bytes | GetRegistration(s).Got? ensures GetRegistration(s + e) == GetRegistration(s).Before(e) {
      hide GetU64, GetU32, GetText, GetTexts;
      var r := SkipU64(s, e);
      r := SkipU64(r, e);
      r := SkipU64(r, e);
      r := SkipU32(r, e);
      r := SkipU32(r, e);
      r := SkipU32(r, e);
      r := SkipU32(r, e);
      r := SkipText(r, 128, e);
      r := SkipText(r, 128, e);
      r := SkipU32(r, e);
      r := SkipU32(r, e);
      r := SkipTexts(LISTED, 256, r, e);
      r := SkipTexts(LISTED, 128, r, e);
      r := SkipU64(r, e);
      r := SkipU64(r, e);
    }
  }

  /** No encoded registration is accepted with anything cut off its end or added to it. */
  lemma RegistrationPrefixFree(g: Registration, data: Bytes)
    requires |g.devices| <= LISTED && |g.capabilities| <= LISTED
    requires data != PutRegistration(g, []) && (data <= PutRegistration(g, []) || PutRegistration(g, []) <= data)
    ensures Decoded(data).Failure?
  {
    RegistrationRoundTrip(g);
    RegistrationExtends();
    hide PutRegistration, GetRegistration, Extends;
    NeitherShorterNorLonger(GetRegistration, PutRegistration(g, []), data);
  }

  /** Whatever bytes a registration is decoded from, its lists are within their bounds. */
  lemma DecodedLists(data: Bytes)
    requires Decoded(data).Success?
    ensures |Decoded(data).value.devices| <= LISTED && |Decoded(data).value.capabilities| <= LISTED
  {
    hide GetU64, GetU32, GetText, GetAll;
  }
}
