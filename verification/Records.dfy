/** Encodings shared by several messages: lists of strings, capabilities, device identities. */
module Records {
  import opened Basics
  import opened Codec
  import opened ByteStream
  import opened Identity
  import opened Device

  /** A parse that continues a list already read. */
  ghost function Onto<T>(xs: seq<T>, p: Parsed<seq<T>>): Parsed<seq<T>> {
    match p
    case Fail(why) => Fail(why)
    case Got(ys, rest) => Got(xs + ys, rest)
  }

  lemma OntoNothing<T>(p: Parsed<seq<T>>)
    ensures Onto([], p) == p
  {
    if p.Got? {
      assert [] + p.value == p.value;
    }
  }

  /** One element further into a list. */
  lemma ReadOn<T>(out: seq<T>, n: nat, get: Bytes -> Parsed<T>, s: Bytes)
    requires n > 0
    ensures get(s).Fail? ==> Onto(out, GetAll(n, get, s)) == Fail(get(s).why)
    ensures get(s).Got? ==> Onto(out, GetAll(n, get, s)) == Onto(out + [get(s).value], GetAll(n - 1, get, get(s).rest))
  {
    if get(s).Got? {
      var p := GetAll(n - 1, get, get(s).rest);
      if p.Got? {
        assert out + ([get(s).value] + p.value) == (out + [get(s).value]) + p.value;
      }
    }
  }

  lemma ReadThrough<T>(out: seq<T>, get: Bytes -> Parsed<T>, s: Bytes)
    ensures Onto(out, GetAll(0, get, s)) == Got(out, s)
  {
    assert out + [] == out;
  }

  // ---- Lists of strings ----

  function TextPut(max: u32): (Text, Bytes) -> Bytes { (t, r) => PutText(t, max, r) }

  function TextGet(max: u32): Bytes -> Parsed<Text> { s => GetText(s, max) }

  function TextClip(max: u32): Text -> Text { t => Clip(t, max) }

  function PutTexts(ts: seq<Text>, max: u32, rest: Bytes): Bytes { PutCounted(ts, TextPut(max), rest) }

  function GetTexts(limit: u32, max: u32, s: Bytes): Parsed<seq<Text>> { GetCounted(limit, OutOfBounds, TextGet(max), s) }

  function ClipTexts(ts: seq<Text>, max: u32): seq<Text> { MapSeq(TextClip(max), ts) }

  method WriteTexts(w: ByteWriter, ts: seq<Text>, max: u32)
    modifies w
    ensures forall rest: Bytes :: w.buf + rest == old(w.buf) + PutTexts(ts, max, rest)
  {
    hide PutU32, PutText;
    w.U32(|ts| % 0x1_0000_0000);
    ghost var head := w.buf;
    for i := 0 to |ts|
      invariant forall rest: Bytes :: w.buf + PutAll(ts[i..], TextPut(max), rest) == head + PutAll(ts, TextPut(max), rest)
    {
      assert ts[i..][1..] == ts[i + 1..];
      w.Text(ts[i], max);
    }
    assert ts[|ts|..] == [];
  }

  method ReadTexts(r: ByteReader, limit: u32, max: u32) returns (ts: Result<seq<Text>>)
    requires r.Valid()
    modifies r`pos
    ensures r.Valid()
    ensures match GetTexts(limit, max, old(r.Rest()))
            case Fail(why) => ts == Failure(why)
            case Got(v, s) => ts == Success(v) && r.Rest() == s
  {
    hide GetU32, GetText, GetAll, Onto;
    TruncatedCount();
    var ok, n := r.U32();
    if !ok {
      return Failure(Truncated);
    }
    if n > limit {
      return Failure(OutOfBounds);
    }
    ghost var all := GetAll(n, TextGet(max), r.Rest());
    var out: seq<Text> := [];
    OntoNothing(all);
    for i := 0 to n
      invariant r.Valid() && all == Onto(out, GetAll(n - i, TextGet(max), r.Rest()))
    {
      ReadOn(out, n - i, TextGet(max), r.Rest());
      var t;
      ok, t := r.Text(max);
      if !ok {
        return Failure(Truncated);
      }
      out := out + [t];
    }
    ReadThrough(out, TextGet(max), r.Rest());
    ts := Success(out);
  }

  /** Reading a number or a flag fails only for want of bytes. */
  lemma TruncatedCount()
    ensures forall s :: GetU64(s).Fail? ==> GetU64(s).why == Truncated
    ensures forall s :: GetU32(s).Fail? ==> GetU32(s).why == Truncated
    ensures forall s :: GetU16(s).Fail? ==> GetU16(s).why == Truncated
    ensures forall s :: GetU8(s).Fail? ==> GetU8(s).why == Truncated
    ensures forall s :: GetI64(s).Fail? ==> GetI64(s).why == Truncated
    ensures forall s :: GetOptional(s).Fail? ==> GetOptional(s).why == Truncated
    ensures forall s, max :: GetText(s, max).Fail? ==> GetText(s, max).why == Truncated
  {
  }

  /** A list within the limit comes back with every string clipped; one beyond it is refused. */
  lemma TextsBack(ts: seq<Text>, limit: u32, max: u32, rest: Bytes)
    ensures |ts| <= limit ==> GetTexts(limit, max, PutTexts(ts, max, rest)) == Got(ClipTexts(ts, max), rest)
    ensures limit < |ts| < 0x1_0000_0000 ==> GetTexts(limit, max, PutTexts(ts, max, rest)) == Fail(OutOfBounds)
  {
    hide PutText, GetText, PutU32, GetU32;
    if |ts| <= limit {
      TextBack(max);
      GetPutCounted(ts, TextPut(max), limit, OutOfBounds, TextGet(max), TextClip(max), rest);
    }
  }

  lemma TextBack(max: u32)
    ensures forall t, r :: TextGet(max)(TextPut(max)(t, r)) == Got(TextClip(max)(t), r)
  {
  }

  lemma TextExtends(max: u32)
    ensures Extends(TextGet(max))
  {
    forall s, e | TextGet(max)(s).Got? ensures TextGet(max)(s + e) == TextGet(max)(s).Before(e) {
      var r := SkipText(s, max, e);
    }
  }

  lemma SkipTexts(limit: u32, max: u32, s: Bytes, e: Bytes) returns (r: Bytes)
    requires GetTexts(limit, max, s).Got?
    ensures r == GetTexts(limit, max, s).rest && GetTexts(limit, max, s + e) == Got(GetTexts(limit, max, s).value, r + e)
  {
    TextExtends(max);
    hide Extends;
    r := SkipCounted(limit, OutOfBounds, TextGet(max), s, e);
  }

  lemma ClippedText(t: Text, max: u32)
    ensures Clip(Clip(t, max), max) == Clip(t, max)
  {
  }

  function TextSize(max: u32): Text -> nat { t => 4 + |Clip(t, max)| }

  lemma TextsLength(ts: seq<Text>, max: u32, rest: Bytes)
    ensures |PutTexts(ts, max, rest)| == 4 + TotalSize(ts, TextSize(max)) + |rest|
  {
    hide PutText, Clip, PutCounted;
    forall t, r ensures |TextPut(max)(t, r)| == TextSize(max)(t) + |r| {
      TextLength(t, max, r);
    }
    CountedLength(ts, TextPut(max), TextSize(max), rest);
  }

  /** Clipping again changes nothing. */
  lemma ClippedTexts(ts: seq<Text>, max: u32)
    ensures ClipTexts(ClipTexts(ts, max), max) == ClipTexts(ts, max)
  {
  }

  // ---- Capabilities ----

  const CAPABILITIES: u32 := 4096

  function PutCapability(c: Capability, rest: Bytes): (r: Bytes)
    ensures GetCapability(r) == Got(ClipCapability(c), rest)
  {
    PutU64(c.id, PutText(c.name, 128, PutU8(c.kind as u8, PutText(c.value, 256, PutText(c.description, 256, rest)))))
  }

  function GetCapability(s: Bytes): Parsed<Capability> {
    var (id, s) :- GetU64(s);
    var (name, s) :- GetText(s, 128);
    var (kind, s) :- GetU8(s);
    var (value, s) :- GetText(s, 256);
    var (description, s) :- GetText(s, 256);
    Got(Capability(id, name, kind as CapabilityKind, value, description), s)
  }

  function ClipCapability(c: Capability): Capability {
    Capability(c.id, Clip(c.name, 128), c.kind, Clip(c.value, 256), Clip(c.description, 256))
  }

  function PutCapabilities(cs: seq<Capability>, rest: Bytes): Bytes { PutCounted(cs, PutCapability, rest) }

  function GetCapabilities(s: Bytes): Parsed<seq<Capability>> { GetCounted(CAPABILITIES, OutOfBounds, GetCapability, s) }

  function ClipCapabilities(cs: seq<Capability>): seq<Capability> { MapSeq(ClipCapability, cs) }

  method WriteCapability(w: ByteWriter, c: Capability)
    modifies w
    ensures forall rest: Bytes :: w.buf + rest == old(w.buf) + PutCapability(c, rest)
  {
    hide PutU64, PutText, PutU8;
    w.U64(c.id);
    w.Text(c.name, 128);
    w.U8(c.kind as u8);
    w.Text(c.value, 256);
    w.Text(c.description, 256);
  }

  method WriteCapabilities(w: ByteWriter, cs: seq<Capability>)
    modifies w
    ensures forall rest: Bytes :: w.buf + rest == old(w.buf) + PutCapabilities(cs, rest)
  {
    hide PutU32, PutCapability;
    w.U32(|cs| % 0x1_0000_0000);
    ghost var head := w.buf;
    for i := 0 to |cs|
      invariant forall rest: Bytes :: w.buf + PutAll(cs[i..], PutCapability, rest) == head + PutAll(cs, PutCapability, rest)
    {
      assert cs[i..][1..] == cs[i + 1..];
      WriteCapability(w, cs[i]);
    }
    assert cs[|cs|..] == [];
  }

  method ReadCapability(r: ByteReader) returns (ok: bool, c: Capability)
    requires r.Valid()
    modifies r`pos
    ensures r.Took(GetCapability(old(r.Rest())), ok, c)
    ensures GetCapability(old(r.Rest())).Fail? ==> GetCapability(old(r.Rest())).why == Truncated
  {
    hide GetU64, GetBytes, GetU8;
    TruncatedCount();
    c := Capability(0, [], CapabilityKind.UNKNOWN, [], []);
    var id, t, k;
    ok, id := r.U64();
    if !ok { return; }
    c := c.(id := id);
    ok, t := r.Text(128);
    if !ok { return; }
    c := c.(name := t);
    ok, k := r.U8();
    if !ok { return; }
    c := c.(kind := k as CapabilityKind);
    ok, t := r.Text(256);
    if !ok { return; }
    c := c.(value := t);
    ok, t := r.Text(256);
    if !ok { return; }
    c := c.(description := t);
  }

  method ReadCapabilities(r: ByteReader) returns (cs: Result<seq<Capability>>)
    requires r.Valid()
    modifies r`pos
    ensures r.Valid()
    ensures match GetCapabilities(old(r.Rest()))
            case Fail(why) => cs == Failure(why)
            case Got(v, s) => cs == Success(v) && r.Rest() == s
  {
    hide GetU32, GetCapability, GetAll, Onto;
    TruncatedCount();
    var ok, n := r.U32();
    if !ok {
      return Failure(Truncated);
    }
    if n > CAPABILITIES {
      return Failure(OutOfBounds);
    }
    ghost var all := GetAll(n, GetCapability, r.Rest());
    var out: seq<Capability> := [];
    OntoNothing(all);
    for i := 0 to n
      invariant r.Valid() && all == Onto(out, GetAll(n - i, GetCapability, r.Rest()))
    {
      ReadOn(out, n - i, GetCapability, r.Rest());
      var c;
      ok, c := ReadCapability(r);
      if !ok {
        return Failure(Truncated);
      }
      out := out + [c];
    }
    ReadThrough(out, GetCapability, r.Rest());
    cs := Success(out);
  }

  lemma CapabilitiesBack(cs: seq<Capability>, rest: Bytes)
    ensures |cs| <= CAPABILITIES ==> GetCapabilities(PutCapabilities(cs, rest)) == Got(ClipCapabilities(cs), rest)
    ensures CAPABILITIES < |cs| < 0x1_0000_0000 ==> GetCapabilities(PutCapabilities(cs, rest)) == Fail(OutOfBounds)
  {
    hide PutCapability, GetCapability, PutU32, GetU32, ClipCapability;
    if |cs| <= CAPABILITIES {
      GetPutCounted(cs, PutCapability, CAPABILITIES, OutOfBounds, GetCapability, ClipCapability, rest);
    }
  }

  lemma CapabilityExtends()
    ensures Extends(GetCapability)
  {
    forall s: Bytes, e: Bytes | GetCapability(s).Got? ensures GetCapability(s + e) == GetCapability(s).Before(e) {
      hide GetU64, GetText, GetU8;
      var r := SkipU64(s, e);
      r := SkipText(r, 128, e);
      r := SkipU8(r, e);
      r := SkipText(r, 256, e);
      r := SkipText(r, 256, e);
    }
  }

  function CapabilitySize(c: Capability): nat {
    21 + |Clip(c.name, 128)| + |Clip(c.value, 256)| + |Clip(c.description, 256)|
  }

  lemma CapabilityLength(c: Capability, rest: Bytes)
    ensures |PutCapability(c, rest)| == CapabilitySize(c) + |rest| && CapabilitySize(c) <= 661
  {
    hide PutU64, PutText, PutU8, Clip;
    var a := PutText(c.description, 256, rest);
    TextLength(c.description, 256, rest);
    var b := PutText(c.value, 256, a);
    TextLength(c.value, 256, a);
    IntegerLength(c.kind as int, b);
    var d := PutU8(c.kind as u8, b);
    TextLength(c.name, 128, d);
    IntegerLength(c.id, PutText(c.name, 128, d));
  }

  lemma CapabilitiesLength(cs: seq<Capability>, rest: Bytes)
    ensures |PutCapabilities(cs, rest)| == 4 + TotalSize(cs, CapabilitySize) + |rest|
  {
    hide PutCapability, CapabilitySize, PutCounted;
    forall c, r: Bytes ensures |PutCapability(c, r)| == CapabilitySize(c) + |r| {
      CapabilityLength(c, r);
    }
    CountedLength(cs, PutCapability, CapabilitySize, rest);
  }

  lemma {:induction false} CapabilitiesCounted(cs: seq<Capability>)
    ensures |cs| <= TotalSize(cs, CapabilitySize)
  {
    hide Clip;
    if cs != [] {
      CapabilitiesCounted(cs[1..]);
    }
  }

  lemma CapabilitiesBound(cs: seq<Capability>)
    ensures TotalSize(cs, CapabilitySize) <= 661 * |cs|
  {
    hide PutCapability, CapabilitySize;
    forall c ensures CapabilitySize(c) <= 661 {
      CapabilityLength(c, []);
    }
    TotalBound(cs, CapabilitySize, 661);
  }

  lemma SkipCapabilities(s: Bytes, e: Bytes) returns (r: Bytes)
    requires GetCapabilities(s).Got?
    ensures r == GetCapabilities(s).rest && GetCapabilities(s + e) == Got(GetCapabilities(s).value, r + e)
  {
    CapabilityExtends();
    hide Extends;
    r := SkipCounted(CAPABILITIES, OutOfBounds, GetCapability, s, e);
  }

  lemma ClippedCapabilities(cs: seq<Capability>)
    ensures ClipCapabilities(ClipCapabilities(cs)) == ClipCapabilities(cs)
  {
  }

  // ---- Identities ----

  function PutIdentity(d: DeviceIdentity, rest: Bytes): Bytes {
    PutU8(d.vendor as u8, PutText(d.vendorName, 128, PutText(d.uuid, 128,
      PutU32(d.pci.domain, PutU16(d.pci.bus, PutU16(d.pci.device, PutU16(d.pci.function_,
        PutText(d.architecture, 64, PutU32(d.computeCapability.major, PutU32(d.computeCapability.minor,
          PutU64(d.totalPhysicalMemory, PutI64(d.numaNode, PutText(d.driverVersion, 128,
            PutU32(d.runtimeMajor, PutU32(d.runtimeMinor, PutU32(d.migGpu, PutU32(d.migCompute,
              PutOptional(d.parentDevice, rest))))))))))))))))))
  }

  function GetIdentity(s: Bytes): Parsed<DeviceIdentity> {
    var (vendor, s) :- GetU8(s);
    var (vendorName, s) :- GetText(s, 128);
    var (uuid, s) :- GetText(s, 128);
    var (domain, s) :- GetU32(s);
    var (bus, s) :- GetU16(s);
    var (device, s) :- GetU16(s);
    var (function_, s) :- GetU16(s);
    var (architecture, s) :- GetText(s, 64);
    var (major, s) :- GetU32(s);
    var (minor, s) :- GetU32(s);
    var (memory, s) :- GetU64(s);
    var (numa, s) :- GetI64(s);
    var (driver, s) :- GetText(s, 128);
    var (runtimeMajor, s) :- GetU32(s);
    var (runtimeMinor, s) :- GetU32(s);
    var (migGpu, s) :- GetU32(s);
    var (migCompute, s) :- GetU32(s);
    var (parent, s) :- GetOptional(s);
    Got(DeviceIdentity(vendor as Vendor, vendorName, uuid, PciAddress(domain, bus, device, function_), architecture,
                       ComputeCapability(major, minor), memory, Narrow(numa), driver, runtimeMajor, runtimeMinor,
                       migGpu, migCompute, parent), s)
  }

  function ClipIdentity(d: DeviceIdentity): DeviceIdentity {
    d.(vendorName := Clip(d.vendorName, 128), uuid := Clip(d.uuid, 128), architecture := Clip(d.architecture, 64),
       driverVersion := Clip(d.driverVersion, 128))
  }

  /** The texts of an identity are within the limits of the encoding. */
  predicate Storable(d: DeviceIdentity) { ClipIdentity(d) == d }

  /** An identity comes back with its texts clipped. */
  lemma IdentityBack(d: DeviceIdentity, rest: Bytes)
    ensures GetIdentity(PutIdentity(d, rest)) == Got(ClipIdentity(d), rest)
  {
    hide GetU8, GetU16, GetU32, GetU64, GetI64, GetText, GetOptional;
    hide PutU8, PutU16, PutU32, PutU64, PutI64, PutText, PutOptional, Clip;
    assert Narrow(d.numaNode) == d.numaNode;
    hide Narrow;
  }

  method WriteIdentity(w: ByteWriter, d: DeviceIdentity)
    modifies w
    ensures forall rest: Bytes :: w.buf + rest == old(w.buf) + PutIdentity(d, rest)
  {
    hide PutU8, PutU16, PutU32, PutU64, PutI64, PutText, PutOptional;
    w.U8(d.vendor as u8);
    w.Text(d.vendorName, 128);
    w.Text(d.uuid, 128);
    w.U32(d.pci.domain);
    w.U16(d.pci.bus);
    w.U16(d.pci.device);
    w.U16(d.pci.function_);
    w.Text(d.architecture, 64);
    w.U32(d.computeCapability.major);
    w.U32(d.computeCapability.minor);
    w.U64(d.totalPhysicalMemory);
    w.I64(d.numaNode);
    w.Text(d.driverVersion, 128);
    w.U32(d.runtimeMajor);
    w.U32(d.runtimeMinor);
    w.U32(d.migGpu);
    w.U32(d.migCompute);
    w.Optional(d.parentDevice);
  }

  method ReadIdentity(r: ByteReader) returns (ok: bool, d: DeviceIdentity)
    requires r.Valid()
    modifies r`pos
    ensures r.Took(GetIdentity(old(r.Rest())), ok, d)
  {
    hide GetU8, GetU16, GetU32, GetU64, GetI64, GetText, GetOptional;
    d := NO_IDENTITY;
    var b, t, w, h, u, i, o;
    ok, b := r.U8();
    if !ok { return; }
    d := d.(vendor := b as Vendor);
    ok, t := r.Text(128);
    if !ok { return; }
    d := d.(vendorName := t);
    ok, t := r.Text(128);
    if !ok { return; }
    d := d.(uuid := t);
    ok, w := r.U32();
    if !ok { return; }
    d := d.(pci := d.pci.(domain := w));
    ok, h := r.U16();
    if !ok { return; }
    d := d.(pci := d.pci.(bus := h));
    ok, h := r.U16();
    if !ok { return; }
    d := d.(pci := d.pci.(device := h));
    ok, h := r.U16();
    if !ok { return; }
    d := d.(pci := d.pci.(function_ := h));
    ok, t := r.Text(64);
    if !ok { return; }
    d := d.(architecture := t);
    ok, w := r.U32();
    if !ok { return; }
    d := d.(computeCapability := d.computeCapability.(major := w));
    ok, w := r.U32();
    if !ok { return; }
    d := d.(computeCapability := d.computeCapability.(minor := w));
    ok, u := r.U64();
    if !ok { return; }
    d := d.(totalPhysicalMemory := u);
    ok, i := r.I64();
    if !ok { return; }
    d := d.(numaNode := Narrow(i));
    ok, t := r.Text(128);
    if !ok { return; }
    d := d.(driverVersion := t);
    ok, w := r.U32();
    if !ok { return; }
    d := d.(runtimeMajor := w);
    ok, w := r.U32();
    if !ok { return; }
    d := d.(runtimeMinor := w);
    ok, w := r.U32();
    if !ok { return; }
    d := d.(migGpu := w);
    ok, w := r.U32();
    if !ok { return; }
    d := d.(migCompute := w);
    ok, o := r.Optional();
    if !ok { return; }
    d := d.(parentDevice := o);
  }

  lemma SkipIdentity(s: Bytes, e: Bytes) returns (r: Bytes)
    requires GetIdentity(s).Got?
    ensures r == GetIdentity(s).rest && GetIdentity(s + e) == Got(GetIdentity(s).value, r + e)
  {
    hide GetU8, GetU16, GetU32, GetU64, GetI64, GetText, GetOptional;
    r := SkipU8(s, e);
    r := SkipText(r, 128, e);
    r := SkipText(r, 128, e);
    r := SkipU32(r, e);
    r := SkipU16(r, e);
    r := SkipU16(r, e);
    r := SkipU16(r, e);
    r := SkipText(r, 64, e);
    r := SkipU32(r, e);
    r := SkipU32(r, e);
    r := SkipU64(r, e);
    r := SkipI64(r, e);
    r := SkipText(r, 128, e);
    r := SkipU32(r, e);
    r := SkipU32(r, e);
    r := SkipU32(r, e);
    r := SkipU32(r, e);
    r := SkipOptional(r, e);
  }

  function IdentitySize(d: DeviceIdentity): nat {
    67 + |Clip(d.vendorName, 128)| + |Clip(d.uuid, 128)| + |Clip(d.architecture, 64)| + |Clip(d.driverVersion, 128)|
    + OptionalSize(d.parentDevice)
  }

  lemma IdentityLength(d: DeviceIdentity, rest: Bytes)
    ensures |PutIdentity(d, rest)| == IdentitySize(d) + |rest| && IdentitySize(d) <= 1000
  {
    hide PutU8, PutU16, PutU32, PutU64, PutI64, PutText, PutOptional, Clip;
    var r := PutOptional(d.parentDevice, rest);
    OptionalLength(d.parentDevice, rest);
    IntegerLength(d.migCompute, r);
    r := PutU32(d.migCompute, r);
    IntegerLength(d.migGpu, r);
    r := PutU32(d.migGpu, r);
    IntegerLength(d.runtimeMinor, r);
    r := PutU32(d.runtimeMinor, r);
    IntegerLength(d.runtimeMajor, r);
    r := PutU32(d.runtimeMajor, r);
    TextLength(d.driverVersion, 128, r);
    r := PutText(d.driverVersion, 128, r);
    IntegerLength(d.numaNode, r);
    r := PutI64(d.numaNode, r);
    IntegerLength(d.totalPhysicalMemory, r);
    r := PutU64(d.totalPhysicalMemory, r);
    IntegerLength(d.computeCapability.minor, r);
    r := PutU32(d.computeCapability.minor, r);
    IntegerLength(d.computeCapability.major, r);
    r := PutU32(d.computeCapability.major, r);
    TextLength(d.architecture, 64, r);
    r := PutText(d.architecture, 64, r);
    IntegerLength(d.pci.function_, r);
    r := PutU16(d.pci.function_, r);
    IntegerLength(d.pci.device, r);
    r := PutU16(d.pci.device, r);
    IntegerLength(d.pci.bus, r);
    r := PutU16(d.pci.bus, r);
    IntegerLength(d.pci.domain, r);
    r := PutU32(d.pci.domain, r);
    TextLength(d.uuid, 128, r);
    r := PutText(d.uuid, 128, r);
    TextLength(d.vendorName, 128, r);
    r := PutText(d.vendorName, 128, r);
    IntegerLength(d.vendor as int, r);
  }

  /** Whatever bytes an identity is read from, its texts are within the limits. */
  lemma IdentityStorable(s: Bytes)
    requires GetIdentity(s).Got?
    ensures Storable(GetIdentity(s).value)
  {
    ReadTextShort();
    hide GetU8, GetU16, GetU32, GetU64, GetI64, GetText, GetOptional, Clip, Narrow;
  }

  lemma ReadTextShort()
    ensures forall s, max :: GetText(s, max).Got? ==> Clip(GetText(s, max).value, max) == GetText(s, max).value
  {
    hide GetU32;
  }
}
