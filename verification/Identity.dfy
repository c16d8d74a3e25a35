/** Device identity and its canonical key. */
module Identity {
  import opened Basics

  datatype PciAddress = PciAddress(domain: u32, bus: u16, device: u16, function_: u16)

  datatype ComputeCapability = ComputeCapability(major: u32, minor: u32) {
    /** Ordering by major, then minor. */
    predicate AtLeast(o: ComputeCapability) {
      if major != o.major then major > o.major else minor >= o.minor
    }
  }

  newtype Vendor = x: int | 0 <= x < 256 {
    static const UNKNOWN: Vendor := 0
    static const NVIDIA: Vendor := 1
    static const AMD: Vendor := 2
    static const INTEL: Vendor := 3
  }

  datatype DeviceIdentity = DeviceIdentity(
    vendor: Vendor, vendorName: Text, uuid: Text, pci: PciAddress, architecture: Text,
    computeCapability: ComputeCapability, totalPhysicalMemory: u64, numaNode: i32, driverVersion: Text,
    runtimeMajor: u32, runtimeMinor: u32, migGpu: u32, migCompute: u32, parentDevice: Option<u64>)

  const NO_IDENTITY: DeviceIdentity := DeviceIdentity(
    Vendor.UNKNOWN, [], [], PciAddress(0, 0, 0, 0), [], ComputeCapability(0, 0), 0, -1, [], 0, 0, 0, 0, None)

  // ---- Printing numbers ----

  function DigitChar(d: nat): u8
    requires d < 16
  {
    if d < 10 then 48 + d else 87 + d
  }

  function DigitValue(c: u8): int { if c < 58 then c - 48 else c - 87 }

  predicate IsDigitChar(c: u8) { 48 <= c < 58 || 97 <= c < 103 }

  /** The digits of n, most significant first, without leading zeros. */
  function Digits(n: nat, base: nat): (s: Text)
    requires base == 10 || base == 16
    ensures s != []
    ensures forall c :: c in s ==> IsDigitChar(c)
  {
    if n < base then [DigitChar(n)] else Digits(n / base, base) + [DigitChar(n % base)]
  }

  /** Digits padded with zeros to a minimum width. */
  function Padded(s: Text, width: nat): (r: Text)
    requires forall c :: c in s ==> IsDigitChar(c)
    ensures forall c :: c in r ==> IsDigitChar(c)
    decreases width - |s|
  {
    if |s| >= width then s else Padded([48] + s, width)
  }

  function Decimal(n: nat): Text { Digits(n, 10) }

  function Hex(n: nat, width: nat): Text { Padded(Digits(n, 16), width) }

  function Reading(s: Text, base: nat): int {
    if s == [] then 0 else Reading(s[..|s| - 1], base) * base + DigitValue(s[|s| - 1])
  }

  lemma ReadingAppend(s: Text, c: u8, base: nat)
    ensures Reading(s + [c], base) == Reading(s, base) * base + DigitValue(c)
  {
    assert (s + [c])[..|s|] == s;
  }

  lemma ReadingNothing(base: nat)
    ensures Reading([], base) == 0
  {
  }

  lemma {:induction false} ReadingDigits(n: nat, base: nat)
    requires base == 10 || base == 16
    ensures Reading(Digits(n, base), base) == n
  {
    var q, r := if base == 10 then n / 10 else n / 16, if base == 10 then n % 10 else n % 16;
    assert q == n / base && r == n % base && n == q * base + r;
    assert DigitValue(DigitChar(r)) == r;
    hide DigitValue, DigitChar, Reading;
    if n < base {
      ReadingAppend([], DigitChar(n), base);
      ReadingNothing(base);
      assert [] + [DigitChar(n)] == Digits(n, base);
    } else {
      ReadingDigits(q, base);
      ReadingAppend(Digits(q, base), DigitChar(r), base);
    }
  }

  lemma {:induction false} ReadingLeadingZero(s: Text, base: nat)
    ensures Reading([48] + s, base) == Reading(s, base)
  {
    var z := [48] + s;
    if s == [] {
      assert z[..0] == [];
    } else {
      assert z[..|z| - 1] == [48] + s[..|s| - 1];
      ReadingLeadingZero(s[..|s| - 1], base);
    }
  }

  lemma {:induction false} ReadingPadded(s: Text, width: nat, base: nat)
    requires forall c :: c in s ==> IsDigitChar(c)
    ensures Reading(Padded(s, width), base) == Reading(s, base)
    decreases width - |s|
  {
    if |s| < width {
      ReadingPadded([48] + s, width, base);
      ReadingLeadingZero(s, base);
    }
  }

  lemma DecimalInjective(a: nat, b: nat)
    requires Decimal(a) == Decimal(b)
    ensures a == b
  {
    ReadingDigits(a, 10);
    ReadingDigits(b, 10);
  }

  lemma HexInjective(a: nat, b: nat, width: nat)
    requires Hex(a, width) == Hex(b, width)
    ensures a == b
  {
    ReadingDigits(a, 16);
    ReadingDigits(b, 16);
    ReadingPadded(Digits(a, 16), width, 16);
    ReadingPadded(Digits(b, 16), width, 16);
  }

  // ---- The canonical key ----

  const BAR: u8 := 124
  const COLON: u8 := 58
  const DOT: u8 := 46

  function VendorText(v: Vendor): Text {
    if v == Vendor.NVIDIA then Ascii("nvidia")
    else if v == Vendor.AMD then Ascii("amd")
    else if v == Vendor.INTEL then Ascii("intel")
    else Ascii("unknown")
  }

  function PciText(p: PciAddress): Text {
    Hex(p.domain, 4) + [COLON] + (Hex(p.bus, 2) + [COLON] + (Hex(p.device, 2) + [DOT] + Hex(p.function_, 1)))
  }

  function CapabilityText(c: ComputeCapability): Text {
    Decimal(c.major) + [DOT] + Decimal(c.minor)
  }

  /** The key under which a device is stored: eight fields joined by bars. */
  function CanonicalKey(d: DeviceIdentity): Text {
    VendorText(d.vendor) + [BAR] + (d.vendorName + [BAR] + (d.uuid + [BAR] + (PciText(d.pci) + [BAR] +
      (d.architecture + [BAR] + (CapabilityText(d.computeCapability) + [BAR] +
        (Decimal(d.totalPhysicalMemory) + [BAR] + d.driverVersion))))))
  }

  /** Fields before the first separator and after it are determined by the joined text. */
  lemma Cut(a: Text, b: Text, sep: u8, r: Text, s: Text)
    requires a + [sep] + r == b + [sep] + s
    requires sep !in a && sep !in b
    ensures a == b && r == s
  {
    var t := a + [sep] + r;
    assert t[|a|] == sep && t[|b|] == sep;
    assert forall i :: 0 <= i < |a| ==> t[i] == a[i] && t[i] != sep;
    assert forall i :: 0 <= i < |b| ==> t[i] == b[i] && t[i] != sep;
    assert |a| == |b|;
    assert a == t[..|a|] && b == t[..|b|];
    assert r == t[|a| + 1..] && s == t[|b| + 1..];
  }

  lemma PciTextInjective(p: PciAddress, q: PciAddress)
    requires PciText(p) == PciText(q)
    ensures p == q
  {
    Cut(Hex(p.domain, 4), Hex(q.domain, 4), COLON,
        Hex(p.bus, 2) + [COLON] + (Hex(p.device, 2) + [DOT] + Hex(p.function_, 1)),
        Hex(q.bus, 2) + [COLON] + (Hex(q.device, 2) + [DOT] + Hex(q.function_, 1)));
    Cut(Hex(p.bus, 2), Hex(q.bus, 2), COLON,
        Hex(p.device, 2) + [DOT] + Hex(p.function_, 1), Hex(q.device, 2) + [DOT] + Hex(q.function_, 1));
    Cut(Hex(p.device, 2), Hex(q.device, 2), DOT, Hex(p.function_, 1), Hex(q.function_, 1));
    HexInjective(p.domain, q.domain, 4);
    HexInjective(p.bus, q.bus, 2);
    HexInjective(p.device, q.device, 2);
    HexInjective(p.function_, q.function_, 1);
  }

  lemma CapabilityTextInjective(c: ComputeCapability, d: ComputeCapability)
    requires CapabilityText(c) == CapabilityText(d)
    ensures c == d
  {
    Cut(Decimal(c.major), Decimal(d.major), DOT, Decimal(c.minor), Decimal(d.minor));
    DecimalInjective(c.major, d.major);
    DecimalInjective(c.minor, d.minor);
  }

  lemma VendorTextLength(v: Vendor)
    ensures BAR !in VendorText(v)
    ensures |VendorText(v)| == if v == Vendor.NVIDIA then 6 else if v == Vendor.AMD then 3 else if v == Vendor.INTEL then 5 else 7
  {
    var s := if v == Vendor.NVIDIA then "nvidia" else if v == Vendor.AMD then "amd"
             else if v == Vendor.INTEL then "intel" else "unknown";
    assert forall i :: 0 <= i < |s| ==> s[i] as int != 124 && s[i] < 128 as char;
    assert VendorText(v) == Ascii(s);
  }

  predicate BarFree(d: DeviceIdentity) {
    BAR !in d.vendorName && BAR !in d.uuid && BAR !in d.architecture
  }

  /** What a canonical key keeps of an identity. */
  predicate SameKeyFields(d: DeviceIdentity, e: DeviceIdentity) {
    && VendorText(d.vendor) == VendorText(e.vendor) && d.vendorName == e.vendorName && d.uuid == e.uuid
    && d.pci == e.pci && d.architecture == e.architecture && d.computeCapability == e.computeCapability
    && d.totalPhysicalMemory == e.totalPhysicalMemory && d.driverVersion == e.driverVersion
  }

  /** Among identities whose name, UUID and architecture hold no bar, equal keys mean equal fields, and conversely.
    * The driver text may hold bars: it comes last.
    */
  lemma KeyInjective(d: DeviceIdentity, e: DeviceIdentity)
    requires BarFree(d) && BarFree(e)
    ensures CanonicalKey(d) == CanonicalKey(e) <==> SameKeyFields(d, e)
  {
    if CanonicalKey(d) == CanonicalKey(e) {
      VendorTextLength(d.vendor);
      VendorTextLength(e.vendor);
      hide VendorText, PciText, CapabilityText, Decimal;
      var d7, e7 := Decimal(d.totalPhysicalMemory) + [BAR] + d.driverVersion,
                    Decimal(e.totalPhysicalMemory) + [BAR] + e.driverVersion;
      var d6, e6 := CapabilityText(d.computeCapability) + [BAR] + d7, CapabilityText(e.computeCapability) + [BAR] + e7;
      var d5, e5 := d.architecture + [BAR] + d6, e.architecture + [BAR] + e6;
      var d4, e4 := PciText(d.pci) + [BAR] + d5, PciText(e.pci) + [BAR] + e5;
      var d3, e3 := d.uuid + [BAR] + d4, e.uuid + [BAR] + e4;
      var d2, e2 := d.vendorName + [BAR] + d3, e.vendorName + [BAR] + e3;
      Cut(VendorText(d.vendor), VendorText(e.vendor), BAR, d2, e2);
      Cut(d.vendorName, e.vendorName, BAR, d3, e3);
      Cut(d.uuid, e.uuid, BAR, d4, e4);
      NumbersBarFree(d);
      NumbersBarFree(e);
      Cut(PciText(d.pci), PciText(e.pci), BAR, d5, e5);
      Cut(d.architecture, e.architecture, BAR, d6, e6);
      Cut(CapabilityText(d.computeCapability), CapabilityText(e.computeCapability), BAR, d7, e7);
      Cut(Decimal(d.totalPhysicalMemory), Decimal(e.totalPhysicalMemory), BAR, d.driverVersion, e.driverVersion);
      PciTextInjective(d.pci, e.pci);
      CapabilityTextInjective(d.computeCapability, e.computeCapability);
      DecimalInjective(d.totalPhysicalMemory, e.totalPhysicalMemory);
    }
  }

  lemma NumbersBarFree(d: DeviceIdentity)
    ensures BAR !in PciText(d.pci) && BAR !in CapabilityText(d.computeCapability)
    ensures BAR !in Decimal(d.totalPhysicalMemory)
  {
  }

  /** Vendors that are named print differently. */
  lemma VendorTextInjective(v: Vendor, w: Vendor)
    requires v <= Vendor.INTEL && w <= Vendor.INTEL && VendorText(v) == VendorText(w)
    ensures v == w
  {
    VendorTextLength(v);
    VendorTextLength(w);
  }

  /** Fields before the last separator and after it are determined by the joined text too. */
  lemma CutLast(a: Text, b: Text, sep: u8, r: Text, s: Text)
    requires a + [sep] + r == b + [sep] + s
    requires sep !in r && sep !in s
    ensures a == b && r == s
  {
    var t := a + [sep] + r;
    assert t[|a|] == sep && t[|b|] == sep;
    assert forall i :: |a| < i < |t| ==> t[i] == r[i - |a| - 1];
    assert forall i :: |b| < i < |t| ==> t[i] == s[i - |b| - 1];
    assert |a| == |b|;
    assert a == t[..|a|] && b == t[..|b|];
    assert r == t[|a| + 1..] && s == t[|b| + 1..];
  }

  predicate DriverBarFree(d: DeviceIdentity) {
    BAR !in d.vendorName && BAR !in d.uuid && BAR !in d.driverVersion
  }

  /** Bars in the architecture do no harm among identities without bars in the driver text. */
  lemma KeyInjectiveByDriver(d: DeviceIdentity, e: DeviceIdentity)
    requires DriverBarFree(d) && DriverBarFree(e)
    ensures CanonicalKey(d) == CanonicalKey(e) <==> SameKeyFields(d, e)
  {
    if CanonicalKey(d) == CanonicalKey(e) {
      VendorTextLength(d.vendor);
      VendorTextLength(e.vendor);
      NumbersBarFree(d);
      NumbersBarFree(e);
      hide VendorText, PciText, CapabilityText, Decimal;
      var d7, e7 := Decimal(d.totalPhysicalMemory) + [BAR] + d.driverVersion,
                    Decimal(e.totalPhysicalMemory) + [BAR] + e.driverVersion;
      var d6, e6 := CapabilityText(d.computeCapability) + [BAR] + d7, CapabilityText(e.computeCapability) + [BAR] + e7;
      var d5, e5 := d.architecture + [BAR] + d6, e.architecture + [BAR] + e6;
      var d4, e4 := PciText(d.pci) + [BAR] + d5, PciText(e.pci) + [BAR] + e5;
      var d3, e3 := d.uuid + [BAR] + d4, e.uuid + [BAR] + e4;
      Cut(VendorText(d.vendor), VendorText(e.vendor), BAR, d.vendorName + [BAR] + d3, e.vendorName + [BAR] + e3);
      Cut(d.vendorName, e.vendorName, BAR, d3, e3);
      Cut(d.uuid, e.uuid, BAR, d4, e4);
      Cut(PciText(d.pci), PciText(e.pci), BAR, d5, e5);
      CutTail(d, e);
      PciTextInjective(d.pci, e.pci);
      CapabilityTextInjective(d.computeCapability, e.computeCapability);
      DecimalInjective(d.totalPhysicalMemory, e.totalPhysicalMemory);
    }
  }

  /** The last four fields, taken apart from the end. */
  lemma CutTail(d: DeviceIdentity, e: DeviceIdentity)
    requires BAR !in d.driverVersion && BAR !in e.driverVersion
    requires d.architecture + [BAR] + (CapabilityText(d.computeCapability) + [BAR] +
               (Decimal(d.totalPhysicalMemory) + [BAR] + d.driverVersion))
             == e.architecture + [BAR] + (CapabilityText(e.computeCapability) + [BAR] +
               (Decimal(e.totalPhysicalMemory) + [BAR] + e.driverVersion))
    ensures d.architecture == e.architecture && CapabilityText(d.computeCapability) == CapabilityText(e.computeCapability)
    ensures Decimal(d.totalPhysicalMemory) == Decimal(e.totalPhysicalMemory) && d.driverVersion == e.driverVersion
  {
    NumbersBarFree(d);
    NumbersBarFree(e);
    hide CapabilityText, Decimal;
    var ca, cb := CapabilityText(d.computeCapability), CapabilityText(e.computeCapability);
    var ma, mb := Decimal(d.totalPhysicalMemory), Decimal(e.totalPhysicalMemory);
    var pa, pb := d.architecture + [BAR] + ca, e.architecture + [BAR] + cb;
    assert d.architecture + [BAR] + (ca + [BAR] + (ma + [BAR] + d.driverVersion)) == (pa + [BAR] + ma) + [BAR] + d.driverVersion;
    assert e.architecture + [BAR] + (cb + [BAR] + (mb + [BAR] + e.driverVersion)) == (pb + [BAR] + mb) + [BAR] + e.driverVersion;
    CutLast(pa + [BAR] + ma, pb + [BAR] + mb, BAR, d.driverVersion, e.driverVersion);
    CutLast(pa, pb, BAR, ma, mb);
    CutLast(d.architecture, e.architecture, BAR, ca, cb);
  }

  /** The text that follows the two first fields of a key. */
  function KeyTail(d: DeviceIdentity): Text {
    PciText(d.pci) + [BAR] + (d.architecture + [BAR] + (CapabilityText(d.computeCapability) + [BAR] +
      (Decimal(d.totalPhysicalMemory) + [BAR] + d.driverVersion)))
  }

  lemma KeyHead(d: DeviceIdentity)
    ensures CanonicalKey(d) == VendorText(d.vendor) + [BAR] + ((d.vendorName + [BAR] + d.uuid) + [BAR] + KeyTail(d))
  {
    hide VendorText, PciText, CapabilityText, Decimal;
    assert d.vendorName + [BAR] + (d.uuid + [BAR] + KeyTail(d)) == (d.vendorName + [BAR] + d.uuid) + [BAR] + KeyTail(d);
  }

  /** Every identity with a bar in its name or its UUID shares its key with an identity of another name and UUID. */
  lemma BarCollides(d: DeviceIdentity) returns (e: DeviceIdentity)
    requires BAR in d.vendorName || BAR in d.uuid
    ensures CanonicalKey(e) == CanonicalKey(d) && e.vendorName != d.vendorName && e.uuid != d.uuid
  {
    if BAR in d.vendorName {
      var i :| 0 <= i < |d.vendorName| && d.vendorName[i] == BAR;
      var x, y := d.vendorName[..i], d.vendorName[i + 1..];
      assert d.vendorName == x + [BAR] + y;
      e := d.(vendorName := x, uuid := y + [BAR] + d.uuid);
      assert |e.uuid| > |d.uuid| && |e.vendorName| < |d.vendorName|;
      assert x + [BAR] + (y + [BAR] + d.uuid) == (x + [BAR] + y) + [BAR] + d.uuid;
    } else {
      var i :| 0 <= i < |d.uuid| && d.uuid[i] == BAR;
      var x, y := d.uuid[..i], d.uuid[i + 1..];
      assert d.uuid == x + [BAR] + y;
      e := d.(vendorName := d.vendorName + [BAR] + x, uuid := y);
      assert |e.vendorName| > |d.vendorName| && |e.uuid| < |d.uuid|;
      assert (d.vendorName + [BAR] + x) + [BAR] + y == d.vendorName + [BAR] + (x + [BAR] + y);
    }
    hide CanonicalKey, VendorText, PciText, CapabilityText, Decimal;
    KeyHead(d);
    KeyHead(e);
  }

  /** With bars in both architecture and driver text, different identities can share a key too. */
  lemma ArchitectureBarCollides(d: DeviceIdentity, c: ComputeCapability, m: u64)
    ensures var x := d.(architecture := d.architecture + [BAR] + CapabilityText(c) + [BAR] + Decimal(m));
            var y := d.(computeCapability := c, totalPhysicalMemory := m,
                        driverVersion := CapabilityText(d.computeCapability) + [BAR] + Decimal(d.totalPhysicalMemory)
                                         + [BAR] + d.driverVersion);
            CanonicalKey(x) == CanonicalKey(y) && x.architecture != y.architecture
  {
    var a, t, u, v, w := d.architecture, CapabilityText(c), Decimal(m), CapabilityText(d.computeCapability),
                         Decimal(d.totalPhysicalMemory);
    hide VendorText, PciText, CapabilityText, Decimal;
    assert (a + [BAR] + t + [BAR] + u) + [BAR] + (v + [BAR] + (w + [BAR] + d.driverVersion))
           == a + [BAR] + (t + [BAR] + (u + [BAR] + (v + [BAR] + w + [BAR] + d.driverVersion)));
    assert |a + [BAR] + t + [BAR] + u| > |a|;
  }
}
