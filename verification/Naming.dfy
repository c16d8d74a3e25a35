/** A canonical key taken apart again at its bars. */
module Naming {
  import opened Basics
  import opened Identity

  /** The parts of a text between its bars. */
  function Parts(t: Text): (ps: seq<Text>)
    ensures ps != []
  {
    if t == [] then [[]]
    else
      var ps := Parts(t[1..]);
      if t[0] == 124 then [[]] + ps else [[t[0]] + ps[0]] + ps[1..]
  }

  lemma {:induction false} PartsFirst(a: Text, r: Text)
    requires 124 !in a
    ensures Parts(a + [BAR] + r) == [a] + Parts(r)
    decreases a
  {
    var t := a + [BAR] + r;
    if a == [] {
      assert t[1..] == r;
    } else {
      PartsFirst(a[1..], r);
      assert t[1..] == a[1..] + [BAR] + r && t[0] == a[0];
      assert [a[0]] + a[1..] == a;
      assert ([a[1..]] + Parts(r))[1..] == Parts(r);
    }
  }

  lemma {:induction false} PartsLast(a: Text)
    requires 124 !in a
    ensures Parts(a) == [a]
    decreases a
  {
    if a != [] {
      PartsLast(a[1..]);
      assert [a[0]] + a[1..] == a;
    }
  }

  function VendorWord(v: Vendor): string {
    if v == Vendor.NVIDIA then "nvidia" else if v == Vendor.AMD then "amd" else if v == Vendor.INTEL then "intel"
    else "unknown"
  }

  function Dotted(c: ComputeCapability): Text { Decimal(c.major) + ['.' as int] + Decimal(c.minor) }

  /** The key of an identity without bars has eight parts, in this order; the numbers among them read back. */
  lemma KeyParts(d: DeviceIdentity)
    requires BarFree(d) && 124 !in d.driverVersion
    ensures var ps := Parts(CanonicalKey(d));
            && |ps| == 8 && ps[0] == Ascii(VendorWord(d.vendor)) && ps[1] == d.vendorName && ps[2] == d.uuid
            && ps[3] == PciText(d.pci) && ps[4] == d.architecture && ps[5] == Dotted(d.computeCapability)
            && Reading(ps[6], 10) == d.totalPhysicalMemory && ps[7] == d.driverVersion
  {
    VendorTextLength(d.vendor);
    NumbersBarFree(d);
    ReadingDigits(d.totalPhysicalMemory, 10);
    assert CapabilityText(d.computeCapability) == Dotted(d.computeCapability);
    hide VendorText, PciText, CapabilityText, Dotted, Digits, Reading, Parts;
    var d7 := Decimal(d.totalPhysicalMemory) + [BAR] + d.driverVersion;
    var d6 := CapabilityText(d.computeCapability) + [BAR] + d7;
    var d5 := d.architecture + [BAR] + d6;
    var d4 := PciText(d.pci) + [BAR] + d5;
    var d3 := d.uuid + [BAR] + d4;
    var d2 := d.vendorName + [BAR] + d3;
    PartsFirst(VendorText(d.vendor), d2);
    PartsFirst(d.vendorName, d3);
    PartsFirst(d.uuid, d4);
    PartsFirst(PciText(d.pci), d5);
    PartsFirst(d.architecture, d6);
    PartsFirst(CapabilityText(d.computeCapability), d7);
    PartsFirst(Decimal(d.totalPhysicalMemory), d.driverVersion);
    PartsLast(d.driverVersion);
    VendorWords(d.vendor);
  }

  lemma VendorWords(v: Vendor)
    ensures VendorText(v) == Ascii(VendorWord(v))
  {
    hide Ascii;
  }

  /** A PCI address prints as domain, bus, device and function in hexadecimal, the first three padded. */
  lemma PciParts(p: PciAddress)
    requires p.domain < 0x1_0000 && p.bus < 0x100 && p.device < 0x100 && p.function_ < 16
    ensures var t := PciText(p);
            && |t| == 12 && t[4] == ':' as int && t[7] == ':' as int && t[10] == '.' as int
            && Reading(t[..4], 16) == p.domain && Reading(t[5..7], 16) == p.bus && Reading(t[8..10], 16) == p.device
            && Reading(t[11..], 16) == p.function_
  {
    HexReads(p.domain, 4);
    HexReads(p.bus, 2);
    HexReads(p.device, 2);
    HexReads(p.function_, 1);
    hide Hex, Reading;
    var t := PciText(p);
    assert t[..4] == Hex(p.domain, 4) && t[5..7] == Hex(p.bus, 2) && t[8..10] == Hex(p.device, 2);
    assert t[11..] == Hex(p.function_, 1);
  }

  function Pow16(n: nat): nat { if n == 0 then 1 else 16 * Pow16(n - 1) }

  lemma {:induction false} DigitsShort(n: nat, w: nat)
    requires n < Pow16(w) && w > 0
    ensures |Digits(n, 16)| <= w
    decreases w
  {
    if n >= 16 {
      DigitsShort(n / 16, w - 1);
    }
  }

  lemma {:induction false} PaddedLength(s: Text, w: nat)
    requires |s| <= w && forall c :: c in s ==> IsDigitChar(c)
    ensures |Padded(s, w)| == w
    decreases w - |s|
  {
    if |s| < w {
      PaddedLength([48] + s, w);
    }
  }

  lemma HexReads(n: nat, w: nat)
    requires n < Pow16(w) && w > 0
    ensures |Hex(n, w)| == w && Reading(Hex(n, w), 16) == n
  {
    DigitsShort(n, w);
    PaddedLength(Digits(n, 16), w);
    ReadingDigits(n, 16);
    ReadingPadded(Digits(n, 16), w, 16);
  }

  /** Digits are spelled in ASCII codes, those from ten on as small letters. */
  lemma DigitsSpelled(d: nat)
    requires d < 16
    ensures Digits(d, 16) == ["0123456789abcdef"[d] as int]
    ensures d < 10 ==> Digits(d, 10) == ["0123456789abcdef"[d] as int]
  {
    assert "0123456789abcdef"[d] as int == if d < 10 then 48 + d else 87 + d;
  }
}
