/** The store image: header, snapshot payload, checksum. */
module Persistence {
  import opened Basics
  import opened Codec
  import opened ByteStream
  import opened Crc
  import opened RegisterBits
  import opened Border
  import opened FleetStore
  import opened SnapshotCodec

  const STORE_MAGIC: u32 := 0x47464C45
  const SCHEMA_VERSION: u32 := 1
  const HEADER: nat := 16
  const TRAILER: nat := 4
  const MAX_BODY: u64 := 0x8000_0000

  /** The digest by which a recovered state is compared with the persisted one. */
  function Digest(s: Snapshot): u32 { Crc32(PutSnapshot(s, [])) }

  method SnapshotDigest(s: Snapshot) returns (d: u32)
    ensures d == Digest(s)
  {
    var body := EncodeSnapshot(s);
    d := ComputeCrc32(body);
  }

  /** The part of an image that the checksum covers. */
  function Checked(body: Bytes): Bytes {
    PutU32(STORE_MAGIC, PutU32(SCHEMA_VERSION, PutU64(|body| % 0x1_0000_0000_0000_0000, body)))
  }

  function Image(s: Snapshot): Bytes {
    var covered := Checked(PutSnapshot(s, []));
    covered + PutU32(Crc32(covered), [])
  }

  method WriteChecked(body: Bytes) returns (covered: Bytes)
    ensures covered == Checked(body)
  {
    hide PutU32, PutU64;
    var w := new ByteWriter();
    w.U32(STORE_MAGIC);
    w.U32(SCHEMA_VERSION);
    w.U64(|body| % 0x1_0000_0000_0000_0000);
    w.Raw(body);
    covered := w.buf;
    assert body + [] == body;
    Whole(covered, Checked(body));
  }

  method SaveImage(s: Snapshot) returns (bytes: Bytes)
    ensures bytes == Image(s)
  {
    hide PutU32, Crc32, PutSnapshot, Checked;
    var body := EncodeSnapshot(s);
    var covered := WriteChecked(body);
    var crc := ComputeCrc32(covered);
    var c := new ByteWriter();
    c.U32(crc);
    Whole(c.buf, PutU32(crc, []));
    bytes := covered + c.buf;
  }

  datatype Header = Header(magic: u32, version: u32, length: u64)

  function GetHeader(s: Bytes): Parsed<Header> {
    var (magic, s) :- GetU32(s);
    var (version, s) :- GetU32(s);
    var (length, s) :- GetU64(s);
    Got(Header(magic, version, length), s)
  }

  /** Why an image is not worth decoding, if it is not. */
  function Inspect(data: Bytes): (r: Result<Bytes>)
  {
    if |data| < HEADER + TRAILER then Failure(Truncated) else
      var h := GetHeader(data).value;
      if h.magic != STORE_MAGIC then Failure(Corrupt) else
      if h.version != SCHEMA_VERSION then Failure(VersionMismatch) else
      if h.length > MAX_BODY then Failure(OutOfBounds) else
      if |data| != HEADER + h.length + TRAILER then Failure(Truncated) else
      if Crc32(data[..HEADER + h.length]) != GetU32(data[HEADER + h.length..]).value then Failure(Corrupt) else
        Success(data[HEADER..HEADER + h.length])
  }

  function Loaded(data: Bytes): Result<Snapshot> {
    match Inspect(data)
    case Failure(why) => Failure(why)
    case Success(body) => Decoded(body)
  }

  lemma HeaderThere(data: Bytes)
    requires |data| >= HEADER
    ensures GetHeader(data).Got? && GetHeader(data).rest == data[HEADER..]
  {
    var s, t := data[4..], data[8..];
    assert GetU32(data).Got? && GetU32(data).rest == s;
    assert GetU32(s).Got? && GetU32(s).rest == t;
    assert GetU64(t).Got? && GetU64(t).rest == data[HEADER..];
    hide GetU32, GetU64;
  }

  method ReadHeader(r: ByteReader) returns (ok: bool, h: Header)
    requires r.Valid()
    modifies r`pos
    ensures r.Took(GetHeader(old(r.Rest())), ok, h)
  {
    hide GetU32, GetU64;
    h := Header(0, 0, 0);
    var w, u;
    ok, w := r.U32();
    if !ok { return; }
    h := h.(magic := w);
    ok, w := r.U32();
    if !ok { return; }
    h := h.(version := w);
    ok, u := r.U64();
    if !ok { return; }
    h := h.(length := u);
  }

  method LoadImage(bytes: Bytes) returns (out: Result<Snapshot>)
    ensures out == Loaded(bytes)
  {
    hide GetHeader, GetU32, Crc32, Decoded;
    if |bytes| < 4 + 4 + 8 + 4 {
      return Failure(Truncated);
    }
    HeaderThere(bytes);
    var r := new ByteReader(bytes);
    var ok, h := ReadHeader(r);
    if h.magic != STORE_MAGIC {
      return Failure(Corrupt);
    }
    if h.version != SCHEMA_VERSION {
      return Failure(VersionMismatch);
    }
    if h.length > MAX_BODY {
      return Failure(OutOfBounds);
    }
    if |bytes| != 4 + 4 + 8 + h.length + 4 {
      return Failure(Truncated);
    }
    var trailer := new ByteReader(bytes[HEADER + h.length..]);
    var stored;
    ok, stored := trailer.U32();
    TrailerThere(bytes[HEADER + h.length..]);
    var computed := ComputeCrc32(bytes[..|bytes| - 4]);
    if computed != stored {
      return Failure(Corrupt);
    }
    out := DecodeSnapshot(bytes[HEADER..HEADER + h.length]);
  }

  lemma TrailerThere(t: Bytes)
    requires |t| == TRAILER
    ensures GetU32(t).Got?
  {
  }

  // ---- What was saved comes back ----

  lemma CheckedShape(body: Bytes, rest: Bytes)
    ensures |Checked(body)| == HEADER + |body|
    ensures Checked(body)[HEADER..] == body
    ensures GetHeader(Checked(body) + rest)
            == Got(Header(STORE_MAGIC, SCHEMA_VERSION, |body| % 0x1_0000_0000_0000_0000), body + rest)
  {
    hide PutU32, PutU64, GetU32, GetU64;
    var n: u64 := |body| % 0x1_0000_0000_0000_0000;
    AppendU64(n, body, rest);
    var p := PutU64(n, body);
    AppendU32(SCHEMA_VERSION, p, rest);
    var q := PutU32(SCHEMA_VERSION, p);
    AppendU32(STORE_MAGIC, q, rest);
    HeaderThere(Checked(body));
  }

  lemma ImageParts(s: Snapshot)
    ensures var body := PutSnapshot(s, []); var n := HEADER + |body|;
            && |Image(s)| == n + TRAILER
            && Image(s)[..n] == Checked(body) && Image(s)[HEADER..n] == body
            && GetU32(Image(s)[n..]) == Got(Crc32(Checked(body)), [])
            && GetHeader(Image(s)).Got?
            && GetHeader(Image(s)).value == Header(STORE_MAGIC, SCHEMA_VERSION, |body| % 0x1_0000_0000_0000_0000)
  {
    hide PutU32, GetU32, Crc32, GetHeader, PutSnapshot, Checked;
    var body := PutSnapshot(s, []);
    var covered := Checked(body);
    var crc := PutU32(Crc32(covered), []);
    AppendU32(Crc32(covered), [], []);
    CheckedShape(body, crc);
    var image := covered + crc;
    assert image[..|covered|] == covered && image[|covered|..] == crc;
    assert image[HEADER..|covered|] == covered[HEADER..];
  }

  /** A saved snapshot is loaded back clipped exactly when it is within the decoder's bounds and its payload within
    * the loader's.
    */
  lemma LoadSave(s: Snapshot)
    requires Countable(s)
    ensures InBounds(s) && |PutSnapshot(s, [])| <= MAX_BODY ==> Loaded(Image(s)) == Success(Clipped(s))
    ensures !(InBounds(s) && |PutSnapshot(s, [])| <= MAX_BODY) ==> Loaded(Image(s)).Failure?
  {
    hide GetU32, Crc32, GetHeader, PutSnapshot, Checked, Image, Decoded, InBounds, Countable, Clipped;
    ImageParts(s);
    SnapshotRoundTrip(s);
  }

  /** The digest of what is loaded back is the digest of what was saved. */
  lemma DigestStable(s: Snapshot)
    requires DistinctClips(s.devices)
    ensures Digest(Clipped(s)) == Digest(s)
  {
    hide PutSnapshot, Crc32, Clipped, DistinctClips;
    ReencodesTheSame(s, []);
  }

  // ---- Damage ----

  /** The header in front decides which length is accepted. */
  lemma SameHeader(a: Bytes, b: Bytes)
    requires |a| >= HEADER && |b| >= HEADER && a[..HEADER] == b[..HEADER]
    ensures GetHeader(a).Got? && GetHeader(b).Got? && GetHeader(a).value == GetHeader(b).value
  {
    HeaderThere(a);
    HeaderThere(b);
    HeaderThere(a[..HEADER]);
    HeaderExtends(a[..HEADER], a[HEADER..]);
    HeaderExtends(b[..HEADER], b[HEADER..]);
    hide GetHeader;
    assert a == a[..HEADER] + a[HEADER..] && b == b[..HEADER] + b[HEADER..];
  }

  lemma HeaderExtends(s: Bytes, e: Bytes)
    requires GetHeader(s).Got?
    ensures GetHeader(s + e) == GetHeader(s).Before(e)
  {
    hide GetU32, GetU64;
    var r := SkipU32(s, e);
    r := SkipU32(r, e);
    r := SkipU64(r, e);
  }

  /** An image with anything cut off its end or added to it is rejected. */
  lemma CutOrExtendedRejected(image: Bytes, data: Bytes)
    requires Loaded(image).Success? && data != image && (data <= image || image <= data)
    ensures Loaded(data) == Failure(Truncated)
  {
    hide GetHeader, GetU32, Crc32, Decoded;
    if |data| >= HEADER + TRAILER {
      assert data[..HEADER] == image[..HEADER];
      SameHeader(image, data);
      assert |data| == |image| ==> data == image;
    }
  }

  /** Header and length are as the loader wants them. */
  predicate Proper(image: Bytes)
    requires |image| >= HEADER + TRAILER
  {
    var h := GetHeader(image).value;
    h.magic == STORE_MAGIC && h.version == SCHEMA_VERSION && h.length <= MAX_BODY && |image| == HEADER + h.length + TRAILER
  }

  /** When the decoder is reached. */
  lemma InspectSealed(image: Bytes)
    requires |image| >= HEADER + TRAILER
    ensures Inspect(image).Success? <==> Proper(image) && Sealed(image, |image| - TRAILER)
  {
    hide GetHeader, GetU32, Crc32;
  }

  /** An image changed within four consecutive bytes, wherever they are, is rejected before it is decoded, unless the
    * change is of the one pattern across the border of payload and checksum that the checksum does not see.
    */
  lemma DamageRejected(image: Bytes, data: Bytes, k: nat)
    requires Loaded(image).Success? && data != image
    requires k + 4 <= |image| && DifferWithin(image, data, k)
    ensures |image| >= HEADER + TRAILER
    ensures Inspect(data).Success? <==> Slips(image, data, |image| - TRAILER)
    ensures !Slips(image, data, |image| - TRAILER) ==> Loaded(data).Failure?
  {
    LoadedLength(image);
    assert |data| == |image|;
    hide *;
    var n := |image| - TRAILER;
    InspectSealed(image);
    InspectSealed(data);
    BurstExact(image, data, k, n);
    if Slips(image, data, n) {
      SlippedHeader(image, data, n);
    }
    InspectedFirst(data);
  }

  lemma SlippedHeader(image: Bytes, data: Bytes, n: nat)
    requires |image| == |data| == n + TRAILER && n >= HEADER + 2 && Slips(image, data, n)
    ensures Proper(image) <==> Proper(data)
  {
    hide XorByte, GetHeader;
    assert image[..HEADER] == image[..n - 2][..HEADER] && data[..HEADER] == data[..n - 2][..HEADER];
    SameHeader(image, data);
  }

  lemma InspectedFirst(data: Bytes)
    ensures Inspect(data).Failure? ==> Loaded(data).Failure?
  {
    hide Inspect, Decoded;
  }

  /** In particular, an image with any single byte changed is rejected. */
  lemma SingleByteRejected(image: Bytes, i: nat, b: u8)
    requires Loaded(image).Success? && i < |image| && b != image[i]
    ensures Loaded(image[i := b]).Failure?
  {
    hide Loaded, Decoded;
    assert |image| >= HEADER + TRAILER by { LoadedLength(image); }
    var data := image[i := b];
    var n := |image| - TRAILER;
    var k := if i >= n then n else if i + 4 <= n then i else n - 4;
    assert data[i] != image[i];
    assert data[..k] == image[..k] && data[k + 4..] == image[k + 4..];
    DamageRejected(image, data, k);
    hide XorByte;
    NoDifference(image[n - 2], data[n - 2]);
    NoDifference(image[n], data[n]);
  }

  lemma LoadedLength(image: Bytes)
    requires Loaded(image).Success?
    ensures |image| >= HEADER + TRAILER + 8 && Inspect(image).Success?
  {
    hide GetHeader, GetU32, Crc32, Decoded;
    DecodedLength(Inspect(image).value);
  }

  lemma DecodedLength(body: Bytes)
    requires Decoded(body).Success?
    ensures |body| >= 8
  {
    hide GetNodes, GetWorkers, GetDevices, GetLog;
  }
}
