/** Big-endian encoding: the writer and the cursor reader, and what their output means.
  *
  * A format is a pair of functions. `Put` prepends the encoding of a value to the bytes that follow it;
  * `Get` takes a value off the front of the remaining bytes. The writer and reader classes are proved
  * to follow these functions.
  */
module Codec {
  import opened Basics

  datatype Parsed<+T> = Fail(why: Status) | Got(value: T, rest: Bytes) {
    predicate IsFailure() { Fail? }

    function PropagateFailure<U>(): Parsed<U>
      requires Fail?
    {
      Fail(why)
    }

    function Extract(): (T, Bytes)
      requires Got?
    {
      (value, rest)
    }

    /** The same outcome with extra bytes after the unread ones. */
    function Before(extra: Bytes): Parsed<T> {
      if Got? then Got(value, rest + extra) else this
    }

    /** The same outcome, with every failure reported as why. */
    function Or(why: Status): Parsed<T> {
      if Got? then this else Fail(why)
    }
  }

  // ---- Fixed-width integers ----

  function Pow256(n: nat): (p: nat)
    ensures p > 0
  {
    if n == 0 then 1 else 256 * Pow256(n - 1)
  }

  function Big(v: nat, n: nat): (r: Bytes)
    ensures |r| == n
    decreases n, v
  {
    if n == 0 then [] else Big(v / 256, n - 1) + [v % 256]
  }

  function Val(s: Bytes): nat {
    if s == [] then 0 else Val(s[..|s| - 1]) * 256 + s[|s| - 1]
  }

  lemma {:induction false} ValBig(v: nat, n: nat)
    requires v < Pow256(n)
    ensures Val(Big(v, n)) == v
    decreases n
  {
    if n > 0 {
      ValBig(v / 256, n - 1);
      assert Big(v, n)[..n - 1] == Big(v / 256, n - 1);
    }
  }

  lemma {:induction false} ValBound(s: Bytes)
    ensures Val(s) < Pow256(|s|)
  {
    if s != [] {
      ValBound(s[..|s| - 1]);
    }
  }

  lemma Widths()
    ensures Pow256(1) == 0x100 && Pow256(2) == 0x1_0000 && Pow256(4) == 0x1_0000_0000
    ensures Pow256(8) == 0x1_0000_0000_0000_0000
  {
    assert Pow256(6) == 256 * 256 * Pow256(4);
  }

  function PutBig(v: nat, n: nat, rest: Bytes): Bytes { Big(v, n) + rest }

  function GetBig(s: Bytes, n: nat): (r: Parsed<nat>)
    ensures r.Got? ==> r.value < Pow256(n)
  {
    if |s| < n then Fail(Truncated) else
      ValBound(s[..n]);
      Got(Val(s[..n]), s[n..])
  }

  lemma GetPutBig(v: nat, n: nat, rest: Bytes)
    requires v < Pow256(n)
    ensures GetBig(PutBig(v, n, rest), n) == Got(v, rest)
  {
    ValBig(v, n);
    assert (Big(v, n) + rest)[..n] == Big(v, n);
  }

  lemma ExtendBig(s: Bytes, n: nat, e: Bytes)
    requires GetBig(s, n).Got?
    ensures GetBig(s + e, n) == GetBig(s, n).Before(e)
  {
    assert (s + e)[..n] == s[..n];
    assert (s + e)[n..] == s[n..] + e;
  }

  function PutU8(v: u8, rest: Bytes): (r: Bytes)
    ensures GetU8(r) == Got(v, rest)
  {
    [v] + rest
  }

  function GetU8(s: Bytes): Parsed<u8> {
    if s == [] then Fail(Truncated) else Got(s[0], s[1..])
  }

  function PutU16(v: u16, rest: Bytes): (r: Bytes)
    ensures GetU16(r) == Got(v, rest)
  {
    Widths();
    GetPutBig(v, 2, rest);
    PutBig(v, 2, rest)
  }

  function GetU16(s: Bytes): Parsed<u16> {
    Widths();
    var (v, s) :- GetBig(s, 2);
    Got(v, s)
  }

  function PutU32(v: u32, rest: Bytes): (r: Bytes)
    ensures GetU32(r) == Got(v, rest)
  {
    Widths();
    GetPutBig(v, 4, rest);
    PutBig(v, 4, rest)
  }

  function GetU32(s: Bytes): Parsed<u32> {
    Widths();
    var (v, s) :- GetBig(s, 4);
    Got(v, s)
  }

  function PutU64(v: u64, rest: Bytes): (r: Bytes)
    ensures GetU64(r) == Got(v, rest)
  {
    Widths();
    GetPutBig(v, 8, rest);
    PutBig(v, 8, rest)
  }

  function GetU64(s: Bytes): Parsed<u64> {
    Widths();
    var (v, s) :- GetBig(s, 8);
    Got(v, s)
  }

  /** Two's complement. */
  function Unsigned(v: i64): u64 { if v < 0 then v + 0x1_0000_0000_0000_0000 else v }

  function Signed(v: u64): i64 { if v < 0x8000_0000_0000_0000 then v else v - 0x1_0000_0000_0000_0000 }

  function PutI64(v: i64, rest: Bytes): (r: Bytes)
    ensures GetI64(r) == Got(v, rest)
  {
    PutU64(Unsigned(v), rest)
  }

  function GetI64(s: Bytes): Parsed<i64> {
    var (v, s) :- GetU64(s);
    Got(Signed(v), s)
  }

  /** Keeping the low 32 bits of a signed number, as a narrowing cast does. */
  function Narrow(v: i64): i32 {
    var w := v % 0x1_0000_0000;
    if w < 0x8000_0000 then w else w - 0x1_0000_0000
  }

  /** How a flag is written; any byte but zero reads as true. */
  function Flag(b: bool): u8 { if b then 1 else 0 }

  /** Four bytes are determined by the number they spell. */
  lemma U32Injective(a: Bytes, b: Bytes)
    requires |a| == |b| == 4 && GetU32(a).value == GetU32(b).value
    ensures a == b
  {
    assert a[..4] == a && b[..4] == b;
    ValInjective(a, b);
  }

  lemma {:induction false} ValInjective(a: Bytes, b: Bytes)
    requires |a| == |b| && Val(a) == Val(b)
    ensures a == b
  {
    if a != [] {
      var n := |a| - 1;
      ValInjective(a[..n], b[..n]);
      assert a == a[..n] + [a[n]] && b == b[..n] + [b[n]];
    }
  }

  // ---- Length-prefixed strings and blobs ----

  function Clip(s: Text, max: u32): (r: Text)
    ensures |r| <= max
    ensures |s| <= max ==> r == s
  {
    if |s| > max then s[..max] else s
  }

  function GetBytes(s: Bytes, max: u32): Parsed<Bytes> {
    var (n, s) :- GetU32(s);
    if n > max then Fail(OutOfBounds) else
    if n > |s| then Fail(Truncated) else Got(s[..n], s[n..])
  }

  /** A string read reports every failure as a truncation. */
  function GetText(s: Bytes, max: u32): Parsed<Text> {
    GetBytes(s, max).Or(Truncated)
  }

  /** Over-long strings are cut to max bytes by the writer. */
  function PutText(t: Text, max: u32, rest: Bytes): (r: Bytes)
    ensures GetText(r, max) == Got(Clip(t, max), rest)
  {
    var c := Clip(t, max);
    assert (c + rest)[..|c|] == c;
    PutU32(|c|, c + rest)
  }

  /** A blob is written whole, behind the low 32 bits of its length. */
  function PutBlob(b: Bytes, rest: Bytes): Bytes {
    PutU32(|b| % 0x1_0000_0000, b + rest)
  }

  const MAX_BLOB: u32 := 0x7FFF_FFFF

  // ---- Optional 64-bit values behind a presence byte ----

  function PutOptional(v: Option<u64>, rest: Bytes): (r: Bytes)
    ensures GetOptional(r) == Got(v, rest)
  {
    match v
    case None => PutU8(0, rest)
    case Some(x) => PutU8(1, PutU64(x, rest))
  }

  function GetOptional(s: Bytes): Parsed<Option<u64>> {
    var (present, s) :- GetU8(s);
    if present == 0 then Got(None, s) else
      var (x, s) :- GetU64(s);
      Got(Some(x), s)
  }

  // ---- Lists ----

  function PutAll<T>(xs: seq<T>, put: (T, Bytes) -> Bytes, rest: Bytes): Bytes {
    if xs == [] then rest else put(xs[0], PutAll(xs[1..], put, rest))
  }

  function GetAll<T>(n: nat, get: Bytes -> Parsed<T>, s: Bytes): (r: Parsed<seq<T>>)
    ensures r.Got? ==> |r.value| == n
    decreases n, s
  {
    if n == 0 then Got([], s) else
      var (x, s) :- get(s);
      var (xs, s) :- GetAll(n - 1, get, s);
      Got([x] + xs, s)
  }

  function MapSeq<T, U>(f: T -> U, xs: seq<T>): (r: seq<U>)
    ensures |r| == |xs|
    ensures forall i :: 0 <= i < |xs| ==> r[i] == f(xs[i])
  {
    seq(|xs|, i requires 0 <= i < |xs| => f(xs[i]))
  }

  /** A list comes back element by element when every element does. */
  lemma {:induction false} GetPutAll<T(!new), U>(xs: seq<T>, put: (T, Bytes) -> Bytes, get: Bytes -> Parsed<U>,
                                                  clip: T -> U, rest: Bytes)
    requires forall x, r :: x in xs ==> get(put(x, r)) == Got(clip(x), r)
    ensures GetAll(|xs|, get, PutAll(xs, put, rest)) == Got(MapSeq(clip, xs), rest)
  {
    if xs != [] {
      GetPutAll(xs[1..], put, get, clip, rest);
      assert get(put(xs[0], PutAll(xs[1..], put, rest))) == Got(clip(xs[0]), PutAll(xs[1..], put, rest));
      assert [clip(xs[0])] + MapSeq(clip, xs[1..]) == MapSeq(clip, xs);
    } else {
      assert MapSeq(clip, xs) == [];
    }
  }

  /** Reading further bytes does not change what is read from the first ones. */
  ghost predicate Extends<T(!new)>(get: Bytes -> Parsed<T>) {
    forall s, e :: get(s).Got? ==> get(s + e) == get(s).Before(e)
  }

  lemma {:induction false} ExtendAll<T(!new)>(n: nat, get: Bytes -> Parsed<T>, s: Bytes, e: Bytes)
    requires Extends(get) && GetAll(n, get, s).Got?
    ensures GetAll(n, get, s + e) == GetAll(n, get, s).Before(e)
    decreases n
  {
    if n > 0 {
      assert get(s + e) == get(s).Before(e);
      ExtendAll(n - 1, get, get(s).rest, e);
    }
  }

  /** A counted list; a count above the limit is refused with the given status. */
  function PutCounted<T>(xs: seq<T>, put: (T, Bytes) -> Bytes, rest: Bytes): Bytes {
    PutU32(|xs| % 0x1_0000_0000, PutAll(xs, put, rest))
  }

  function GetCounted<T>(limit: u32, tooMany: Status, get: Bytes -> Parsed<T>, s: Bytes): Parsed<seq<T>> {
    var (n, s) :- GetU32(s);
    if n > limit then Fail(tooMany) else GetAll(n, get, s)
  }

  lemma GetPutCounted<T(!new), U>(xs: seq<T>, put: (T, Bytes) -> Bytes, limit: u32, tooMany: Status,
                                  get: Bytes -> Parsed<U>, clip: T -> U, rest: Bytes)
    requires |xs| <= limit
    requires forall x, r :: x in xs ==> get(put(x, r)) == Got(clip(x), r)
    ensures GetCounted(limit, tooMany, get, PutCounted(xs, put, rest)) == Got(MapSeq(clip, xs), rest)
  {
    GetPutAll(xs, put, get, clip, rest);
  }

  /** When some elements do not fit, the list comes back exactly when all of its elements do. */
  lemma {:induction false} GetPutAllExact<T(!new), U>(xs: seq<T>, put: (T, Bytes) -> Bytes, get: Bytes -> Parsed<U>,
                                                       clip: T -> U, fits: T -> bool, rest: Bytes)
    requires forall x, r :: x in xs && fits(x) ==> get(put(x, r)) == Got(clip(x), r)
    requires forall x, r :: x in xs && !fits(x) ==> get(put(x, r)).Fail?
    ensures (forall x :: x in xs ==> fits(x)) ==>
              GetAll(|xs|, get, PutAll(xs, put, rest)) == Got(MapSeq(clip, xs), rest)
    ensures (exists x :: x in xs && !fits(x)) ==> GetAll(|xs|, get, PutAll(xs, put, rest)).Fail?
  {
    if xs != [] {
      var tail := PutAll(xs[1..], put, rest);
      GetPutAllExact(xs[1..], put, get, clip, fits, rest);
      if fits(xs[0]) {
        assert get(put(xs[0], tail)) == Got(clip(xs[0]), tail);
        assert [clip(xs[0])] + MapSeq(clip, xs[1..]) == MapSeq(clip, xs);
      } else {
        assert get(put(xs[0], tail)).Fail?;
      }
    } else {
      assert MapSeq(clip, xs) == [];
    }
  }

  lemma GetPutCountedExact<T(!new), U>(xs: seq<T>, put: (T, Bytes) -> Bytes, limit: u32, tooMany: Status,
                                       get: Bytes -> Parsed<U>, clip: T -> U, fits: T -> bool, rest: Bytes)
    requires |xs| < 0x1_0000_0000
    requires forall x, r :: x in xs && fits(x) ==> get(put(x, r)) == Got(clip(x), r)
    requires forall x, r :: x in xs && !fits(x) ==> get(put(x, r)).Fail?
    ensures |xs| <= limit && (forall x :: x in xs ==> fits(x)) ==>
              GetCounted(limit, tooMany, get, PutCounted(xs, put, rest)) == Got(MapSeq(clip, xs), rest)
    ensures |xs| > limit || (exists x :: x in xs && !fits(x)) ==>
              GetCounted(limit, tooMany, get, PutCounted(xs, put, rest)).Fail?
  {
    hide PutU32, GetU32;
    GetPutAllExact(xs, put, get, clip, fits, rest);
  }

  // ---- Lengths ----

  /** The sizes of the elements of a list, added up. */
  function TotalSize<T>(xs: seq<T>, size: T -> nat): nat {
    if xs == [] then 0 else size(xs[0]) + TotalSize(xs[1..], size)
  }

  lemma {:induction false} AllLength<T(!new)>(xs: seq<T>, put: (T, Bytes) -> Bytes, size: T -> nat, rest: Bytes)
    requires forall x, r :: |put(x, r)| == size(x) + |r|
    ensures |PutAll(xs, put, rest)| == TotalSize(xs, size) + |rest|
  {
    if xs != [] {
      AllLength(xs[1..], put, size, rest);
    }
  }

  /** A counted list takes four bytes and what its elements take. */
  lemma CountedLength<T(!new)>(xs: seq<T>, put: (T, Bytes) -> Bytes, size: T -> nat, rest: Bytes)
    requires forall x, r :: |put(x, r)| == size(x) + |r|
    ensures |PutCounted(xs, put, rest)| == 4 + TotalSize(xs, size) + |rest|
  {
    AllLength(xs, put, size, rest);
    IntegerLength(|xs| % 0x1_0000_0000, PutAll(xs, put, rest));
    hide PutAll, PutU32;
  }

  lemma {:induction false} TotalBound<T>(xs: seq<T>, size: T -> nat, most: nat)
    requires forall x :: size(x) <= most
    ensures TotalSize(xs, size) <= most * |xs|
  {
    if xs != [] {
      TotalBound(xs[1..], size, most);
    }
  }

  lemma TextLength(t: Text, max: u32, rest: Bytes)
    ensures |PutText(t, max, rest)| == 4 + |Clip(t, max)| + |rest| && |Clip(t, max)| <= max
  {
    AppendU32(|Clip(t, max)|, Clip(t, max) + rest, []);
  }

  lemma IntegerLength(v: int, rest: Bytes)
    ensures 0 <= v < 0x1_0000_0000_0000_0000 ==> |PutU64(v, rest)| == 8 + |rest|
    ensures 0 <= v < 0x1_0000_0000 ==> |PutU32(v, rest)| == 4 + |rest|
    ensures 0 <= v < 0x1_0000 ==> |PutU16(v, rest)| == 2 + |rest|
    ensures 0 <= v < 0x100 ==> |PutU8(v, rest)| == 1 + |rest|
    ensures -0x8000_0000_0000_0000 <= v < 0x8000_0000_0000_0000 ==> |PutI64(v, rest)| == 8 + |rest|
  {
  }

  function OptionalSize(v: Option<u64>): nat { if v.Some? then 9 else 1 }

  lemma OptionalLength(v: Option<u64>, rest: Bytes)
    ensures |PutOptional(v, rest)| == OptionalSize(v) + |rest|
  {
  }

  // ---- What is appended after an encoding is what follows it ----

  lemma AppendU8(v: u8, a: Bytes, b: Bytes)
    ensures PutU8(v, a) + b == PutU8(v, a + b) && |PutU8(v, a)| == 1 + |a|
  {
  }

  lemma AppendU16(v: u16, a: Bytes, b: Bytes)
    ensures PutU16(v, a) + b == PutU16(v, a + b) && |PutU16(v, a)| == 2 + |a|
  {
    assert (Big(v, 2) + a) + b == Big(v, 2) + (a + b);
  }

  lemma AppendU32(v: u32, a: Bytes, b: Bytes)
    ensures PutU32(v, a) + b == PutU32(v, a + b) && |PutU32(v, a)| == 4 + |a|
  {
    assert (Big(v, 4) + a) + b == Big(v, 4) + (a + b);
  }

  lemma AppendU64(v: u64, a: Bytes, b: Bytes)
    ensures PutU64(v, a) + b == PutU64(v, a + b) && |PutU64(v, a)| == 8 + |a|
  {
    assert (Big(v, 8) + a) + b == Big(v, 8) + (a + b);
  }

  /** A writer that started empty holds exactly what it wrote. */
  lemma Whole(buf: Bytes, encoding: Bytes)
    requires buf + [] == [] + encoding
    ensures buf == encoding
  {
    assert buf + [] == buf && [] + encoding == encoding;
  }

  // ---- One step of reading a longer input: the step is unchanged, and so is what it leaves ----

  lemma SkipU8(s: Bytes, e: Bytes) returns (r: Bytes)
    requires GetU8(s).Got?
    ensures r == GetU8(s).rest && GetU8(s + e) == Got(GetU8(s).value, r + e)
  {
    r := GetU8(s).rest;
    assert (s + e)[1..] == s[1..] + e;
  }

  lemma SkipU16(s: Bytes, e: Bytes) returns (r: Bytes)
    requires GetU16(s).Got?
    ensures r == GetU16(s).rest && GetU16(s + e) == Got(GetU16(s).value, r + e)
  {
    ExtendBig(s, 2, e);
    r := GetU16(s).rest;
  }

  lemma SkipU32(s: Bytes, e: Bytes) returns (r: Bytes)
    requires GetU32(s).Got?
    ensures r == GetU32(s).rest && GetU32(s + e) == Got(GetU32(s).value, r + e)
  {
    ExtendBig(s, 4, e);
    r := GetU32(s).rest;
  }

  lemma SkipU64(s: Bytes, e: Bytes) returns (r: Bytes)
    requires GetU64(s).Got?
    ensures r == GetU64(s).rest && GetU64(s + e) == Got(GetU64(s).value, r + e)
  {
    ExtendBig(s, 8, e);
    r := GetU64(s).rest;
  }

  lemma SkipI64(s: Bytes, e: Bytes) returns (r: Bytes)
    requires GetI64(s).Got?
    ensures r == GetI64(s).rest && GetI64(s + e) == Got(GetI64(s).value, r + e)
  {
    r := SkipU64(s, e);
  }

  lemma SkipBytes(s: Bytes, max: u32, e: Bytes) returns (r: Bytes)
    requires GetBytes(s, max).Got?
    ensures r == GetBytes(s, max).rest && GetBytes(s + e, max) == Got(GetBytes(s, max).value, r + e)
  {
    var t := SkipU32(s, e);
    var n := GetU32(s).value;
    assert (t + e)[..n] == t[..n] && (t + e)[n..] == t[n..] + e;
    r := t[n..];
  }

  lemma SkipText(s: Bytes, max: u32, e: Bytes) returns (r: Bytes)
    requires GetText(s, max).Got?
    ensures r == GetText(s, max).rest && GetText(s + e, max) == Got(GetText(s, max).value, r + e)
  {
    r := SkipBytes(s, max, e);
  }

  lemma SkipOptional(s: Bytes, e: Bytes) returns (r: Bytes)
    requires GetOptional(s).Got?
    ensures r == GetOptional(s).rest && GetOptional(s + e) == Got(GetOptional(s).value, r + e)
  {
    r := SkipU8(s, e);
    if GetU8(s).value != 0 {
      r := SkipU64(r, e);
    }
  }

  lemma SkipCounted<T(!new)>(limit: u32, tooMany: Status, get: Bytes -> Parsed<T>, s: Bytes, e: Bytes) returns (r: Bytes)
    requires Extends(get) && GetCounted(limit, tooMany, get, s).Got?
    ensures r == GetCounted(limit, tooMany, get, s).rest
    ensures GetCounted(limit, tooMany, get, s + e) == Got(GetCounted(limit, tooMany, get, s).value, r + e)
  {
    r := SkipU32(s, e);
    ExtendAll(GetU32(s).value, get, r, e);
    r := GetCounted(limit, tooMany, get, s).rest;
  }

  // ---- Decoding whole inputs ----

  /** What a decoder makes of a whole input: nothing may be left over. */
  function Entire<T>(p: Parsed<T>): Result<T> {
    match p
    case Fail(why) => Failure(why)
    case Got(v, rest) => if rest == [] then Success(v) else Failure(Malformed)
  }

  lemma LongerLeavesMore<T(!new)>(get: Bytes -> Parsed<T>, s: Bytes, e: Bytes)
    requires Extends(get) && get(s).Got?
    ensures get(s + e).Got? && (e != [] ==> get(s + e).rest != [])
  {
    assert get(s + e) == get(s).Before(e);
  }

  /** When a format is read the same way in front of further bytes, an input read to its end is refused with
    * anything cut off or added.
    */
  lemma NeitherShorterNorLonger<T(!new)>(get: Bytes -> Parsed<T>, whole: Bytes, data: Bytes)
    requires Extends(get) && Entire(get(whole)).Success?
    requires data != whole && (data <= whole || whole <= data)
    ensures Entire(get(data)).Failure?
  {
    hide Extends;
    if data <= whole {
      assert whole == data + whole[|data|..];
      if get(data).Got? {
        LongerLeavesMore(get, data, whole[|data|..]);
      }
    } else {
      assert data == whole + data[|whole|..];
      LongerLeavesMore(get, whole, data[|whole|..]);
    }
  }
}
