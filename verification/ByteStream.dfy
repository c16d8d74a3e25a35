/** The growable writer and the bounds-checked cursor reader. */
module ByteStream {
  import opened Basics
  import opened Codec

  lemma TimesMonotone(d: nat, a: int, b: int)
    requires a <= b
    ensures d * a <= d * b
  {
  }

  lemma DivUnique(v: nat, d: nat, q: nat, r: nat)
    requires d > 0 && v == d * q + r && r < d
    ensures v / d == q
  {
    var w := v / d;
    assert d * w <= v < d * w + d;
    if w > q {
      TimesMonotone(d, q + 1, w);
      assert false;
    } else if w < q {
      TimesMonotone(d, w + 1, q);
      assert false;
    }
  }

  /** Dropping one byte at a time is dividing by the next power. */
  lemma DivPow(v: nat, i: nat)
    requires i > 0
    ensures (v / Pow256(i - 1)) / 256 == v / Pow256(i)
  {
    var p := Pow256(i - 1);
    var q, r := v / p, v % p;
    var a, b := q / 256, q % 256;
    TimesMonotone(p, 0, b);
    TimesMonotone(p, b, 255);
    assert v == (256 * p) * a + (p * b + r) by {
      assert v == p * q + r;
      assert p * q == p * (256 * a) + p * b;
      assert p * (256 * a) == (256 * p) * a;
    }
    DivUnique(v, 256 * p, a, p * b + r);
  }

  lemma BigTwo(v: nat)
    ensures Big(v, 2) == [v / 0x100 % 256, v % 256]
  {
    assert Big(v / 256, 1) == Big(v / 256 / 256, 0) + [v / 256 % 256];
  }

  lemma BigFour(v: nat)
    ensures Big(v, 4) == [v / 0x100_0000 % 256, v / 0x1_0000 % 256, v / 0x100 % 256, v % 256]
  {
    var w := v / 256;
    assert Big(v, 4) == Big(w, 3) + [v % 256];
    assert Big(w, 3) == Big(w / 256, 2) + [w % 256];
    BigTwo(w / 256);
    assert w / 256 == v / 0x1_0000 && w / 256 / 256 == v / 0x100_0000;
  }

  class ByteWriter {
    var buf: Bytes

    constructor ()
      ensures buf == []
    {
      buf := [];
    }

    method U8(v: u8)
      modifies this
      ensures forall rest: Bytes :: buf + rest == old(buf) + PutU8(v, rest)
    {
      buf := buf + [v];
    }

    method U16(v: u16)
      modifies this
      ensures forall rest: Bytes :: buf + rest == old(buf) + PutU16(v, rest)
    {
      buf := buf + [v / 0x100 % 256];
      buf := buf + [v % 256];
      BigTwo(v);
      assert buf == old(buf) + Big(v, 2);
    }

    method U32(v: u32)
      modifies this
      ensures forall rest: Bytes :: buf + rest == old(buf) + PutU32(v, rest)
    {
      buf := buf + [v / 0x100_0000 % 256];
      buf := buf + [v / 0x1_0000 % 256];
      buf := buf + [v / 0x100 % 256];
      buf := buf + [v % 256];
      BigFour(v);
      assert buf == old(buf) + Big(v, 4);
    }

    method U64(v: u64)
      modifies this
      ensures forall rest: Bytes :: buf + rest == old(buf) + PutU64(v, rest)
    {
      var i := 8;
      assert v / Pow256(8) == 0 by { Widths(); }
      while i > 0
        invariant 0 <= i <= 8
        invariant buf == old(buf) + Big(v / Pow256(i), 8 - i)
      {
        DivPow(v, i);
        i := i - 1;
        buf := buf + [v / Pow256(i) % 256];
      }
      assert v / Pow256(0) == v;
    }

    method I64(v: i64)
      modifies this
      ensures forall rest: Bytes :: buf + rest == old(buf) + PutI64(v, rest)
    {
      U64(Unsigned(v));
    }

    method Raw(b: Bytes)
      modifies this
      ensures buf == old(buf) + b
      ensures forall rest: Bytes :: buf + rest == old(buf) + (b + rest)
    {
      buf := buf + b;
    }

    method Blob(b: Bytes)
      modifies this
      ensures forall rest: Bytes :: buf + rest == old(buf) + PutBlob(b, rest)
    {
      U32(|b| % 0x1_0000_0000);
      Raw(b);
    }

    method Text(s: Text, max: u32)
      modifies this
      ensures forall rest: Bytes :: buf + rest == old(buf) + PutText(s, max, rest)
    {
      var c := s;
      if |s| > max {
        c := s[..max];
      }
      U32(|c|);
      Raw(c);
    }

    method Optional(v: Option<u64>)
      modifies this
      ensures forall rest: Bytes :: buf + rest == old(buf) + PutOptional(v, rest)
    {
      match v
      case None =>
        U8(0);
      case Some(x) =>
        U8(1);
        U64(x);
    }
  }

  class ByteReader {
    const data: Bytes
    var pos: nat

    ghost predicate Valid()
      reads this
    {
      pos <= |data|
    }

    /** The bytes not yet read. */
    ghost function Rest(): Bytes
      reads this
      requires Valid()
    {
      data[pos..]
    }

    constructor (data: Bytes)
      ensures Valid() && this.data == data && pos == 0 && Rest() == data
    {
      this.data := data;
      pos := 0;
    }

    /** What a read did: it failed as the format says, or it took the value off the front. */
    ghost predicate Took<T>(p: Parsed<T>, ok: bool, v: T)
      reads this
    {
      && Valid()
      && ok == p.Got?
      && (ok ==> p == Got(v, Rest()))
    }

    method U8() returns (ok: bool, v: u8)
      requires Valid()
      modifies this`pos
      ensures Took(GetU8(old(Rest())), ok, v)
    {
      if pos + 1 > |data| {
        return false, 0;
      }
      v := data[pos];
      pos := pos + 1;
      ok := true;
    }

    method U16() returns (ok: bool, v: u16)
      requires Valid()
      modifies this`pos
      ensures Took(GetU16(old(Rest())), ok, v)
    {
      if pos + 2 > |data| {
        return false, 0;
      }
      ghost var s := data[pos..][..2];
      assert Val(s) == Val(s[..1]) * 256 + s[1] && s[..1][..0] == [];
      v := (data[pos] as int) * 0x100 + data[pos + 1];
      pos := pos + 2;
      ok := true;
    }

    method U32() returns (ok: bool, v: u32)
      requires Valid()
      modifies this`pos
      ensures Took(GetU32(old(Rest())), ok, v)
    {
      if pos + 4 > |data| {
        return false, 0;
      }
      ghost var s := data[pos..][..4];
      assert s[..3][..2] == s[..2] && s[..2][..1] == s[..1] && s[..1][..0] == [];
      assert Val(s[..1]) == s[0];
      assert Val(s[..2]) == Val(s[..1]) * 256 + s[1];
      assert Val(s[..3]) == Val(s[..2]) * 256 + s[2];
      v := (data[pos] as int) * 0x100_0000 + (data[pos + 1] as int) * 0x1_0000
         + (data[pos + 2] as int) * 0x100 + data[pos + 3];
      pos := pos + 4;
      ok := true;
    }

    method U64() returns (ok: bool, v: u64)
      requires Valid()
      modifies this`pos
      ensures Took(GetU64(old(Rest())), ok, v)
    {
      if pos + 8 > |data| {
        return false, 0;
      }
      ghost var s := data[pos..][..8];
      var w: nat := 0;
      for i := 0 to 8
        invariant pos == old(pos) && w == Val(s[..i])
      {
        assert s[..i + 1][..i] == s[..i];
        w := w * 256 + data[pos + i];
      }
      assert s[..8] == s;
      ValBound(s);
      Widths();
      v := w;
      pos := pos + 8;
      ok := true;
    }

    method I64() returns (ok: bool, v: i64)
      requires Valid()
      modifies this`pos
      ensures Took(GetI64(old(Rest())), ok, v)
    {
      var u;
      ok, u := U64();
      v := Signed(u);
    }

    /** A length-prefixed span; the failure tells an excessive length from a missing one. */
    method Bytes(max: u32) returns (r: Result<Bytes>)
      requires Valid()
      modifies this`pos
      ensures Valid()
      ensures match GetBytes(old(Rest()), max)
              case Fail(why) => r == Failure(why)
              case Got(b, s) => r == Success(b) && Rest() == s
    {
      var ok, n := U32();
      if !ok {
        return Failure(Truncated);
      }
      if n > max {
        return Failure(OutOfBounds);
      }
      if pos + n > |data| {
        return Failure(Truncated);
      }
      r := Success(data[pos..pos + n]);
      assert data[pos..][..n] == data[pos..pos + n];
      pos := pos + n;
    }

    method Text(max: u32) returns (ok: bool, t: Text)
      requires Valid()
      modifies this`pos
      ensures Took(GetText(old(Rest()), max), ok, t)
    {
      var r := Bytes(max);
      if r.Failure? {
        return false, [];
      }
      return true, r.value;
    }

    /** Exactly n raw bytes. */
    method Raw(n: nat) returns (ok: bool, b: Bytes)
      requires Valid()
      modifies this`pos
      ensures Valid()
      ensures ok <==> n <= |old(Rest())|
      ensures ok ==> b == old(Rest())[..n] && Rest() == old(Rest())[n..]
    {
      if pos + n > |data| {
        return false, [];
      }
      b := data[pos..pos + n];
      assert data[pos..][..n] == b;
      pos := pos + n;
      ok := true;
    }

    method Optional() returns (ok: bool, v: Option<u64>)
      requires Valid()
      modifies this`pos
      ensures Took(GetOptional(old(Rest())), ok, v)
    {
      v := None;
      var present;
      ok, present := U8();
      if ok && present != 0 {
        var x;
        ok, x := U64();
        v := Some(x);
      }
    }

    method Done() returns (done: bool)
      requires Valid()
      ensures done <==> Rest() == []
    {
      done := pos == |data|;
    }
  }
}
