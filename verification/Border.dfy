/** What the checksum detects when data and stored checksum are damaged together.
  *
  * Shifting the register is linear, so how two registers differ depends only on how the data differ. A burst across the
  * border changes the last bytes of the data and the first bytes of the stored checksum; whether it goes unnoticed is a
  * question about few enough bits to be decided.
  */
module Border {
  import opened Basics
  import opened Codec
  import opened Crc
  import opened RegisterBits

  // ---- How the registers differ after different data ----

  lemma AbsorbGap(r: Register, s: Register, b: u8, c: u8)
    ensures Xor(Absorb(r, b), Absorb(s, c)) == Eight(Xor(Xor(r, s), Byte(b, c)))
  {
    hide Xor, ShiftBy, Load;
    var u, v := Xor(r, Load(b)), Xor(s, Load(c));
    ShiftByLinear(u, v, 8);
    XorMove(r, s, Load(b), Load(c));
    XorLaws(Xor(u, v), Byte(b, c));
  }

  function Gap(a: Bytes, b: Bytes): Register
    requires |a| == |b|
  {
    if a == [] then Register(0) else
      var n := |a| - 1;
      Eight(Xor(Gap(a[..n], b[..n]), Byte(a[n], b[n])))
  }

  lemma {:induction false} RunGap(r: Register, a: Bytes, b: Bytes)
    requires |a| == |b|
    ensures Xor(Run(r, a), Run(r, b)) == Gap(a, b)
  {
    hide Absorb, ShiftBy, Xor, Byte;
    if a == [] {
      XorSelf(r);
    } else {
      var n := |a| - 1;
      RunGap(r, a[..n], b[..n]);
      AbsorbGap(Run(r, a[..n]), Run(r, b[..n]), a[n], b[n]);
    }
  }

  lemma NoGap(a: Bytes)
    ensures Gap(a, a) == Register(0)
  {
    hide Gap, Run;
    RunGap(START, a, a);
    XorSelf(Run(START, a));
  }

  lemma GapStep(a: Bytes, b: Bytes)
    requires |a| == |b| > 0
    ensures var n := |a| - 1; Gap(a, b) == Eight(Xor(Gap(a[..n], b[..n]), Byte(a[n], b[n])))
  {
    hide ShiftBy, Xor, Byte;
  }

  lemma XorNothing(x: Register)
    ensures Xor(Register(0), x) == x
  {
  }

  /** After an equal beginning, only the last bytes count. */
  lemma GapTail(a: Bytes, b: Bytes, j: nat)
    requires 1 <= j <= 3 && |a| == |b| >= j && a[..|a| - j] == b[..|a| - j]
    ensures var n := |a|;
            var z := Byte(a[n - 1], b[n - 1]);
            && (j == 1 ==> Gap(a, b) == Eight(z))
            && (j == 2 ==> Gap(a, b) == Eight(Xor(Eight(Byte(a[n - 2], b[n - 2])), z)))
            && (j == 3 ==> Gap(a, b) == Eight(Xor(Eight(Xor(Eight(Byte(a[n - 3], b[n - 3])), Byte(a[n - 2], b[n - 2]))), z)))
  {
    hide ShiftBy, Xor, Byte, Gap;
    var n := |a|;
    NoGap(a[..n - j]);
    GapStep(a, b);
    if j == 1 {
      XorNothing(Byte(a[n - 1], b[n - 1]));
    } else {
      var a1, b1 := a[..n - 1], b[..n - 1];
      GapStep(a1, b1);
      assert a1[..n - 2] == a[..n - 2] && b1[..n - 2] == b[..n - 2];
      if j == 2 {
        XorNothing(Byte(a[n - 2], b[n - 2]));
      } else {
        var a2, b2 := a[..n - 2], b[..n - 2];
        GapStep(a2, b2);
        assert a2[..n - 3] == a[..n - 3] && b2[..n - 3] == b[..n - 3];
        XorNothing(Byte(a[n - 3], b[n - 3]));
      }
    }
  }

  // ---- Stored checksums ----

  /** A checksum is stored in four bytes exactly when the register they spell is the finished one. */
  lemma StoredMeans(a: Bytes, t: Bytes)
    requires |t| == 4
    ensures Crc32(a) == GetU32(t).value <==> Xor(Run(START, a), START) == Stored(t)
  {
    hide Stored, GetU32, Xor, Run;
    StoredValue(t);
    if Crc32(a) == GetU32(t).value {
      WordValueInjective(Xor(Run(START, a), START).word, Stored(t).word);
    }
  }

  lemma XorCancels(u: Register, v: Register, s: Register)
    ensures Xor(Xor(u, s), Xor(v, s)) == Xor(u, v)
  {
    hide Xor;
    XorMove(u, v, s, s);
    XorSelf(s);
    var x := Xor(Xor(u, s), Xor(v, s));
    XorLaws(x, Register(0));
    XorNothing(x);
  }

  lemma Balance(u: Register, v: Register, s: Register, x: Register, y: Register)
    requires Xor(u, s) == x
    ensures Xor(v, s) == y <==> Xor(u, v) == Xor(x, y)
  {
    hide Xor;
    XorCancels(u, v, s);
    XorCancels(s, v, u);
    XorLaws(u, s);
    XorLaws(u, v);
    XorLaws(v, s);
    XorLaws(x, y);
    XorLaws(y, x);
    assert Xor(x, Xor(u, v)) == Xor(v, s);
    XorLaws(x, Xor(x, y));
  }

  /** Given one checksum that fits, another fits exactly when data and checksums differ alike. */
  lemma FitsAgain(a: Bytes, t: Bytes, b: Bytes, u: Bytes)
    requires |a| == |b| && |t| == |u| == 4 && Crc32(a) == GetU32(t).value
    ensures Crc32(b) == GetU32(u).value <==> Gap(a, b) == Xor(Stored(t), Stored(u))
  {
    hide Stored, GetU32, Xor, Run, Gap, Crc32;
    StoredMeans(a, t);
    StoredMeans(b, u);
    RunGap(START, a, b);
    Balance(Run(START, a), Run(START, b), START, Stored(t), Stored(u));
  }

  // ---- Damage across the border ----

  /** Data with its checksum behind it. */
  predicate Sealed(s: Bytes, n: nat)
    requires |s| == n + 4
  {
    Crc32(s[..n]) == GetU32(s[n..]).value
  }

  /** The one way a burst goes unnoticed: two bytes on either side of the border change, each by a fixed pattern. */
  predicate Slips(s: Bytes, t: Bytes, n: nat)
    requires |s| == |t| == n + 4
  {
    && n >= 2 && s[..n - 2] == t[..n - 2] && s[n + 2..] == t[n + 2..]
    && XorByte(s[n - 2], t[n - 2]) == 0x61 && XorByte(s[n - 1], t[n - 1]) == 0xD8
    && XorByte(s[n], t[n]) == 0xF4 && XorByte(s[n + 1], t[n + 1]) == 0xEE
  }

  lemma SlippedSealed(s: Bytes, t: Bytes, n: nat)
    requires |s| == |t| == n + 4 && Sealed(s, n) && Slips(s, t, n)
    ensures Sealed(t, n)
  {
    hide GetU32, Crc32, Gap, ShiftBy, Xor, XorByte, Byte, Stored, Differing;
    var a, b := s[..n], t[..n];
    FitsAgain(a, s[n..], b, t[n..]);
    StoredXor(s[n..], t[n..]);
    DifferingBits(s[n..], t[n..]);
    assert s[n..][2..] == s[n + 2..] && t[n..][2..] == t[n + 2..];
    assert a[..n - 2] == s[..n - 2] && b[..n - 2] == t[..n - 2];
    GapTail(a, b, 2);
    ByteIs(s[n - 2], t[n - 2]);
    ByteIs(s[n - 1], t[n - 1]);
    ExceptionRegisters();
  }

  /** A burst with one byte before the border. */
  lemma OneBefore(s: Bytes, t: Bytes, n: nat)
    requires |s| == |t| == n + 4 && Sealed(s, n) && Sealed(t, n)
    requires n >= 1 && s[..n - 1] == t[..n - 1] && s[n + 3..] == t[n + 3..]
    ensures s == t
  {
    hide GetU32, Crc32, Gap, ShiftBy, Xor, XorByte, Byte, Stored, Differing;
    var a, b := s[..n], t[..n];
    FitsAgain(a, s[n..], b, t[n..]);
    StoredXor(s[n..], t[n..]);
    DifferingBits(s[n..], t[n..]);
    assert s[n..][3..] == s[n + 3..] && t[n..][3..] == t[n + 3..];
    assert a[..n - 1] == s[..n - 1] && b[..n - 1] == t[..n - 1];
    GapTail(a, b, 1);
    ByteIs(s[n - 1], t[n - 1]);
    OneRegister(Byte(s[n - 1], t[n - 1]));
    Zeros();
    assert s == s[..n - 1] + [s[n - 1]] + s[n..] && t == t[..n - 1] + [t[n - 1]] + t[n..];
  }

  /** A burst with two bytes before the border. */
  lemma TwoBefore(s: Bytes, t: Bytes, n: nat)
    requires |s| == |t| == n + 4 && Sealed(s, n) && Sealed(t, n)
    requires n >= 2 && s[..n - 2] == t[..n - 2] && s[n + 2..] == t[n + 2..]
    ensures s == t || Slips(s, t, n)
  {
    hide GetU32, Crc32, Gap, ShiftBy, Xor, XorByte, Byte, Stored, Differing;
    var a, b := s[..n], t[..n];
    FitsAgain(a, s[n..], b, t[n..]);
    StoredXor(s[n..], t[n..]);
    DifferingBits(s[n..], t[n..]);
    assert s[n..][2..] == s[n + 2..] && t[n..][2..] == t[n + 2..];
    assert a[..n - 2] == s[..n - 2] && b[..n - 2] == t[..n - 2];
    GapTail(a, b, 2);
    ByteIs(s[n - 2], t[n - 2]);
    ByteIs(s[n - 1], t[n - 1]);
    TwoRegisters(Byte(s[n - 2], t[n - 2]), Byte(s[n - 1], t[n - 1]));
    ExceptionRegisters();
    Zeros();
    XorNothing(Register(0));
    assert s == s[..n - 2] + [s[n - 2], s[n - 1]] + s[n..] && t == t[..n - 2] + [t[n - 2], t[n - 1]] + t[n..];
  }

  /** A burst with three bytes before the border. */
  lemma ThreeBefore(s: Bytes, t: Bytes, n: nat)
    requires |s| == |t| == n + 4 && Sealed(s, n) && Sealed(t, n)
    requires n >= 3 && s[..n - 3] == t[..n - 3] && s[n + 1..] == t[n + 1..]
    ensures s == t
  {
    hide GetU32, Crc32, Gap, ShiftBy, Xor, XorByte, Byte, Stored, Differing;
    var a, b := s[..n], t[..n];
    FitsAgain(a, s[n..], b, t[n..]);
    StoredXor(s[n..], t[n..]);
    DifferingBits(s[n..], t[n..]);
    assert s[n..][1..] == s[n + 1..] && t[n..][1..] == t[n + 1..];
    assert a[..n - 3] == s[..n - 3] && b[..n - 3] == t[..n - 3];
    GapTail(a, b, 3);
    ByteIs(s[n - 3], t[n - 3]);
    ByteIs(s[n - 2], t[n - 2]);
    ByteIs(s[n - 1], t[n - 1]);
    ThreeBytes(Byte(s[n - 3], t[n - 3]), Byte(s[n - 2], t[n - 2]), Byte(s[n - 1], t[n - 1]));
    Zeros();
    XorNothing(Register(0));
    assert s == s[..n - 3] + [s[n - 3], s[n - 2], s[n - 1]] + s[n..];
    assert t == t[..n - 3] + [t[n - 3], t[n - 2], t[n - 1]] + t[n..];
  }

  lemma InData(s: Bytes, t: Bytes, k: nat, n: nat)
    requires |s| == |t| == n + 4 && k + 4 <= n && DifferWithin(s, t, k) && Sealed(s, n) && Sealed(t, n)
    ensures s == t
  {
    hide GetU32, Crc32;
    assert s[n..] == s[k + 4..][n - k - 4..] && t[n..] == t[k + 4..][n - k - 4..];
    assert s[..n][..k] == s[..k] && t[..n][..k] == t[..k];
    assert s[..n][k + 4..] == s[k + 4..][..n - k - 4] && t[..n][k + 4..] == t[k + 4..][..n - k - 4];
    BurstDetected(s[..n], t[..n], k);
    assert s == s[..n] + s[n..] && t == t[..n] + t[n..];
  }

  lemma Unnoticed(s: Bytes, t: Bytes, k: nat, n: nat)
    requires |s| == |t| == n + 4 && k <= n && DifferWithin(s, t, k) && Sealed(s, n) && Sealed(t, n)
    ensures s == t || Slips(s, t, n)
  {
    hide GetU32, Crc32, XorByte;
    if k + 4 <= n {
      InData(s, t, k, n);
    } else if k == n {
      U32Injective(s[n..], t[n..]);
      assert s == s[..n] + s[n..] && t == t[..n] + t[n..];
    } else if k + 1 == n {
      OneBefore(s, t, n);
    } else if k + 2 == n {
      TwoBefore(s, t, n);
    } else {
      ThreeBefore(s, t, n);
    }
  }

  /** A burst of four bytes anywhere, in data, checksum or across the border, goes unnoticed exactly when it slips. */
  lemma BurstExact(s: Bytes, t: Bytes, k: nat, n: nat)
    requires |s| == |t| == n + 4 && k <= n && DifferWithin(s, t, k) && s != t && Sealed(s, n)
    ensures Sealed(t, n) <==> Slips(s, t, n)
  {
    hide Sealed, Slips;
    if Slips(s, t, n) {
      SlippedSealed(s, t, n);
    }
    if Sealed(t, n) {
      Unnoticed(s, t, k, n);
    }
  }
}
