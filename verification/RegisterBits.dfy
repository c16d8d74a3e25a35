/** The register of the checksum, bit by bit: shifting is linear and can be undone, and few unknown bits can be decided. */
module RegisterBits {
  import opened Basics
  import opened Codec
  import opened Crc

  // ---- Shifting is linear ----

  lemma ShiftBothEven(u: bv32, v: bv32)
    requires u & 1 == 0 && v & 1 == 0
    ensures (u >> 1) ^ (v >> 1) == (u ^ v) >> 1 && (u ^ v) & 1 == 0
  {
  }

  lemma ShiftOneOdd(u: bv32, v: bv32)
    requires u & 1 == 0 && v & 1 == 1
    ensures (u >> 1) ^ ((v >> 1) ^ POLYNOMIAL) == ((u ^ v) >> 1) ^ POLYNOMIAL && (u ^ v) & 1 == 1
  {
  }

  lemma ShiftBothOdd(u: bv32, v: bv32)
    requires u & 1 == 1 && v & 1 == 1
    ensures ((u >> 1) ^ POLYNOMIAL) ^ ((v >> 1) ^ POLYNOMIAL) == (u ^ v) >> 1 && (u ^ v) & 1 == 0
  {
  }

  lemma EvenWord(u: bv32)
    ensures u & 1 == 0 ==> ShiftedWord(u) == u >> 1
    ensures u & 1 == 1 ==> ShiftedWord(u) == (u >> 1) ^ POLYNOMIAL
  {
  }

  lemma XorOf(u: bv32, v: bv32)
    ensures Xor(Register(u), Register(v)) == Register(u ^ v)
  {
  }

  lemma XorSwap(u: bv32, v: bv32)
    ensures u ^ v == v ^ u
  {
  }

  lemma ShiftWords(u: bv32, v: bv32)
    ensures Register(ShiftedWord(u) ^ ShiftedWord(v)) == Register(ShiftedWord(u ^ v))
  {
    hide ShiftedWord;
    LowBit(u);
    LowBit(v);
    EvenWord(u);
    EvenWord(v);
    EvenWord(u ^ v);
    if u & 1 == 0 && v & 1 == 0 {
      ShiftBothEven(u, v);
    } else if u & 1 == 0 {
      ShiftOneOdd(u, v);
    } else if v & 1 == 0 {
      ShiftOneOdd(v, u);
      XorSwap(u, v);
      XorSwap(ShiftedWord(u), ShiftedWord(v));
    } else {
      ShiftBothOdd(u, v);
    }
  }

  lemma ShiftLinear(r: Register, s: Register)
    ensures Xor(Shift(r), Shift(s)) == Shift(Xor(r, s))
  {
    hide ShiftedWord, Xor;
    var u, v := r.word, s.word;
    XorOf(u, v);
    XorOf(ShiftedWord(u), ShiftedWord(v));
    ShiftWords(u, v);
    assert Xor(r, s) == Register(u ^ v);
  }

  lemma {:induction false} ShiftByLinear(r: Register, s: Register, n: nat)
    ensures Xor(ShiftBy(r, n), ShiftBy(s, n)) == ShiftBy(Xor(r, s), n)
    decreases n
  {
    hide Xor, Shift;
    if n > 0 {
      ShiftByLinear(r, s, n - 1);
      ShiftLinear(ShiftBy(r, n - 1), ShiftBy(s, n - 1));
    }
  }

  // ---- So is shifting back ----

  function BackWord(d: bv32): bv32 {
    if d >= 0x8000_0000 then ((d ^ POLYNOMIAL) << 1) ^ 1 else d << 1
  }

  /** The register before a shift, given the register after it. */
  function Unshift(r: Register): Register { Register(BackWord(r.word)) }

  function UnshiftBy(r: Register, n: nat): Register
    decreases n, r
  {
    if n == 0 then r else UnshiftBy(Unshift(r), n - 1)
  }

  lemma UnshiftShift(r: Register)
    ensures Unshift(Shift(r)) == r
  {
  }

  lemma {:induction false} UnshiftShiftBy(r: Register, n: nat)
    ensures UnshiftBy(ShiftBy(r, n), n) == r
    decreases n
  {
    hide Unshift, Shift;
    if n > 0 {
      UnshiftShift(ShiftBy(r, n - 1));
      UnshiftShiftBy(r, n - 1);
    }
  }

  lemma BackBothLow(u: bv32, v: bv32)
    requires u < 0x8000_0000 && v < 0x8000_0000
    ensures (u << 1) ^ (v << 1) == (u ^ v) << 1 && u ^ v < 0x8000_0000
  {
  }

  lemma BackOneHigh(u: bv32, v: bv32)
    requires u < 0x8000_0000 && v >= 0x8000_0000
    ensures (u << 1) ^ (((v ^ POLYNOMIAL) << 1) ^ 1) == (((u ^ v) ^ POLYNOMIAL) << 1) ^ 1 && u ^ v >= 0x8000_0000
  {
  }

  lemma BackBothHigh(u: bv32, v: bv32)
    requires u >= 0x8000_0000 && v >= 0x8000_0000
    ensures (((u ^ POLYNOMIAL) << 1) ^ 1) ^ (((v ^ POLYNOMIAL) << 1) ^ 1) == (u ^ v) << 1 && u ^ v < 0x8000_0000
  {
  }

  lemma HighWord(u: bv32)
    ensures u < 0x8000_0000 ==> BackWord(u) == u << 1
    ensures u >= 0x8000_0000 ==> BackWord(u) == ((u ^ POLYNOMIAL) << 1) ^ 1
  {
  }

  lemma BackWords(u: bv32, v: bv32)
    ensures Register(BackWord(u) ^ BackWord(v)) == Register(BackWord(u ^ v))
  {
    hide BackWord;
    HighWord(u);
    HighWord(v);
    HighWord(u ^ v);
    if u < 0x8000_0000 && v < 0x8000_0000 {
      BackBothLow(u, v);
    } else if u < 0x8000_0000 {
      BackOneHigh(u, v);
    } else if v < 0x8000_0000 {
      BackOneHigh(v, u);
      XorSwap(u, v);
      XorSwap(BackWord(u), BackWord(v));
    } else {
      BackBothHigh(u, v);
    }
  }

  lemma UnshiftLinear(r: Register, s: Register)
    ensures Xor(Unshift(r), Unshift(s)) == Unshift(Xor(r, s))
  {
    hide BackWord, Xor;
    var u, v := r.word, s.word;
    XorOf(u, v);
    XorOf(BackWord(u), BackWord(v));
    BackWords(u, v);
    assert Xor(r, s) == Register(u ^ v);
  }

  lemma {:induction false} UnshiftByLinear(r: Register, s: Register, n: nat)
    ensures Xor(UnshiftBy(r, n), UnshiftBy(s, n)) == UnshiftBy(Xor(r, s), n)
    decreases n
  {
    hide Xor, Unshift;
    if n > 0 {
      UnshiftLinear(r, s);
      UnshiftByLinear(Unshift(r), Unshift(s), n - 1);
    }
  }

  // ---- Eight steps, as words ----

  function Shift8(u: bv32): bv32 {
    ShiftedWord(ShiftedWord(ShiftedWord(ShiftedWord(ShiftedWord(ShiftedWord(ShiftedWord(ShiftedWord(u))))))))
  }

  function Back8(u: bv32): bv32 {
    BackWord(BackWord(BackWord(BackWord(BackWord(BackWord(BackWord(BackWord(u))))))))
  }

  lemma EightShifts(r: Register)
    ensures ShiftBy(r, 8).word == Shift8(r.word)
  {
    hide ShiftedWord;
    var r1 := ShiftBy(r, 1);
    assert r1 == Shift(ShiftBy(r, 0));
    var r2 := ShiftBy(r, 2);
    assert r2 == Shift(r1);
    var r3 := ShiftBy(r, 3);
    assert r3 == Shift(r2);
    var r4 := ShiftBy(r, 4);
    assert r4 == Shift(r3);
    var r5 := ShiftBy(r, 5);
    assert r5 == Shift(r4);
    var r6 := ShiftBy(r, 6);
    assert r6 == Shift(r5);
    var r7 := ShiftBy(r, 7);
    assert r7 == Shift(r6);
  }

  lemma EightUnshifts(r: Register)
    ensures UnshiftBy(r, 8).word == Back8(r.word)
  {
    hide BackWord;
    var r1 := Unshift(r);
    var r2 := Unshift(r1);
    var r3 := Unshift(r2);
    var r4 := Unshift(r3);
    var r5 := Unshift(r4);
    var r6 := Unshift(r5);
    var r7 := Unshift(r6);
    var r8 := Unshift(r7);
    assert UnshiftBy(r7, 1) == UnshiftBy(r8, 0);
    assert UnshiftBy(r6, 2) == UnshiftBy(r7, 1);
    assert UnshiftBy(r5, 3) == UnshiftBy(r6, 2);
    assert UnshiftBy(r4, 4) == UnshiftBy(r5, 3);
    assert UnshiftBy(r3, 5) == UnshiftBy(r4, 4);
    assert UnshiftBy(r2, 6) == UnshiftBy(r3, 5);
    assert UnshiftBy(r1, 7) == UnshiftBy(r2, 6);
  }

  // ---- One, two or three bytes of data in the burst ----

  lemma OneByte(x: bv32)
    requires x < 256 && Shift8(x) & 0xFF == 0
    ensures x == 0
  {
  }

  lemma TwoBytes(x: bv32, y: bv32)
    requires x < 256 && y < 256 && Shift8(Shift8(x) ^ y) & 0xFFFF == 0
    ensures (x == 0 && y == 0) || (x == 0x61 && y == 0xD8)
  {
  }

  lemma TheException()
    ensures Shift8(Shift8(0x61) ^ 0xD8) == 0xF4EE_0000 && Shift8(0) == 0 && Back8(0) == 0
  {
  }

  lemma TopByte(d: bv32)
    requires d & 0xFF_FFFF == 0 && Back8(Back8(Back8(d))) < 0x100_0000
    ensures d == 0
  {
  }

  lemma Back8Small(u: bv32)
    requires u < 0x100_0000
    ensures Back8(u) == u << 8
  {
  }

  // ---- The same on registers ----

  function Byte(b: u8, c: u8): Register { Xor(Load(b), Load(c)) }

  function Eight(r: Register): Register { ShiftBy(r, 8) }

  lemma Zeros()
    ensures Eight(Register(0)) == Register(0) && UnshiftBy(Register(0), 8) == Register(0)
  {
    TheException();
    EightShifts(Register(0));
    EightUnshifts(Register(0));
  }

  /** The three bytes of a difference, from where they lead. */
  lemma Unwound(x: Register, y: Register, z: Register)
    ensures var d := Eight(Xor(Eight(Xor(Eight(x), y)), z));
            UnshiftBy(UnshiftBy(UnshiftBy(d, 8), 8), 8)
            == Xor(x, Xor(UnshiftBy(y, 8), UnshiftBy(UnshiftBy(z, 8), 8)))
  {
    hide Xor, ShiftBy, UnshiftBy;
    var u := Xor(Eight(x), y);
    var v := Xor(Eight(u), z);
    UnshiftShiftBy(v, 8);
    UnshiftShiftBy(u, 8);
    UnshiftByLinear(Eight(u), z, 8);
    var z8 := UnshiftBy(z, 8);
    UnshiftByLinear(u, z8, 8);
    UnshiftShiftBy(x, 8);
    UnshiftByLinear(Eight(x), y, 8);
    XorAssociates(x, UnshiftBy(y, 8), UnshiftBy(z8, 8));
  }

  lemma ByteUp(y: Register)
    requires y.word < 0x1_0000
    ensures UnshiftBy(y, 8) == Register(y.word << 8)
  {
    EightUnshifts(y);
    Back8Small(y.word);
  }

  lemma ThreeWord(x: bv32, y: bv32, z: bv32)
    requires x < 256 && y < 256 && z < 256
    ensures (z << 8) < 0x1_0000
    ensures x ^ ((y << 8) ^ ((z << 8) << 8)) < 0x100_0000
    ensures x ^ ((y << 8) ^ ((z << 8) << 8)) == 0 ==> x == 0 && y == 0 && z == 0
  {
  }

  lemma UnwoundWord(x: Register, y: Register, z: Register)
    requires x.word < 256 && y.word < 256 && z.word < 256
    ensures Xor(x, Xor(UnshiftBy(y, 8), UnshiftBy(UnshiftBy(z, 8), 8))).word
            == x.word ^ ((y.word << 8) ^ ((z.word << 8) << 8))
  {
    ByteUp(y);
    ByteUp(z);
    ThreeWord(x.word, y.word, z.word);
    ByteUp(Register(z.word << 8));
    hide UnshiftBy;
  }

  lemma TopRegister(d: Register)
    requires d.word & 0xFF_FFFF == 0 && UnshiftBy(UnshiftBy(UnshiftBy(d, 8), 8), 8).word < 0x100_0000
    ensures d == Register(0)
  {
    EightUnshifts(d);
    EightUnshifts(UnshiftBy(d, 8));
    EightUnshifts(UnshiftBy(UnshiftBy(d, 8), 8));
    hide UnshiftBy, Back8;
    TopByte(d.word);
  }

  lemma ThreeBytes(x: Register, y: Register, z: Register)
    requires x.word < 256 && y.word < 256 && z.word < 256
    requires Eight(Xor(Eight(Xor(Eight(x), y)), z)).word & 0xFF_FFFF == 0
    ensures x == y == z == Register(0)
  {
    hide Xor, ShiftBy, UnshiftBy;
    Unwound(x, y, z);
    UnwoundWord(x, y, z);
    ThreeWord(x.word, y.word, z.word);
    var d := Eight(Xor(Eight(Xor(Eight(x), y)), z));
    TopRegister(d);
    Zeros();
  }

  lemma OneRegister(x: Register)
    requires x.word < 256 && Eight(x).word & 0xFF == 0
    ensures x == Register(0)
  {
    EightShifts(x);
    hide ShiftBy, Shift8;
    OneByte(x.word);
  }

  lemma TwoRegisters(x: Register, y: Register)
    requires x.word < 256 && y.word < 256 && Eight(Xor(Eight(x), y)).word & 0xFFFF == 0
    ensures (x == y == Register(0)) || (x == Register(0x61) && y == Register(0xD8))
  {
    EightShifts(x);
    EightShifts(Xor(Eight(x), y));
    hide ShiftBy, Shift8;
    TwoBytes(x.word, y.word);
  }

  lemma ExceptionRegisters()
    ensures Eight(Xor(Eight(Register(0x61)), Register(0xD8))) == Register(0xF4EE_0000)
  {
    EightShifts(Register(0x61));
    EightShifts(Xor(Eight(Register(0x61)), Register(0xD8)));
    hide ShiftBy;
    TheException();
    hide Shift8;
  }

  // ---- Checksums in bytes ----

  function Couple(h: bv8, l: bv8): bv16 { ((h as bv16) << 8) | (l as bv16) }

  function Bits(b: u8): bv8 { b as bv8 }

  function Pair(b: u8, c: u8): bv16 { Couple(Bits(b), Bits(c)) }

  function Join(h: bv16, l: bv16): bv32 { ((h as bv32) << 16) | (l as bv32) }

  /** Four bytes as a register. */
  function Stored(t: Bytes): Register
    requires |t| == 4
  {
    Register(Join(Pair(t[0], t[1]), Pair(t[2], t[3])))
  }

  lemma WideValue(h: bv16, l: bv16)
    ensures (((h as bv32) << 16) | (l as bv32)) as int == 0x1_0000 * (h as int) + l as int
  {
  }

  lemma JoinValue(h: bv16, l: bv16)
    ensures Join(h, l) as int == 0x1_0000 * (h as int) + l as int
  {
    var x := ((h as bv32) << 16) | (l as bv32);
    WideValue(h, l);
    assert Join(h, l) == x;
    hide Join;
  }

  lemma NarrowValue(h: bv8, l: bv8)
    ensures (((h as bv16) << 8) | (l as bv16)) as int == 0x100 * (h as int) + l as int
  {
  }

  lemma CoupleValue(h: bv8, l: bv8)
    ensures Couple(h, l) as int == 0x100 * (h as int) + l as int
  {
    var x := ((h as bv16) << 8) | (l as bv16);
    NarrowValue(h, l);
    assert Couple(h, l) == x;
    hide Couple;
  }

  lemma PairValue(b: u8, c: u8)
    ensures Pair(b, c) as int == 0x100 * (b as int) + c
  {
    hide Couple;
    CoupleValue(b as bv8, c as bv8);
    ByteValue(b);
    ByteValue(c);
  }

  lemma ValStep(t: Bytes, n: nat)
    requires n < |t|
    ensures Val(t[..n + 1]) == Val(t[..n]) * 256 + t[n]
  {
    assert t[..n + 1][..n] == t[..n];
  }

  lemma FourValue(t: Bytes)
    requires |t| == 4
    ensures Val(t) == 0x1_0000 * (0x100 * (t[0] as int) + t[1]) + (0x100 * (t[2] as int) + t[3])
  {
    ValStep(t, 0);
    ValStep(t, 1);
    ValStep(t, 2);
    ValStep(t, 3);
    assert t[..4] == t && Val(t[..0]) == 0;
    hide Val;
  }

  lemma StoredValue(t: Bytes)
    requires |t| == 4
    ensures GetU32(t).Got? && Stored(t).word as int == GetU32(t).value
  {
    assert t[..4] == t;
    assert GetU32(t).Got? && GetU32(t).value == Val(t);
    hide Pair, Join, GetU32, Val;
    FourValue(t);
    PairValue(t[0], t[1]);
    PairValue(t[2], t[3]);
    JoinValue(Pair(t[0], t[1]), Pair(t[2], t[3]));
  }

  /** How two bytes differ. */
  function XorByte(b: u8, c: u8): bv8 { Bits(b) ^ Bits(c) }

  lemma WidenedXor(b: bv8, c: bv8)
    ensures (b as bv32) ^ (c as bv32) == (b ^ c) as bv32
  {
  }

  lemma Widened(d: bv8)
    ensures d as bv32 < 256
    ensures d as bv32 == 0x61 <==> d == 0x61
    ensures d as bv32 == 0xD8 <==> d == 0xD8
  {
  }

  lemma NoDifference(b: u8, c: u8)
    ensures XorByte(b, c) == 0 <==> b == c
  {
    SameBits(b as bv8, c as bv8);
    ByteValue(b);
    ByteValue(c);
  }

  lemma SameBits(b: bv8, c: bv8)
    ensures b ^ c == 0 <==> b == c
  {
  }

  lemma ByteIs(b: u8, c: u8)
    ensures Byte(b, c).word < 256
    ensures Byte(b, c) == Register(0) <==> b == c
    ensures Byte(b, c) == Register(0x61) <==> XorByte(b, c) == 0x61
    ensures Byte(b, c) == Register(0xD8) <==> XorByte(b, c) == 0xD8
  {
    LoadDiff(b, c);
    WidenedXor(b as bv8, c as bv8);
    Widened(XorByte(b, c));
  }

  lemma JoinXor(b0: bv16, b1: bv16, c0: bv16, c1: bv16)
    ensures Join(b0, b1) ^ Join(c0, c1) == Join(b0 ^ c0, b1 ^ c1)
  {
  }

  lemma JoinBits(h: bv16, l: bv16)
    ensures l == 0 ==> Join(h, l) & 0xFFFF == 0
    ensures l & 0xFF == 0 ==> Join(h, l) & 0xFF == 0
    ensures l == 0 && h & 0xFF == 0 ==> Join(h, l) & 0xFF_FFFF == 0
    ensures Join(h, l) == 0xF4EE_0000 <==> h == 0xF4EE && l == 0
    ensures Join(h, l) == 0 <==> h == 0 && l == 0
  {
  }

  lemma CoupleBits(h: bv8, l: bv8)
    ensures Couple(h, l) & 0xFF == 0 <==> l == 0
    ensures Couple(h, l) == 0xF4EE <==> h == 0xF4 && l == 0xEE
    ensures Couple(h, l) == 0 <==> h == 0 && l == 0
  {
  }

  /** How two stored checksums differ, byte by byte. */
  function Differing(t: Bytes, u: Bytes): Register
    requires |t| == |u| == 4
  {
    Register(Join(Couple(XorByte(t[0], u[0]), XorByte(t[1], u[1])), Couple(XorByte(t[2], u[2]), XorByte(t[3], u[3]))))
  }

  lemma PairXor(b0: u8, b1: u8, c0: u8, c1: u8)
    ensures Pair(b0, b1) ^ Pair(c0, c1) == Couple(XorByte(b0, c0), XorByte(b1, c1))
  {
    hide Bits;
  }

  lemma JoinOf(h: bv16, l: bv16, i: bv16, m: bv16, x: bv16, y: bv16)
    requires x == h ^ i && y == l ^ m
    ensures Xor(Register(Join(h, l)), Register(Join(i, m))) == Register(Join(x, y))
  {
    JoinXor(h, l, i, m);
    hide Join;
    XorOf(Join(h, l), Join(i, m));
    hide Xor;
  }

  lemma StoredXor(t: Bytes, u: Bytes)
    requires |t| == |u| == 4
    ensures Xor(Stored(t), Stored(u)) == Differing(t, u)
  {
    hide Join, Couple, Xor, XorByte, Pair;
    PairXor(t[0], t[1], u[0], u[1]);
    PairXor(t[2], t[3], u[2], u[3]);
    JoinOf(Pair(t[0], t[1]), Pair(t[2], t[3]), Pair(u[0], u[1]), Pair(u[2], u[3]),
           Couple(XorByte(t[0], u[0]), XorByte(t[1], u[1])), Couple(XorByte(t[2], u[2]), XorByte(t[3], u[3])));
  }

  lemma DifferingBits(t: Bytes, u: Bytes)
    requires |t| == |u| == 4
    ensures var d := Differing(t, u).word;
            && (t[3..] == u[3..] ==> d & 0xFF == 0)
            && (t[2..] == u[2..] ==> d & 0xFFFF == 0)
            && (t[1..] == u[1..] ==> d & 0xFF_FFFF == 0)
            && (d == 0xF4EE_0000 <==> XorByte(t[0], u[0]) == 0xF4 && XorByte(t[1], u[1]) == 0xEE && t[2..] == u[2..])
            && (d == 0 <==> t == u)
  {
    hide Join, Couple, XorByte;
    var h := Couple(XorByte(t[0], u[0]), XorByte(t[1], u[1]));
    var l := Couple(XorByte(t[2], u[2]), XorByte(t[3], u[3]));
    CoupleBits(XorByte(t[0], u[0]), XorByte(t[1], u[1]));
    CoupleBits(XorByte(t[2], u[2]), XorByte(t[3], u[3]));
    JoinBits(h, l);
    NoDifference(t[0], u[0]);
    NoDifference(t[1], u[1]);
    NoDifference(t[2], u[2]);
    NoDifference(t[3], u[3]);
    assert t == [t[0], t[1], t[2], t[3]] && u == [u[0], u[1], u[2], u[3]];
    assert t[3..] == [t[3]] && u[3..] == [u[3]];
    assert t[2..] == [t[2], t[3]] && u[2..] == [u[2], u[3]];
    assert t[1..] == [t[1], t[2], t[3]] && u[1..] == [u[1], u[2], u[3]];
  }
}
