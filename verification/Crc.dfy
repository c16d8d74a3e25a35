/** CRC-32 (the reflected CRC of section 8 of RFC 1952) and what it detects. */
module Crc {
  import opened Basics

  const POLYNOMIAL: bv32 := 0xEDB8_8320

  /** The shift register; a datatype, so that equal registers are compared as values. */
  datatype Register = Register(word: bv32)

  function Xor(a: Register, b: Register): Register { Register(a.word ^ b.word) }

  function Scaled(a: Register): Register { Register(a.word * 256) }

  function Twice(a: Register): Register { Register(a.word + a.word) }

  function ShiftedWord(u: bv32): bv32 {
    if u & 1 == 1 then (u >> 1) ^ POLYNOMIAL else u >> 1
  }

  function Shift(r: Register): Register {
    Register(ShiftedWord(r.word))
  }

  function ShiftBy(r: Register, n: nat): Register
    decreases n, r
  {
    if n == 0 then r else Shift(ShiftBy(r, n - 1))
  }

  function Load(b: u8): Register { Register((b as bv8) as bv32) }

  /** The register after absorbing one byte. */
  function Absorb(r: Register, b: u8): Register {
    ShiftBy(Xor(r, Load(b)), 8)
  }

  /** The register after absorbing all of data, starting from r. */
  function Run(r: Register, data: Bytes): Register {
    if data == [] then r else Absorb(Run(r, data[..|data| - 1]), data[|data| - 1])
  }

  const START := Register(0xFFFF_FFFF)

  function Finish(r: Register): u32 { Xor(r, START).word as int }

  function Crc32(data: Bytes): u32 {
    Finish(Run(START, data))
  }

  method ComputeCrc32(data: Bytes) returns (c: u32)
    ensures c == Crc32(data)
  {
    var crc := START;
    for k := 0 to |data|
      invariant crc == Run(START, data[..k])
    {
      assert data[..k + 1][..k] == data[..k];
      crc := Xor(crc, Load(data[k]));
      ghost var loaded := crc;
      for i := 0 to 8
        invariant crc == ShiftBy(loaded, i)
      {
        crc := Shift(crc);
      }
    }
    assert data[..|data|] == data;
    c := Finish(crc);
  }

  // ---- Facts about 32-bit words ----

  lemma LowBit(u: bv32)
    ensures u & 1 == 0 || u & 1 == 1
  {
  }

  lemma BothOdd(u: bv32, v: bv32)
    requires u & 1 == 1 && v & 1 == 1
    ensures u ^ v == (((u >> 1) ^ POLYNOMIAL) ^ ((v >> 1) ^ POLYNOMIAL)) + (((u >> 1) ^ POLYNOMIAL) ^ ((v >> 1) ^ POLYNOMIAL))
  {
  }

  lemma BothEven(u: bv32, v: bv32)
    requires u & 1 == 0 && v & 1 == 0
    ensures u ^ v == ((u >> 1) ^ (v >> 1)) + ((u >> 1) ^ (v >> 1))
  {
  }

  lemma OtherParity(u: bv32, v: bv32)
    ensures ((u >> 1) ^ POLYNOMIAL) ^ (v >> 1) >= 0x8000_0000
    ensures (u >> 1) ^ ((v >> 1) ^ POLYNOMIAL) >= 0x8000_0000
  {
  }

  lemma XorZero(a: bv32, b: bv32)
    ensures a ^ b == 0 <==> a == b
  {
  }

  // ---- Undoing the register steps ----

  lemma OtherParityShift(u: bv32, v: bv32)
    requires u & 1 == 1 && v & 1 == 0
    ensures ShiftedWord(u) ^ ShiftedWord(v) >= 0x8000_0000
    ensures ShiftedWord(v) ^ ShiftedWord(u) >= 0x8000_0000
  {
    assert ShiftedWord(u) == (u >> 1) ^ POLYNOMIAL;
    assert ShiftedWord(v) == v >> 1;
    hide ShiftedWord;
    OtherParity(u, v);
    OtherParity(v, u);
  }

  /** Words that agree in the top bit after a shift differed by twice as much before it. */
  lemma ShiftBackWord(u: bv32, v: bv32)
    requires ShiftedWord(u) ^ ShiftedWord(v) < 0x8000_0000
    ensures u ^ v == (ShiftedWord(u) ^ ShiftedWord(v)) + (ShiftedWord(u) ^ ShiftedWord(v))
  {
    LowBit(u);
    LowBit(v);
    if u & 1 != v & 1 {
      hide ShiftedWord;
      if u & 1 == 1 {
        OtherParityShift(u, v);
      } else {
        OtherParityShift(v, u);
      }
      assert false;
    } else if u & 1 == 1 {
      assert ShiftedWord(u) == (u >> 1) ^ POLYNOMIAL;
      assert ShiftedWord(v) == (v >> 1) ^ POLYNOMIAL;
      hide ShiftedWord;
      BothOdd(u, v);
    } else {
      assert ShiftedWord(v) == v >> 1;
      assert ShiftedWord(u) == u >> 1;
      hide ShiftedWord;
      BothEven(u, v);
    }
  }

  lemma ShiftBack(u: Register, v: Register)
    requires Xor(Shift(u), Shift(v)).word < 0x8000_0000
    ensures Xor(u, v) == Twice(Xor(Shift(u), Shift(v)))
  {
    hide ShiftedWord;
    ShiftBackWord(u.word, v.word);
  }

  function Up(d: Register, n: nat): Register
    decreases n, d
  {
    if n == 0 then d else Up(Twice(d), n - 1)
  }

  /** The doublings of d stay below the top bit for n steps. */
  predicate Roomy(d: Register, n: nat)
    decreases n, d
  {
    n == 0 || (d.word < 0x8000_0000 && Roomy(Twice(d), n - 1))
  }

  lemma {:induction false} ShiftByBack(u: Register, v: Register, n: nat)
    requires Roomy(Xor(ShiftBy(u, n), ShiftBy(v, n)), n)
    ensures Xor(u, v) == Up(Xor(ShiftBy(u, n), ShiftBy(v, n)), n)
    decreases n
  {
    if n > 0 {
      ShiftBack(ShiftBy(u, n - 1), ShiftBy(v, n - 1));
      ShiftByBack(u, v, n - 1);
    }
  }

  function Sixteenfold(d: Register): Register { Twice(Twice(Twice(Twice(d)))) }

  lemma SixteenfoldWord(d: Register)
    ensures Sixteenfold(d).word == d.word * 16
  {
  }

  lemma TwofiftysixfoldWord(d: Register)
    ensures Sixteenfold(Sixteenfold(d)).word == d.word * 256
  {
  }

  lemma Twofiftysixfold(d: Register)
    ensures Sixteenfold(Sixteenfold(d)) == Scaled(d)
  {
    TwofiftysixfoldWord(d);
  }

  lemma {:induction false} UpSum(d: Register, m: nat, n: nat)
    ensures Up(d, m + n) == Up(Up(d, m), n)
    decreases m
  {
    if m > 0 {
      UpSum(Twice(d), m - 1, n);
    }
  }

  lemma UpFour(d: Register)
    ensures Up(d, 4) == Sixteenfold(d)
  {
    var d3 := Twice(Twice(Twice(d)));
    assert Up(d3, 1) == Up(Twice(d3), 0) == Twice(d3);
    UpSum(d, 3, 1);
    UpSum(d, 2, 1);
    UpSum(d, 1, 1);
  }

  lemma UpEight(d: Register)
    ensures Up(d, 8) == Sixteenfold(Sixteenfold(d))
  {
    UpSum(d, 4, 4);
    UpFour(d);
    UpFour(Sixteenfold(d));
  }

  lemma RoomyFour(d: Register, n: nat)
    requires d.word < 0x1000_0000 && Roomy(Sixteenfold(d), n)
    ensures Roomy(d, n + 4)
  {
    var d1 := Twice(d);
    var d2 := Twice(d1);
    var d3 := Twice(d2);
    assert d1.word < 0x8000_0000 && d2.word < 0x8000_0000 && d3.word < 0x8000_0000;
    assert Roomy(Twice(d3), n);
    assert Roomy(d3, n + 1);
    assert Roomy(d2, n + 2);
    assert Roomy(d1, n + 3);
  }

  lemma RoomyEight(d: Register)
    requires d.word < 0x0100_0000
    ensures Roomy(d, 8)
  {
    SixteenfoldWord(d);
    RoomyFour(Sixteenfold(d), 0);
    RoomyFour(d, 4);
  }

  // ---- Injectivity of absorbing bytes ----

  /** How two registers differ, given how they differ after absorbing one byte each. */
  lemma AbsorbBack(r: Register, s: Register, b: u8, c: u8, d: Register)
    requires d == Xor(Absorb(r, b), Absorb(s, c)) && d.word < 0x0100_0000
    ensures Xor(Xor(r, Load(b)), Xor(s, Load(c))) == Scaled(d)
  {
    RoomyEight(d);
    UpEight(d);
    ShiftByBack(Xor(r, Load(b)), Xor(s, Load(c)), 8);
    Twofiftysixfold(d);
  }

  lemma XorAssociates(a: Register, b: Register, c: Register)
    ensures Xor(Xor(a, b), c) == Xor(a, Xor(b, c))
  {
  }

  lemma XorLaws(a: Register, b: Register)
    ensures Xor(a, b) == Xor(b, a)
    ensures Xor(Xor(a, b), b) == a
  {
  }

  lemma XorMove(r: Register, s: Register, b: Register, c: Register)
    ensures Xor(r, s) == Xor(Xor(Xor(r, b), Xor(s, c)), Xor(b, c))
  {
    hide Xor;
    var u := Xor(b, c);
    calc {
      Xor(Xor(r, b), Xor(s, c));
      { XorAssociates(r, b, Xor(s, c)); }
      Xor(r, Xor(b, Xor(s, c)));
      { XorAssociates(b, s, c); XorLaws(b, s); XorAssociates(s, b, c); }
      Xor(r, Xor(s, u));
      { XorAssociates(r, s, u); }
      Xor(Xor(r, s), u);
    }
    XorLaws(Xor(r, s), u);
  }

  /** The difference one byte earlier: what follows moves up a byte, and the two bytes' own difference joins. */
  function Earlier(d: Register, b: u8, c: u8): Register {
    Xor(Scaled(d), Xor(Load(b), Load(c)))
  }

  lemma AbsorbBackEarlier(r: Register, s: Register, b: u8, c: u8, d: Register)
    requires d == Xor(Absorb(r, b), Absorb(s, c)) && d.word < 0x0100_0000
    ensures Xor(r, s) == Earlier(d, b, c)
  {
    AbsorbBack(r, s, b, c, d);
    hide Xor, Absorb, Load, Scaled;
    XorMove(r, s, Load(b), Load(c));
  }

  /** Four byte differences packed into one word are all zero when the word is. */
  lemma Packed(x0: bv32, x1: bv32, x2: bv32, x3: bv32)
    requires x0 < 256 && x1 < 256 && x2 < 256 && x3 < 256
    ensures x3 < 0x0100_0000 && (0 * 256) ^ x3 == x3
    ensures (x3 * 256) ^ x2 < 0x0100_0000
    ensures (((x3 * 256) ^ x2) * 256) ^ x1 < 0x0100_0000
    ensures (((((x3 * 256) ^ x2) * 256) ^ x1) * 256) ^ x0 == 0 ==> x0 == 0 && x1 == 0 && x2 == 0 && x3 == 0
  {
  }

  lemma ByteDiff(b: bv8, c: bv8)
    ensures (b as bv32) ^ (c as bv32) < 256
    ensures (b as bv32) ^ (c as bv32) == 0 ==> b == c
  {
  }

  lemma Successor(b: bv8)
    requires b < 255
    ensures (b + 1) as int == b as int + 1
  {
  }

  lemma {:induction false} ByteOf(n: u8) returns (b: bv8)
    ensures b as int == n
  {
    if n == 0 {
      b := 0;
    } else {
      b := ByteOf(n - 1);
      Successor(b);
      b := b + 1;
    }
  }

  lemma ByteValue(n: u8)
    ensures (n as bv8) as int == n
  {
    var b := ByteOf(n);
    assert (b as int) as bv8 == b;
  }

  lemma LoadDiff(b: u8, c: u8)
    ensures Xor(Load(b), Load(c)).word < 256
    ensures Xor(Load(b), Load(c)).word == 0 <==> b == c
  {
    ByteDiff(b as bv8, c as bv8);
    ByteValue(b);
    ByteValue(c);
  }

  lemma PackedRegisters(b0: u8, b1: u8, b2: u8, b3: u8, c0: u8, c1: u8, c2: u8, c3: u8)
    ensures Earlier(Register(0), b3, c3).word < 0x0100_0000
    ensures Earlier(Earlier(Register(0), b3, c3), b2, c2).word < 0x0100_0000
    ensures Earlier(Earlier(Earlier(Register(0), b3, c3), b2, c2), b1, c1).word < 0x0100_0000
    ensures Earlier(Earlier(Earlier(Earlier(Register(0), b3, c3), b2, c2), b1, c1), b0, c0).word == 0 ==>
              b0 == c0 && b1 == c1 && b2 == c2 && b3 == c3
  {
    LoadDiff(b0, c0);
    LoadDiff(b1, c1);
    LoadDiff(b2, c2);
    LoadDiff(b3, c3);
    Packed(Xor(Load(b0), Load(c0)).word, Xor(Load(b1), Load(c1)).word,
           Xor(Load(b2), Load(c2)).word, Xor(Load(b3), Load(c3)).word);
  }

  lemma XorSelf(r: Register)
    ensures Xor(r, r) == Register(0)
  {
  }

  /** From one register, two different four-byte windows never reach the same register. */
  lemma WindowInjective(r: Register, b0: u8, b1: u8, b2: u8, b3: u8, c0: u8, c1: u8, c2: u8, c3: u8)
    requires Absorb(Absorb(Absorb(Absorb(r, b0), b1), b2), b3) == Absorb(Absorb(Absorb(Absorb(r, c0), c1), c2), c3)
    ensures b0 == c0 && b1 == c1 && b2 == c2 && b3 == c3
  {
    hide *;
    var r1, s1 := Absorb(r, b0), Absorb(r, c0);
    var r2, s2 := Absorb(r1, b1), Absorb(s1, c1);
    var r3, s3 := Absorb(r2, b2), Absorb(s2, c2);
    PackedRegisters(b0, b1, b2, b3, c0, c1, c2, c3);
    XorSelf(Absorb(r3, b3));
    AbsorbBackEarlier(r3, s3, b3, c3, Register(0));
    AbsorbBackEarlier(r2, s2, b2, c2, Xor(r3, s3));
    AbsorbBackEarlier(r1, s1, b1, c1, Xor(r2, s2));
    AbsorbBackEarlier(r, r, b0, c0, Xor(r1, s1));
    XorSelf(r);
  }

  lemma AbsorbInjective(r: Register, s: Register, b: u8)
    requires Absorb(r, b) == Absorb(s, b)
    ensures r == s
  {
    hide Absorb;
    XorSelf(Absorb(r, b));
    AbsorbBackEarlier(r, s, b, b, Register(0));
    XorSelf(Load(b));
    XorZero(r.word, s.word);
  }

  lemma {:induction false} RunInjective(r: Register, s: Register, data: Bytes)
    requires Run(r, data) == Run(s, data)
    ensures r == s
  {
    if data != [] {
      var n := |data| - 1;
      AbsorbInjective(Run(r, data[..n]), Run(s, data[..n]), data[n]);
      RunInjective(r, s, data[..n]);
    }
  }

  lemma {:induction false} RunConcat(r: Register, a: Bytes, b: Bytes)
    ensures Run(r, a + b) == Run(Run(r, a), b)
  {
    if b == [] {
      assert a + b == a;
    } else {
      var n := |b| - 1;
      assert (a + b)[..|a| + n] == a + b[..n];
      RunConcat(r, a, b[..n]);
    }
  }

  lemma RunFour(r: Register, w: Bytes)
    requires |w| == 4
    ensures Run(r, w) == Absorb(Absorb(Absorb(Absorb(r, w[0]), w[1]), w[2]), w[3])
  {
    assert w[..3][..2] == w[..2] && w[..2][..1] == w[..1] && w[..1][..0] == [];
    assert Run(r, w[..1]) == Absorb(r, w[0]);
    assert Run(r, w[..2]) == Absorb(Run(r, w[..1]), w[1]);
    assert Run(r, w[..3]) == Absorb(Run(r, w[..2]), w[2]);
  }

  lemma WordValueInjective(a: bv32, b: bv32)
    requires a as int == b as int
    ensures a == b
  {
    assert (a as int) as bv32 == a;
  }

  lemma XorRegisterInjective(r: Register, s: Register)
    requires Xor(r, START) == Xor(s, START)
    ensures r == s
  {
  }

  /** Distinct registers finish as distinct checksums. */
  lemma FinishInjective(r: Register, s: Register)
    requires Finish(r) == Finish(s)
    ensures r == s
  {
    var a, b := Xor(r, START), Xor(s, START);
    WordValueInjective(a.word, b.word);
    XorRegisterInjective(r, s);
  }

  lemma CrcInjective(a: Bytes, b: Bytes)
    requires Crc32(a) == Crc32(b)
    ensures Run(START, a) == Run(START, b)
  {
    FinishInjective(Run(START, a), Run(START, b));
  }

  /** a and b have equal length and agree outside the four positions from k on. */
  ghost predicate DifferWithin(a: Bytes, b: Bytes, k: nat)
    requires k + 4 <= |a|
  {
    |a| == |b| && a[..k] == b[..k] && a[k + 4..] == b[k + 4..]
  }

  lemma RunWindow(r: Register, head: Bytes, w: Bytes, tail: Bytes)
    ensures Run(r, head + (w + tail)) == Run(Run(Run(r, head), w), tail)
  {
    RunConcat(r, head, w + tail);
    RunConcat(Run(r, head), w, tail);
  }

  lemma SplitWindow(a: Bytes, k: nat)
    requires k + 4 <= |a|
    ensures a == a[..k] + (a[k..k + 4] + a[k + 4..])
  {
  }

  lemma FourInjective(r: Register, v: Bytes, w: Bytes)
    requires |v| == |w| == 4
    requires Run(r, v) == Run(r, w)
    ensures v == w
  {
    RunFour(r, v);
    RunFour(r, w);
    WindowInjective(r, v[0], v[1], v[2], v[3], w[0], w[1], w[2], w[3]);
    assert v == [v[0], v[1], v[2], v[3]] && w == [w[0], w[1], w[2], w[3]];
  }

  lemma RunWindowInjective(r: Register, head: Bytes, v: Bytes, w: Bytes, tail: Bytes)
    requires |v| == |w| == 4
    requires Run(r, head + (v + tail)) == Run(r, head + (w + tail))
    ensures v == w
  {
    RunWindow(r, head, v, tail);
    RunWindow(r, head, w, tail);
    var q := Run(r, head);
    RunInjective(Run(q, v), Run(q, w), tail);
    FourInjective(q, v, w);
  }

  /** Every change confined to four consecutive bytes changes the checksum. */
  lemma BurstDetected(a: Bytes, b: Bytes, k: nat)
    requires k + 4 <= |a| && DifferWithin(a, b, k)
    requires Crc32(a) == Crc32(b)
    ensures a == b
  {
    CrcInjective(a, b);
    SplitWindow(a, k);
    SplitWindow(b, k);
    RunWindowInjective(START, a[..k], a[k..k + 4], b[k..k + 4], a[k + 4..]);
  }
}
