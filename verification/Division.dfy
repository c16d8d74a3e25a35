/** The checksum as a remainder: long division of polynomials over bits, digit by digit, without any register. */
module Division {
  import opened Basics
  import opened Codec
  import opened Crc
  import opened RegisterBits

  // ---- Polynomials over bits, the highest coefficient first ----

  type Poly = seq<bool>

  /** The exponents below 32 of the generator x^32 + x^26 + x^23 + x^22 + x^16 + x^12 + x^11 + x^10 + x^8 + x^7 + x^5 + x^4
    * + x^2 + x + 1.
    */
  const EXPONENTS: set<nat> := {26, 23, 22, 16, 12, 11, 10, 8, 7, 5, 4, 2, 1, 0}

  function Generator(): (g: Poly)
    ensures |g| == 32
  {
    seq(32, i requires 0 <= i < 32 => 31 - i in EXPONENTS)
  }

  function Sum(a: Poly, b: Poly): (c: Poly)
    requires |a| == |b|
    ensures |c| == |a|
  {
    seq(|a|, i requires 0 <= i < |a| => a[i] != b[i])
  }

  /** Schoolbook division by the generator: the leading coefficient is cancelled while more than 32 remain. */
  function Remainder(a: Poly): (r: Poly)
    requires |a| >= 32
    ensures |r| == 32
    decreases |a|
  {
    if |a| == 32 then a
    else if a[0] then Remainder(Sum(a[1..33], Generator()) + a[33..])
    else Remainder(a[1..])
  }

  function Zeros(n: nat): Poly { seq(n, _ => false) }

  function Ones(n: nat): Poly { seq(n, _ => true) }

  /** The n lowest binary digits of v, the lowest first. */
  function LowBits(v: nat, n: nat): (p: Poly)
    ensures |p| == n
    decreases n, v
  {
    if n == 0 then [] else [v % 2 == 1] + LowBits(v / 2, n - 1)
  }

  /** The bits of data in the order in which they are sent: of each byte the lowest first. */
  function DataBits(data: Bytes): (p: Poly)
    ensures |p| == 8 * |data|
  {
    if data == [] then [] else LowBits(data[0], 8) + DataBits(data[1..])
  }

  /** a with its first 32 coefficients added to r. */
  function Fronted(r: Poly, a: Poly): (c: Poly)
    requires |r| == 32 <= |a|
    ensures |c| == |a|
  {
    Sum(r, a[..32]) + a[32..]
  }

  /** The number whose binary digits, the lowest first, are the coefficients. */
  function Number(p: Poly): nat {
    if p == [] then 0 else (if p[0] then 1 else 0) + 2 * Number(p[1..])
  }

  /** The checksum by its definition: data, followed by 32 zeros, its first 32 bits complemented, is divided; the remainder is
    * complemented and read as a number.
    */
  function Checksum(data: Bytes): nat {
    var dividend := Fronted(Ones(32), DataBits(data) + Zeros(32));
    Number(Sum(Ones(32), Remainder(dividend)))
  }

  // ---- The bits of a register ----

  predicate Odd(r: Register) { r.word & 1 == 1 }

  function Half(r: Register): Register { Register(r.word >> 1) }

  function HalfBy(r: Register, n: nat): Register
    decreases n, r
  {
    if n == 0 then r else Half(HalfBy(r, n - 1))
  }

  function WordBits(r: Register): (p: Poly)
    ensures |p| == 32
  {
    seq(32, i requires 0 <= i < 32 => Odd(HalfBy(r, i)))
  }

  lemma XorOdd(u: bv32, v: bv32)
    ensures Odd(Register(u ^ v)) <==> Odd(Register(u)) != Odd(Register(v))
  {
  }

  lemma XorHalf(u: bv32, v: bv32)
    ensures Half(Register(u ^ v)) == Register((u >> 1) ^ (v >> 1))
  {
  }

  lemma HalfOf(u: bv32)
    ensures Half(Register(u)) == Register(u >> 1)
  {
  }

  lemma XorOdds(u: bv32, v: bv32)
    ensures Odd(Xor(Register(u), Register(v))) <==> Odd(Register(u)) != Odd(Register(v))
  {
    hide Xor, Odd;
    XorOf(u, v);
    XorOdd(u, v);
  }

  lemma XorHalfOf(u: bv32, v: bv32)
    ensures Half(Xor(Register(u), Register(v))) == Xor(Half(Register(u)), Half(Register(v)))
  {
    hide Xor, Half;
    XorOf(u, v);
    XorHalf(u, v);
    HalfOf(u);
    HalfOf(v);
    XorOf(u >> 1, v >> 1);
  }

  lemma XorHalves(r: Register, s: Register)
    ensures Half(Xor(r, s)) == Xor(Half(r), Half(s))
    ensures Odd(Xor(r, s)) <==> Odd(r) != Odd(s)
  {
    hide Xor, Half, Odd;
    XorOdds(r.word, s.word);
    XorHalfOf(r.word, s.word);
    assert r == Register(r.word) && s == Register(s.word);
  }

  lemma {:induction false} XorAt(r: Register, s: Register, n: nat)
    ensures HalfBy(Xor(r, s), n) == Xor(HalfBy(r, n), HalfBy(s, n))
    decreases n
  {
    hide Xor, Half;
    if n > 0 {
      XorAt(r, s, n - 1);
      XorHalves(HalfBy(r, n - 1), HalfBy(s, n - 1));
    }
  }

  /** Adding registers adds their bits. */
  lemma XorBits(r: Register, s: Register)
    ensures WordBits(Xor(r, s)) == Sum(WordBits(r), WordBits(s))
  {
    hide Xor, Half, HalfBy, Odd;
    forall i | 0 <= i < 32 ensures WordBits(Xor(r, s))[i] == Sum(WordBits(r), WordBits(s))[i] {
      XorAt(r, s, i);
      XorHalves(HalfBy(r, i), HalfBy(s, i));
    }
  }

  lemma {:induction false} HalfFirst(r: Register, n: nat)
    ensures HalfBy(Half(r), n) == HalfBy(r, n + 1)
    decreases n
  {
    hide Half;
    if n > 0 {
      HalfFirst(r, n - 1);
    } else {
      assert HalfBy(r, 1) == Half(HalfBy(r, 0));
    }
  }

  lemma {:induction false} HalfSum(r: Register, m: nat, n: nat)
    ensures HalfBy(r, m + n) == HalfBy(HalfBy(r, m), n)
    decreases n
  {
    hide Half;
    if n > 0 {
      HalfSum(r, m, n - 1);
    }
  }

  lemma FourHalves(r: Register)
    ensures HalfBy(r, 4) == Register(r.word >> 4)
  {
    HalvesWord(r.word);
    hide Half;
    assert HalfBy(r, 1) == Half(HalfBy(r, 0));
    assert HalfBy(r, 2) == Half(HalfBy(r, 1));
    assert HalfBy(r, 3) == Half(HalfBy(r, 2));
    assert HalfBy(r, 4) == Half(HalfBy(r, 3));
  }

  lemma HalvesWord(u: bv32)
    ensures Half(Half(Half(Half(Register(u))))) == Register(u >> 4)
  {
  }

  lemma NothingLeft(u: bv32)
    ensures ((((((((u >> 4) >> 4) >> 4) >> 4) >> 4) >> 4) >> 4) >> 4) & 1 != 1
  {
  }

  /** A register has no bits beyond its 32. */
  lemma BeyondBits(r: Register)
    ensures !Odd(HalfBy(r, 32))
  {
    var a := HalfBy(r, 4);
    var b := HalfBy(a, 4);
    var c := HalfBy(b, 4);
    var d := HalfBy(c, 4);
    var e := HalfBy(d, 4);
    var f := HalfBy(e, 4);
    var g := HalfBy(f, 4);
    var h := HalfBy(g, 4);
    FourHalves(r);
    FourHalves(a);
    FourHalves(b);
    FourHalves(c);
    FourHalves(d);
    FourHalves(e);
    FourHalves(f);
    FourHalves(g);
    NothingLeft(r.word);
    hide HalfBy;
    HalfSum(r, 4, 28);
    HalfSum(a, 4, 24);
    HalfSum(b, 4, 20);
    HalfSum(c, 4, 16);
    HalfSum(d, 4, 12);
    HalfSum(e, 4, 8);
    HalfSum(f, 4, 4);
  }

  lemma HalfBits(r: Register)
    ensures WordBits(Half(r)) == WordBits(r)[1..] + [false]
  {
    hide Half, HalfBy, Odd;
    forall i | 0 <= i < 32 ensures WordBits(Half(r))[i] == (WordBits(r)[1..] + [false])[i] {
      HalfFirst(r, i);
      BeyondBits(r);
    }
  }

  // ---- A shift is one step of the division ----

  lemma OddWord(u: bv32)
    ensures u & 1 == 1 ==> Register(ShiftedWord(u)) == Register((u >> 1) ^ POLYNOMIAL)
    ensures u & 1 != 1 ==> Register(ShiftedWord(u)) == Register(u >> 1)
  {
  }

  lemma ShiftIs(r: Register)
    ensures Shift(r) == if Odd(r) then Xor(Half(r), Register(POLYNOMIAL)) else Half(r)
  {
    var u := r.word;
    assert Shift(r) == Register(ShiftedWord(u)) && (Odd(r) <==> u & 1 == 1);
    hide Xor, Half, Odd, Shift, ShiftedWord;
    OddWord(u);
    HalfOf(u);
    XorOf(u >> 1, POLYNOMIAL);
    assert r == Register(u);
  }

  function PolyShift(p: Poly): (q: Poly)
    requires |p| == 32
    ensures |q| == 32
  {
    if p[0] then Sum(p[1..] + [false], Generator()) else p[1..] + [false]
  }

  lemma ShiftBits(r: Register)
    requires WordBits(Register(POLYNOMIAL)) == Generator()
    ensures WordBits(Shift(r)) == PolyShift(WordBits(r))
  {
    ShiftIs(r);
    assert WordBits(r)[0] == Odd(r) by {
      hide Odd;
      assert HalfBy(r, 0) == r;
    }
    hide Xor, Half, HalfBy, Odd, Shift, WordBits, Sum;
    HalfBits(r);
    XorBits(Half(r), Register(POLYNOMIAL));
  }

  lemma EightHalvesWord(u: bv32)
    ensures Half(Half(Half(Half(Half(Half(Half(Half(Register(u))))))))) == Register(u >> 8)
  {
  }

  lemma EightHalves(r: Register)
    ensures HalfBy(r, 8) == Register(r.word >> 8)
  {
    EightHalvesWord(r.word);
    hide Half;
    assert HalfBy(r, 1) == Half(HalfBy(r, 0));
    assert HalfBy(r, 2) == Half(HalfBy(r, 1));
    assert HalfBy(r, 3) == Half(HalfBy(r, 2));
    assert HalfBy(r, 4) == Half(HalfBy(r, 3));
    assert HalfBy(r, 5) == Half(HalfBy(r, 4));
    assert HalfBy(r, 6) == Half(HalfBy(r, 5));
    assert HalfBy(r, 7) == Half(HalfBy(r, 6));
    assert HalfBy(r, 8) == Half(HalfBy(r, 7));
  }

  /** The bits from n on, eight of them, spell b. */
  predicate Spells(r: Register, n: nat, b: bv32) {
    && (Odd(HalfBy(r, n)) <==> b & 1 != 0) && (Odd(HalfBy(r, n + 1)) <==> b & 2 != 0)
    && (Odd(HalfBy(r, n + 2)) <==> b & 4 != 0) && (Odd(HalfBy(r, n + 3)) <==> b & 8 != 0)
    && (Odd(HalfBy(r, n + 4)) <==> b & 16 != 0) && (Odd(HalfBy(r, n + 5)) <==> b & 32 != 0)
    && (Odd(HalfBy(r, n + 6)) <==> b & 64 != 0) && (Odd(HalfBy(r, n + 7)) <==> b & 128 != 0)
  }

  lemma SpellsFurther(r: Register, n: nat, b: bv32)
    requires HalfBy(r, n).word & 0xFF == b
    ensures Spells(r, n, b)
  {
    ByteOfBits(HalfBy(r, n), b);
    hide HalfBy, Odd;
    HalfSum(r, n, 0);
    HalfSum(r, n, 1);
    HalfSum(r, n, 2);
    HalfSum(r, n, 3);
    HalfSum(r, n, 4);
    HalfSum(r, n, 5);
    HalfSum(r, n, 6);
    HalfSum(r, n, 7);
  }

  lemma PolynomialBytes()
    ensures HalfBy(Register(POLYNOMIAL), 0) == Register(0xEDB8_8320)
    ensures HalfBy(Register(POLYNOMIAL), 8) == Register(0xED_B883)
    ensures HalfBy(Register(POLYNOMIAL), 16) == Register(0xEDB8)
    ensures HalfBy(Register(POLYNOMIAL), 24) == Register(0xED)
  {
    var r := Register(POLYNOMIAL);
    assert HalfBy(r, 0) == r;
    hide HalfBy;
    EightHalves(r);
    EightHalves(Register(0xED_B883));
    EightHalves(Register(0xEDB8));
    HalfSum(r, 8, 8);
    HalfSum(r, 16, 8);
  }

  lemma PolynomialSpelled()
    ensures Spells(Register(POLYNOMIAL), 0, 0x20) && Spells(Register(POLYNOMIAL), 8, 0x83)
    ensures Spells(Register(POLYNOMIAL), 16, 0xB8) && Spells(Register(POLYNOMIAL), 24, 0xED)
  {
    hide HalfBy, Spells;
    PolynomialBytes();
    SpellsFurther(Register(POLYNOMIAL), 0, 0x20);
    SpellsFurther(Register(POLYNOMIAL), 8, 0x83);
    SpellsFurther(Register(POLYNOMIAL), 16, 0xB8);
    SpellsFurther(Register(POLYNOMIAL), 24, 0xED);
  }

  lemma PolynomialBits()
    ensures WordBits(Register(POLYNOMIAL)) == Generator()
  {
    hide HalfBy, Odd;
    PolynomialSpelled();
  }

  lemma ByteOfBits(r: Register, b: bv32)
    requires r.word & 0xFF == b
    ensures Odd(HalfBy(r, 0)) <==> b & 1 != 0
    ensures Odd(HalfBy(r, 1)) <==> b & 2 != 0
    ensures Odd(HalfBy(r, 2)) <==> b & 4 != 0
    ensures Odd(HalfBy(r, 3)) <==> b & 8 != 0
    ensures Odd(HalfBy(r, 4)) <==> b & 16 != 0
    ensures Odd(HalfBy(r, 5)) <==> b & 32 != 0
    ensures Odd(HalfBy(r, 6)) <==> b & 64 != 0
    ensures Odd(HalfBy(r, 7)) <==> b & 128 != 0
  {
    hide *;
    HalvedNone(r);
    HalvedStep(r, 0);
    HalvedStep(r, 1);
    HalvedStep(r, 2);
    HalvedStep(r, 3);
    HalvedStep(r, 4);
    HalvedStep(r, 5);
    HalvedStep(r, 6);
    LowFour(HalfBy(r, 0), HalfBy(r, 1), HalfBy(r, 2), HalfBy(r, 3), HalfBy(r, 4), b);
    HighFour(HalfBy(r, 4), HalfBy(r, 5), HalfBy(r, 6), HalfBy(r, 7), b);
  }

  lemma HalvedNone(r: Register)
    ensures HalfBy(r, 0) == r
  {
  }

  lemma HalvedStep(r: Register, n: nat)
    ensures HalfBy(r, n + 1) == Half(HalfBy(r, n))
  {
    hide Half;
  }

  lemma LowFour(r0: Register, r1: Register, r2: Register, r3: Register, r4: Register, b: bv32)
    requires r0.word & 0xFF == b && r1 == Half(r0) && r2 == Half(r1) && r3 == Half(r2) && r4 == Half(r3)
    ensures Odd(r0) <==> b & 1 != 0
    ensures Odd(r1) <==> b & 2 != 0
    ensures Odd(r2) <==> b & 4 != 0
    ensures Odd(r3) <==> b & 8 != 0
    ensures r4.word & 0xF == b >> 4
  {
  }

  lemma HighFour(r4: Register, r5: Register, r6: Register, r7: Register, b: bv32)
    requires r4.word & 0xF == b >> 4 && r5 == Half(r4) && r6 == Half(r5) && r7 == Half(r6)
    ensures Odd(r4) <==> b & 16 != 0
    ensures Odd(r5) <==> b & 32 != 0
    ensures Odd(r6) <==> b & 64 != 0
    ensures Odd(r7) <==> b & 128 != 0
  {
  }

  // ---- The register computes the remainder ----

  lemma ShiftedBits(r: Register)
    ensures WordBits(Shift(r)) == PolyShift(WordBits(r))
  {
    hide *;
    PolynomialBits();
    ShiftBits(r);
  }

  /** One step of the division, with the register in front: a leading zero shifts the register. */
  lemma DivideStep(p: Poly, a: Poly)
    requires |p| == 32 && |a| >= 33 && !a[0]
    ensures Remainder(Fronted(p, a)) == Remainder(Fronted(PolyShift(p), a[1..]))
  {
    var c := Fronted(p, a);
    assert c[0] == p[0] && c[33..] == a[33..] && c[32] == a[32];
    var b := a[1..];
    assert b[..32] == a[1..33] && b[32..] == a[33..];
    if p[0] {
      assert Sum(c[1..33], Generator()) + c[33..] == Fronted(PolyShift(p), b);
    } else {
      assert c[1..] == Fronted(PolyShift(p), b);
    }
  }

  lemma {:induction false} DivideSteps(r: Register, n: nat, a: Poly)
    requires |a| >= 32
    ensures Remainder(Fronted(WordBits(r), Zeros(n) + a)) == Remainder(Fronted(WordBits(ShiftBy(r, n)), a))
    decreases n
  {
    hide Remainder, Fronted, WordBits, Shift, PolyShift;
    if n == 0 {
      assert Zeros(0) + a == a;
    } else {
      assert Zeros(n) + a == Zeros(n - 1) + ([false] + a);
      DivideSteps(r, n - 1, [false] + a);
      var s := ShiftBy(r, n - 1);
      ShiftedBits(s);
      DivideStep(WordBits(s), [false] + a);
      assert ([false] + a)[1..] == a;
    }
  }

  // ---- Numbers and bits ----

  lemma EvenValue(h: bv32)
    requires h < 0x8000_0000
    ensures (h << 1) as int == 2 * (h as int)
  {
  }

  lemma OddValue(h: bv32)
    requires h < 0x8000_0000
    ensures ((h << 1) | 1) as int == 2 * (h as int) + 1
  {
  }

  lemma EvenSplit(u: bv32)
    requires u & 1 != 1
    ensures (u >> 1) << 1 == u && u >> 1 < 0x8000_0000
  {
  }

  lemma OddSplit(u: bv32)
    requires u & 1 == 1
    ensures ((u >> 1) << 1) | 1 == u && u >> 1 < 0x8000_0000
  {
  }

  lemma EvenWhole(u: bv32)
    requires u & 1 != 1
    ensures u as int == 2 * ((u >> 1) as int)
  {
    EvenSplit(u);
    EvenValue(u >> 1);
  }

  lemma OddWhole(u: bv32)
    requires u & 1 == 1
    ensures u as int == 2 * ((u >> 1) as int) + 1
  {
    OddSplit(u);
    OddValue(u >> 1);
  }

  function Numeral(r: Register): (n: nat)
    ensures n < 0x1_0000_0000
  {
    r.word as int
  }

  lemma NumeralOf(u: bv32)
    ensures Numeral(Register(u)) == u as int
  {
  }

  lemma HalfEven(r: Register)
    requires !Odd(r)
    ensures Numeral(r) == 2 * Numeral(Half(r))
  {
    hide Numeral, Half;
    var u := r.word;
    EvenWhole(u);
    NumeralOf(u);
    NumeralOf(u >> 1);
    HalfOf(u);
    assert r == Register(u);
  }

  lemma HalfOdd(r: Register)
    requires Odd(r)
    ensures Numeral(r) == 2 * Numeral(Half(r)) + 1
  {
    hide Numeral, Half;
    var u := r.word;
    OddWhole(u);
    NumeralOf(u);
    NumeralOf(u >> 1);
    HalfOf(u);
    assert r == Register(u);
  }

  lemma HalfNumeral(r: Register)
    ensures Numeral(r) == 2 * Numeral(Half(r)) + if Odd(r) then 1 else 0
  {
    hide Numeral, Half, Odd;
    if Odd(r) {
      HalfOdd(r);
    } else {
      HalfEven(r);
    }
  }

  /** The digits of a register's number are its bits. */
  lemma {:induction false} RegisterDigits(r: Register, n: nat)
    ensures forall i :: 0 <= i < n ==> LowBits(Numeral(r), n)[i] == Odd(HalfBy(r, i))
    decreases n
  {
    hide Half, Odd, Numeral;
    if n > 0 {
      HalfNumeral(r);
      RegisterDigits(Half(r), n - 1);
      forall i | 0 <= i < n ensures LowBits(Numeral(r), n)[i] == Odd(HalfBy(r, i)) {
        if i > 0 {
          HalfFirst(r, i - 1);
        } else {
          assert HalfBy(r, 0) == r;
        }
      }
    }
  }

  lemma WordDigits(r: Register)
    ensures WordBits(r) == LowBits(Numeral(r), 32)
  {
    hide HalfBy, Odd, Numeral;
    RegisterDigits(r, 32);
  }

  function Power(n: nat): nat { if n == 0 then 1 else 2 * Power(n - 1) }

  lemma {:induction false} NumberDigits(v: nat, n: nat)
    requires v < Power(n)
    ensures Number(LowBits(v, n)) == v
    decreases n
  {
    if n > 0 {
      NumberDigits(v / 2, n - 1);
      assert LowBits(v, n)[1..] == LowBits(v / 2, n - 1);
    }
  }

  lemma {:induction false} PowerSum(m: nat, n: nat)
    ensures Power(m + n) == Power(m) * Power(n)
    decreases m
  {
    if m > 0 {
      PowerSum(m - 1, n);
    }
  }

  lemma Powers()
    ensures Power(8) == 256 && Power(32) == 0x1_0000_0000
  {
    assert Power(4) == 16;
    PowerSum(4, 4);
    PowerSum(8, 8);
    PowerSum(16, 16);
  }

  lemma WordNumber(r: Register)
    ensures Number(WordBits(r)) == Numeral(r)
  {
    hide WordBits, Number, Numeral;
    Powers();
    WordDigits(r);
    NumberDigits(Numeral(r), 32);
  }

  lemma {:induction false} NoDigits(n: nat)
    ensures LowBits(0, n) == Zeros(n)
  {
    if n > 0 {
      NoDigits(n - 1);
    }
  }

  lemma {:induction false} FewDigits(v: nat, m: nat, n: nat)
    requires v < Power(m)
    ensures LowBits(v, m + n) == LowBits(v, m) + Zeros(n)
    decreases m
  {
    if m == 0 {
      NoDigits(n);
    } else {
      FewDigits(v / 2, m - 1, n);
    }
  }

  lemma WidenedValue(b: bv8)
    ensures (b as bv32) as int == b as int
  {
  }

  lemma LoadedBits(b: u8)
    ensures WordBits(Load(b)) == LowBits(b, 8) + Zeros(24)
  {
    WidenedValue(b as bv8);
    ByteValue(b);
    assert Numeral(Load(b)) == b;
    hide Load, WordBits, LowBits, Numeral;
    WordDigits(Load(b));
    Powers();
    FewDigits(b, 8, 24);
  }

  // ---- The checksum ----

  /** A byte in front of the dividend is added to the register, which then takes eight steps. */
  lemma AbsorbDivides(r: Register, b: u8, a: Poly)
    requires |a| >= 32
    ensures Remainder(Fronted(WordBits(r), LowBits(b, 8) + a)) == Remainder(Fronted(WordBits(Absorb(r, b)), a))
  {
    hide WordBits, LowBits, Load, Xor, ShiftBy, Remainder;
    LoadedBits(b);
    XorBits(r, Load(b));
    var p, q := WordBits(r), LowBits(b, 8);
    MovedFront(p, q, a);
    DivideSteps(Xor(r, Load(b)), 8, a);
  }

  lemma MovedFront(p: Poly, q: Poly, a: Poly)
    requires |p| == 32 && |q| == 8 && |a| >= 32
    ensures Fronted(p, q + a) == Fronted(Sum(p, q + Zeros(24)), Zeros(8) + a)
  {
    var x, y := q + a, Zeros(8) + a;
    forall i | 0 <= i < |x| ensures Fronted(p, x)[i] == Fronted(Sum(p, q + Zeros(24)), y)[i] {
      if i < 32 {
        assert x[..32][i] == x[i] && y[..32][i] == y[i];
      }
    }
  }

  lemma {:induction false} RunDivides(r: Register, data: Bytes, a: Poly)
    requires |a| >= 32
    ensures Remainder(Fronted(WordBits(r), DataBits(data) + a)) == Remainder(Fronted(WordBits(Run(r, data)), a))
    decreases |data|
  {
    hide WordBits, LowBits, Remainder, Absorb, Fronted;
    if data == [] {
      assert DataBits(data) + a == a;
    } else {
      var rest := DataBits(data[1..]) + a;
      assert DataBits(data) + a == LowBits(data[0], 8) + rest;
      AbsorbDivides(r, data[0], rest);
      RunDivides(Absorb(r, data[0]), data[1..], a);
      RunFirst(r, data);
    }
  }

  lemma RunFirst(r: Register, data: Bytes)
    requires data != []
    ensures Run(r, data) == Run(Absorb(r, data[0]), data[1..])
  {
    hide Absorb;
    assert data == [data[0]] + data[1..];
    RunConcat(r, [data[0]], data[1..]);
    assert [data[0]][..0] == [];
    assert Run(r, [data[0]]) == Absorb(r, data[0]);
  }

  lemma FullWord()
    ensures WordBits(START) == Ones(32)
  {
    assert Numeral(START) == 0xFFFF_FFFF;
    hide WordBits, Numeral;
    Powers();
    WordDigits(START);
    AllDigits(32);
  }

  lemma {:induction false} AllDigits(n: nat)
    ensures Power(n) >= 1 && LowBits(Power(n) - 1, n) == Ones(n)
  {
    if n > 0 {
      AllDigits(n - 1);
      assert (Power(n) - 1) / 2 == Power(n - 1) - 1 && (Power(n) - 1) % 2 == 1;
      assert Ones(n) == [true] + Ones(n - 1);
    }
  }

  lemma NothingFurther(p: Poly)
    requires |p| == 32
    ensures Remainder(Fronted(p, Zeros(32))) == p
  {
    assert Fronted(p, Zeros(32)) == p;
  }

  /** What the program computes is the checksum by its definition, for all data. */
  lemma CrcIsChecksum(data: Bytes)
    ensures Crc32(data) == Checksum(data)
  {
    hide WordBits, Remainder, Run, Xor, Fronted, DataBits, Number;
    var z := Run(START, data);
    FullWord();
    RunDivides(START, data, Zeros(32));
    NothingFurther(WordBits(z));
    XorBits(START, z);
    XorLaws(z, START);
    WordNumber(Xor(z, START));
    assert Crc32(data) == Numeral(Xor(z, START));
  }

  /** For data of at least four bytes the complement lies within the data. */
  lemma ComplementedFront(data: Bytes)
    requires |data| >= 4
    ensures Fronted(Ones(32), DataBits(data) + Zeros(32)) == Fronted(Ones(32), DataBits(data)) + Zeros(32)
  {
    FrontOf(DataBits(data));
  }

  lemma FrontOf(a: Poly)
    requires |a| >= 32
    ensures Fronted(Ones(32), a + Zeros(32)) == Fronted(Ones(32), a) + Zeros(32)
  {
    hide Sum;
    assert (a + Zeros(32))[..32] == a[..32] && (a + Zeros(32))[32..] == a[32..] + Zeros(32);
  }

  // ---- Leading zeros and check values ----

  lemma FirstZeroWord()
    ensures Shift8(0xFFFF_FFFF) == 0x2DFD_1072
  {
  }

  lemma FirstZero()
    ensures Absorb(START, 0) == Register(0x2DFD_1072)
  {
    NoLoad();
    EightShifts(START);
    FirstZeroWord();
    hide ShiftBy, Shift8;
  }

  lemma NoLoad()
    ensures Xor(START, Load(0)) == START
  {
  }

  /** A zero byte in front always changes the checksum. */
  lemma LeadingZeroSeen(data: Bytes)
    ensures Crc32([0] + data) != Crc32(data)
  {
    if Crc32([0] + data) == Crc32(data) {
      hide Absorb;
      CrcInjective([0] + data, data);
      RunFirst(START, [0] + data);
      assert ([0] + data)[1..] == data;
      RunInjective(Absorb(START, 0), START, data);
      FirstZero();
      assert false;
    }
  }

  /** The checksum of a single zero byte. */
  lemma CheckValue()
    ensures Crc32([0]) == 0xD202_EF8D
  {
    FirstZero();
    assert [0][..0] == [];
    hide Absorb;
    assert Run(START, [0]) == Register(0x2DFD_1072);
    CheckWord();
  }

  lemma CheckWord()
    ensures Finish(Register(0x2DFD_1072)) == 0xD202_EF8D
  {
  }
}
