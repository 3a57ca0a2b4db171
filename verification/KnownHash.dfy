/** One value of the hash worked out to the end: the one lookup3.c, the public source of the
    function, gives for its own example. */
module KnownHash {
  import opened Jenkins
  import opened Octets
  import opened Seqs

  // ----- exclusive or, byte by byte

  function Num(v: bv8): Byte { v as nat }

  function Upper(v: bv8): bv8 { v >> 1 }

  function Lowest(v: bv8): bv8 { v & 1 }

  function XorBv(v: bv8, w: bv8): bv8 { v ^ w }

  lemma Halves(v: bv8)
    ensures Num(v) == 2 * Num(Upper(v)) + Num(Lowest(v)) && Num(Lowest(v)) < 2
    ensures Num(v) == 0 ==> v == 0
  {
  }

  lemma HalfXor(v: bv8, w: bv8)
    ensures Upper(XorBv(v, w)) == XorBv(Upper(v), Upper(w))
    ensures Num(Lowest(XorBv(v, w))) == (Num(Lowest(v)) + Num(Lowest(w))) % 2
    ensures XorBv(0, 0) == 0 && Num(0) == 0
  {
  }

  lemma XorBit(x: nat, y: nat, p: nat, q: nat, r: nat, s: nat)
    requires x == 2 * p + q && y == 2 * r + s && q < 2 && s < 2
    ensures Xor(x, y) == 2 * Xor(p, r) + (q + s) % 2
  {
    hide Xor;
    XorSplit(x, y);
    assert x / 2 == p && y / 2 == r;
  }

  /** The arithmetic definition is what the machine computes. */
  lemma {:induction false} XorByteIs(v: bv8, w: bv8)
    ensures Xor(Num(v), Num(w)) == Num(XorBv(v, w))
    decreases Num(v) + Num(w)
  {
    hide Xor, Num, Upper, Lowest, XorBv;
    XorZero(0);
    Halves(v);
    Halves(w);
    HalfXor(v, w);
    if Num(v) != 0 || Num(w) != 0 {
      XorByteIs(Upper(v), Upper(w));
      Halves(XorBv(v, w));
      XorBit(Num(v), Num(w), Num(Upper(v)), Num(Lowest(v)), Num(Upper(w)), Num(Lowest(w)));
    }
  }

  lemma XorTwo(p: nat, q: nat, r: nat, s: nat, x: nat)
    requires Xor(p + q / 2, r + s / 2) == x + Xor(q / 2, s / 2)
    ensures Xor(2 * p + q, 2 * r + s) == 2 * x + Xor(q, s)
  {
    hide Xor;
    XorSplit(2 * p + q, 2 * r + s);
    XorSplit(q, s);
  }

  lemma Twice(m: nat, x: nat)
    ensures 2 * m * x == 2 * (m * x)
  {
  }

  /** The bits above and below a power of two do not meet. */
  lemma {:induction false} XorHigh(n: nat, p: nat, q: nat, r: nat, s: nat)
    requires q < Pow2(n) && s < Pow2(n)
    ensures Xor(Pow2(n) * p + q, Pow2(n) * r + s) == Pow2(n) * Xor(p, r) + Xor(q, s)
  {
    hide Xor;
    XorZero(0);
    if n > 0 {
      var m := Pow2(n - 1);
      XorHigh(n - 1, p, q / 2, r, s / 2);
      XorTwo(m * p, q, m * r, s, m * Xor(p, r));
      Twice(m, p);
      Twice(m, r);
      Twice(m, Xor(p, r));
    }
  }

  /** A word, most significant byte first. */
  datatype Bytes4 = Bytes4(p: bv8, q: bv8, r: bv8, s: bv8)

  function Four(w: Bytes4): Word {
    0x100_0000 * Num(w.p) + 0x1_0000 * Num(w.q) + 0x100 * Num(w.r) + Num(w.s)
  }

  function XorFour(v: Bytes4, w: Bytes4): Word {
    Four(Bytes4(XorBv(v.p, w.p), XorBv(v.q, w.q), XorBv(v.r, w.r), XorBv(v.s, w.s)))
  }

  lemma XorDigits(a: Byte, b: Byte, c: Byte, d: Byte, e: Byte, f: Byte, g: Byte, h: Byte)
    ensures Xor(0x100_0000 * a + 0x1_0000 * b + 0x100 * c + d, 0x100_0000 * e + 0x1_0000 * f + 0x100 * g + h)
        == 0x100_0000 * Xor(a, e) + 0x1_0000 * Xor(b, f) + 0x100 * Xor(c, g) + Xor(d, h)
  {
    hide Xor;
    assert Pow2(8) == 0x100;
    XorHigh(8, 0x1_0000 * a + 0x100 * b + c, d, 0x1_0000 * e + 0x100 * f + g, h);
    XorHigh(8, 0x100 * a + b, c, 0x100 * e + f, g);
    XorHigh(8, a, b, e, f);
  }

  lemma XorIs(v: Bytes4, w: Bytes4)
    ensures Xor(Four(v), Four(w)) == XorFour(v, w)
  {
    hide Xor, Num, XorBv;
    XorDigits(Num(v.p), Num(v.q), Num(v.r), Num(v.s), Num(w.p), Num(w.q), Num(w.r), Num(w.s));
    XorByteIs(v.p, w.p);
    XorByteIs(v.q, w.q);
    XorByteIs(v.r, w.r);
    XorByteIs(v.s, w.s);
  }

  // ----- rotation

  lemma PowSplit(k: nat, n: nat)
    requires k <= n
    ensures Pow2(n) == Pow2(k) * Pow2(n - k)
  {
    if k > 0 { PowSplit(k - 1, n - 1); }
  }

  lemma {:induction false} ZeroXor(x: nat)
    ensures Xor(0, x) == x
  {
    if x > 0 { ZeroXor(x / 2); }
  }

  lemma Divided(x: nat, high: nat, low: nat, a: nat, b: nat)
    requires x == high * b + low && low < b && x < a * b
    ensures x / b == high < a && x * a % (a * b) == low * a
  {
    DivUnique(x, high, low, b);
    if high >= a { MulMore(a, high, b); }
    MulLess(low, b, a);
    assert x * a == high * (a * b) + low * a;
    DivUnique(x * a, high, low * a, a * b);
  }

  lemma DivUnique(x: nat, q: nat, r: nat, m: nat)
    requires x == q * m + r && r < m
    ensures x / m == q && x % m == r
  {
    var (d, e) := (x / m, x % m);
    assert x == d * m + e;
    if d < q { MulMore(d + 1, q, m); } else if q < d { MulMore(q + 1, d, m); }
  }

  lemma MulMore(p: nat, q: nat, m: nat)
    requires p <= q
    ensures p * m <= q * m
  {
  }

  lemma MulLess(p: nat, q: nat, m: nat)
    requires p < q && m > 0
    ensures p * m < m * q
  {
  }

  /** The upper k bits of a word come to stand below the others. */
  lemma RotIs(x: Word, k: nat, high: nat, low: nat)
    requires 0 < k < 32 && low < Pow2(32 - k) && x == high * Pow2(32 - k) + low
    ensures Rot(x, k) == low * Pow2(k) + high
  {
    hide Xor;
    WordSize();
    PowSplit(k, 32);
    Divided(x, high, low, Pow2(k), Pow2(32 - k));
    XorHigh(k, low, 0, 0, high);
    XorZero(low);
    ZeroXor(high);
  }

  // ----- the example

  lemma Powers()
    ensures Pow2(4) == 0x10 && Pow2(6) == 0x40 && Pow2(7) == 0x80 && Pow2(8) == 0x100 && Pow2(11) == 0x800
    ensures Pow2(13) == 0x2000 && Pow2(14) == 0x4000 && Pow2(16) == 0x1_0000 && Pow2(18) == 0x4_0000
    ensures Pow2(19) == 0x8_0000
    ensures Pow2(21) == 0x20_0000 && Pow2(24) == 0x100_0000 && Pow2(25) == 0x200_0000 && Pow2(26) == 0x400_0000
    ensures Pow2(28) == 0x1000_0000
  {
    assert Pow2(4) == 0x10;
    assert Pow2(8) == 0x100;
    assert Pow2(12) == 0x1000;
    assert Pow2(16) == 0x1_0000;
    assert Pow2(20) == 0x10_0000;
    assert Pow2(24) == 0x100_0000;
    assert Pow2(28) == 0x1000_0000;
  }

  /** One round of mix, with the word that is rotated cut in two and the words that are put
      together cut into bytes. */
  lemma RoundIs(t: Triple, k: nat, high: nat, low: nat, d: Bytes4, r: Bytes4)
    requires 0 < k < 32 && low < Pow2(32 - k) && t.c == high * Pow2(32 - k) + low
    requires Four(d) == (t.a - t.c) % WORD && Four(r) == low * Pow2(k) + high
    ensures Round(t, k) == Triple(t.b, (t.c + t.b) % WORD, XorFour(d, r))
  {
    hide Rot, Xor, Pow2, XorFour, Four;
    RotIs(t.c, k, high, low);
    XorIs(d, r);
  }

  /** The same for final. */
  lemma FinIs(t: Triple, k: nat, high: nat, low: nat, a: Bytes4, b: Bytes4)
    requires 0 < k < 32 && low < Pow2(32 - k) && t.b == high * Pow2(32 - k) + low
    requires Four(a) == t.a && Four(b) == t.b
    ensures Fin(t, k) == Triple(t.c, (XorFour(a, b) - (low * Pow2(k) + high)) % WORD, t.b)
  {
    hide Rot, Xor, Pow2, XorFour, Four;
    RotIs(t.b, k, high, low);
    XorIs(a, b);
  }

  lemma FirstTwelve()
    ensures Mixed(Triple(0x5123_2e53, 0x4e11_322d, 0x3fce_247f)) == Triple(0xf859_ad7a, 0x4bc_57ae, 0x40dd_dd7e)
  {
    hide Round, Pow2;
    Powers();
    RoundIs(Triple(0x5123_2e53, 0x4e11_322d, 0x3fce_247f), 4, 0x3, 0xfce_247f,
            Bytes4(0x11, 0x55, 0x09, 0xd4), Bytes4(0xfc, 0xe2, 0x47, 0xf3));
    RoundIs(Triple(0x4e11_322d, 0x8ddf_56ac, 0xedb7_4e27), 6, 0x3b, 0x1b7_4e27,
            Bytes4(0x60, 0x59, 0xe4, 0x06), Bytes4(0x6d, 0xd3, 0x89, 0xfb));
    RoundIs(Triple(0x8ddf_56ac, 0x7b96_a4d3, 0xd8a_6dfd), 8, 0xd, 0x8a_6dfd,
            Bytes4(0x80, 0x54, 0xe8, 0xaf), Bytes4(0x8a, 0x6d, 0xfd, 0x0d));
    RoundIs(Triple(0x7b96_a4d3, 0x8921_12d0, 0xa39_15a2), 16, 0xa39, 0x15a2,
            Bytes4(0x71, 0x5d, 0x8f, 0x31), Bytes4(0x15, 0xa2, 0x0a, 0x39));
    RoundIs(Triple(0x8921_12d0, 0x935a_2872, 0x64ff_8508), 19, 0x3_27fc, 0x508,
            Bytes4(0x24, 0x21, 0x8d, 0xc8), Bytes4(0x28, 0x43, 0x27, 0xfc));
    RoundIs(Triple(0x935a_2872, 0xf859_ad7a, 0xc62_aa34), 4, 0x0, 0xc62_aa34,
            Bytes4(0x86, 0xf7, 0x7e, 0x3e), Bytes4(0xc6, 0x2a, 0xa3, 0x40));
  }

  lemma SecondTwelve()
    ensures Mixed(Triple(0x6b7a_11e8, 0x7321_ce13, 0xa243_569e)) == Triple(0x336a_ded2, 0x59f_2642, 0xbd02_ebd5)
  {
    hide Round, Pow2;
    Powers();
    RoundIs(Triple(0x6b7a_11e8, 0x7321_ce13, 0xa243_569e), 4, 0xa, 0x243_569e,
            Bytes4(0xc9, 0x36, 0xbb, 0x4a), Bytes4(0x24, 0x35, 0x69, 0xea));
    RoundIs(Triple(0x7321_ce13, 0x1565_24b1, 0xed03_d2a0), 6, 0x3b, 0x103_d2a0,
            Bytes4(0x86, 0x1d, 0xfb, 0x73), Bytes4(0x40, 0xf4, 0xa8, 0x3b));
    RoundIs(Triple(0x1565_24b1, 0x268_f751, 0xc6e9_5348), 8, 0xc6, 0xe9_5348,
            Bytes4(0x4e, 0x7b, 0xd1, 0x69), Bytes4(0xe9, 0x53, 0x48, 0xc6));
    RoundIs(Triple(0x268_f751, 0xc952_4a99, 0xa728_99af), 16, 0xa728, 0x99af,
            Bytes4(0x5b, 0x40, 0x5d, 0xa2), Bytes4(0x99, 0xaf, 0xa7, 0x28));
    RoundIs(Triple(0xc952_4a99, 0x707a_e448, 0xc2ef_fa8a), 19, 0x6_177f, 0x1a8a,
            Bytes4(0x06, 0x62, 0x50, 0x0f), Bytes4(0xd4, 0x56, 0x17, 0x7f));
    RoundIs(Triple(0x707a_e448, 0x336a_ded2, 0xd234_4770), 4, 0xd, 0x234_4770,
            Bytes4(0x9e, 0x46, 0x9c, 0xd8), Bytes4(0x23, 0x44, 0x77, 0x0d));
  }

  lemma LastSix()
    ensures Finished(Triple(0x948b_5244, 0x59f_95a9, 0xbd02_ebd5)) == 0x1777_0551
  {
    hide Fin, Pow2;
    Powers();
    FinIs(Triple(0xbd02_ebd5, 0x59f_95a9, 0x948b_5244), 14, 0x167, 0x3_95a9,
          Bytes4(0xbd, 0x02, 0xeb, 0xd5), Bytes4(0x05, 0x9f, 0x95, 0xa9));
    FinIs(Triple(0x948b_5244, 0xd333_3d15, 0x59f_95a9), 11, 0x699, 0x13_3d15,
          Bytes4(0x94, 0x8b, 0x52, 0x44), Bytes4(0xd3, 0x33, 0x3d, 0x15));
    FinIs(Triple(0x59f_95a9, 0xadcf_c0b8, 0xd333_3d15), 25, 0x15b_9f81, 0x38,
          Bytes4(0x05, 0x9f, 0x95, 0xa9), Bytes4(0xad, 0xcf, 0xc0, 0xb8));
    FinIs(Triple(0xd333_3d15, 0x36f4_b590, 0xadcf_c0b8), 16, 0x36f4, 0xb590,
          Bytes4(0xd3, 0x33, 0x3d, 0x15), Bytes4(0x36, 0xf4, 0xb5, 0x90));
    FinIs(Triple(0xadcf_c0b8, 0x3037_5191, 0x36f4_b590), 4, 0x3, 0x37_5191,
          Bytes4(0xad, 0xcf, 0xc0, 0xb8), Bytes4(0x30, 0x37, 0x51, 0x91));
    FinIs(Triple(0x36f4_b590, 0x9a83_7816, 0x3037_5191), 14, 0x26a0, 0x3_7816,
          Bytes4(0x36, 0xf4, 0xb5, 0x90), Bytes4(0x9a, 0x83, 0x78, 0x16));
    FinIs(Triple(0x3037_5191, 0xce72_26e6, 0x9a83_7816), 24, 0xce_7226, 0xe6,
          Bytes4(0x30, 0x37, 0x51, 0x91), Bytes4(0xce, 0x72, 0x26, 0xe6));
  }

  /** "Four score and seven years ago" in bytes. */
  function Twelve1(): seq<Byte> { [0x46, 0x6f, 0x75, 0x72, 0x20, 0x73, 0x63, 0x6f, 0x72, 0x65, 0x20, 0x61] }

  function Twelve2(): seq<Byte> { [0x6e, 0x64, 0x20, 0x73, 0x65, 0x76, 0x65, 0x6e, 0x20, 0x79, 0x65, 0x61] }

  function Six(): seq<Byte> { [0x72, 0x73, 0x20, 0x61, 0x67, 0x6f] }

  function Example(): seq<Byte> { Twelve1() + (Twelve2() + Six()) }

  lemma PartOf(s: seq<Byte>, t: seq<Byte>, i: nat)
    requires i + 4 <= |s|
    ensures Part(s + t, i) == Part(s, i)
  {
  }

  lemma Words()
    ensures var s := Twelve1(); |s| == 12 && Fed(Triple(0, 0, 0), s) == Triple(0x7275_6f46, 0x6f63_7320, 0x6120_6572)
    ensures var s := Twelve2(); |s| == 12 && Fed(Triple(0, 0, 0), s) == Triple(0x7320_646e, 0x6e65_7665, 0x6165_7920)
    ensures var s := Six(); |s| == 6 && Fed(Triple(0, 0, 0), s) == Triple(0x6120_7372, 0x6f67, 0)
  {
  }

  lemma Reduced(x: nat, y: nat)
    ensures Add(x, Add(0, y)) == Add(x, y)
  {
  }

  lemma FedWords(t: Triple, s: seq<Byte>, rest: seq<Byte>)
    requires |s| == 12 || rest == []
    ensures var w := Fed(Triple(0, 0, 0), s);
      Fed(t, s + rest) == Triple(Add(t.a, w.a), Add(t.b, w.b), Add(t.c, w.c))
  {
    hide Part, Add;
    Reduced(t.a, Part(s, 0));
    Reduced(t.b, Part(s, 4));
    Reduced(t.c, Part(s, 8));
    if |s| == 12 {
      PartOf(s, rest, 0);
      PartOf(s, rest, 4);
      PartOf(s, rest, 8);
    } else {
      assert s + rest == s;
    }
  }

  /** The published value. */
  lemma Published()
    ensures Hashed(Example(), 0) == 0x1777_0551
  {
    hide Mixed, Finished, Digest, Fed, Twelve1, Twelve2, Six;
    Words();
    var (a, b, c) := (Twelve1(), Twelve2(), Six());
    var t := Start(30, 0);
    assert t == Triple(0xdead_bf0d, 0xdead_bf0d, 0xdead_bf0d);
    FedWords(t, a, b + c);
    assert (a + (b + c))[12..] == b + c && (b + c)[12..] == c == c + [];
    DigestStep(t, a + (b + c));
    FirstTwelve();
    var u := Mixed(Fed(t, a + (b + c)));
    FedWords(u, b, c);
    DigestStep(u, b + c);
    SecondTwelve();
    var v := Mixed(Fed(u, b + c));
    FedWords(v, c, []);
    DigestLast(v, c);
    LastSix();
  }
}
