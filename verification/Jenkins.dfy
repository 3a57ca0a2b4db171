/** hash.c: Bob Jenkins' hash, its three loops for the three kinds of alignment proved
    against one definition that reads bytes.  Words are numbers below 2^32. */
module Jenkins {
  import opened Octets
  import opened Seqs

  const WORD: nat := 0x1_0000_0000

  type Word = w: nat | w < 0x1_0000_0000

  datatype Triple = Triple(a: Word, b: Word, c: Word)

  // ----- arithmetic on uint32_t

  function Add(x: nat, y: nat): (r: Word)
    ensures r == (x + y) % WORD
  {
    var r := (x + y) % WORD;
    r
  }

  function Sub(x: nat, y: nat): (r: Word)
    ensures r == (x - y) % WORD
  {
    var r := (x - y) % WORD;
    r
  }

  /** Exclusive or, bit by bit. */
  function Xor(x: nat, y: nat): (r: nat)
    decreases x + y
  {
    if x == 0 && y == 0 then 0 else 2 * Xor(x / 2, y / 2) + (x + y) % 2
  }

  lemma {:induction false} XorTwice(x: nat, y: nat)
    ensures Xor(Xor(x, y), y) == x
    decreases x + y
  {
    hide Xor;
    XorZero(0);
    if x > 0 || y > 0 {
      XorTwice(x / 2, y / 2);
      var r := Xor(x, y);
      XorSplit(x, y);
      XorSplit(r, y);
      assert r / 2 == Xor(x / 2, y / 2) && r % 2 == (x + y) % 2;
      assert (r + y) % 2 == x % 2;
    }
  }

  lemma XorSplit(x: nat, y: nat)
    ensures Xor(x, y) == 2 * Xor(x / 2, y / 2) + (x + y) % 2
  {
  }

  lemma {:induction false} XorZero(x: nat)
    ensures Xor(x, 0) == x
  {
    if x > 0 { XorZero(x / 2); }
  }

  lemma {:induction false} XorBound(x: nat, y: nat, n: nat)
    requires x < Pow2(n) && y < Pow2(n)
    ensures Xor(x, y) < Pow2(n)
  {
    if n > 0 { XorBound(x / 2, y / 2, n - 1); }
  }

  lemma WordSize()
    ensures Pow2(32) == WORD
  {
    assert Pow2(8) == 256;
    assert Pow2(16) == 65536;
    assert Pow2(24) == 16777216;
    assert Pow2(32) == WORD;
  }

  function XorWord(x: Word, y: Word): (r: Word)
    ensures r == Xor(x, y)
  {
    WordSize();
    XorBound(x, y, 32);
    Xor(x, y)
  }

  function Rot(x: Word, k: nat): Word
    requires 0 < k < 32
  {
    var (low: nat, high: nat) := (x, x);
    WordSize();
    var left: Word := low * Pow2(k) % WORD;
    var right := high / Pow2(32 - k);
    assert right <= high by { DivShrinks(high, Pow2(32 - k)); }
    XorWord(left, right)
  }

  lemma DivShrinks(x: nat, m: nat)
    requires m > 0
    ensures x / m <= x
  {
    MulGrows(x / m, m);
  }

  lemma MulGrows(q: nat, m: nat)
    requires m > 0
    ensures q <= m * q
  {
  }

  lemma UndoAdd(x: Word, y: Word)
    ensures Sub(Add(x, y), y) == x
    ensures Add(Sub(x, y), y) == x
  {
  }

  // ----- mix

  /** x -= z; x ^= rot(z, k); z += y, the three words then changing places. */
  function Round(t: Triple, k: nat): Triple
    requires 0 < k < 32
  {
    Triple(t.b, Add(t.c, t.b), XorWord(Sub(t.a, t.c), Rot(t.c, k)))
  }

  function Unround(t: Triple, k: nat): Triple
    requires 0 < k < 32
  {
    var z := Sub(t.b, t.a);
    Triple(Add(XorWord(t.c, Rot(z, k)), z), t.a, z)
  }

  lemma RoundBack(t: Triple, k: nat)
    requires 0 < k < 32
    ensures Unround(Round(t, k), k) == t
    ensures Round(Unround(t, k), k) == t
  {
    hide Rot, Xor, Add, Sub;
    var z := Sub(t.b, t.a);
    UndoAdd(t.c, t.b);
    UndoAdd(t.a, t.c);
    UndoAdd(t.b, t.a);
    UndoAdd(XorWord(t.c, Rot(z, k)), z);
    XorTwice(Sub(t.a, t.c), Rot(t.c, k));
    XorTwice(t.c, Rot(z, k));
  }

  function Mixed(t: Triple): Triple {
    Round(Round(Round(Round(Round(Round(t, 4), 6), 8), 16), 19), 4)
  }

  function Unmixed(t: Triple): Triple {
    Unround(Unround(Unround(Unround(Unround(Unround(t, 4), 19), 16), 8), 6), 4)
  }

  /** mix is reversible: a bijection on triples of 32-bit words. */
  lemma MixBijection(t: Triple)
    ensures Unmixed(Mixed(t)) == t
    ensures Mixed(Unmixed(t)) == t
  {
    hide Round, Unround;
    var t1 := Round(t, 4);
    var t2 := Round(t1, 6);
    var t3 := Round(t2, 8);
    var t4 := Round(t3, 16);
    var t5 := Round(t4, 19);
    RoundBack(t, 4); RoundBack(t1, 6); RoundBack(t2, 8); RoundBack(t3, 16); RoundBack(t4, 19); RoundBack(t5, 4);
    var u1 := Unround(t, 4);
    var u2 := Unround(u1, 19);
    var u3 := Unround(u2, 16);
    var u4 := Unround(u3, 8);
    var u5 := Unround(u4, 6);
    RoundBack(u1, 19); RoundBack(u2, 16); RoundBack(u3, 8); RoundBack(u4, 6); RoundBack(u5, 4);
  }

  /** The macro. */
  method Mix(a0: Word, b0: Word, c0: Word) returns (a: Word, b: Word, c: Word)
    ensures Triple(a, b, c) == Mixed(Triple(a0, b0, c0))
  {
    hide Rot, Add, Sub, Xor;
    a, b, c := a0, b0, c0;
    a := Sub(a, c); a := XorWord(a, Rot(c, 4)); c := Add(c, b);
    b := Sub(b, a); b := XorWord(b, Rot(a, 6)); a := Add(a, c);
    c := Sub(c, b); c := XorWord(c, Rot(b, 8)); b := Add(b, a);
    a := Sub(a, c); a := XorWord(a, Rot(c, 16)); c := Add(c, b);
    b := Sub(b, a); b := XorWord(b, Rot(a, 19)); a := Add(a, c);
    c := Sub(c, b); c := XorWord(c, Rot(b, 4)); b := Add(b, a);
  }

  /** x ^= y; x -= rot(y, k), the three words then changing places. */
  function Fin(t: Triple, k: nat): Triple
    requires 0 < k < 32
  {
    Triple(t.c, Sub(XorWord(t.a, t.b), Rot(t.b, k)), t.b)
  }

  /** The word c after final. */
  function Finished(t: Triple): Word {
    Fin(Fin(Fin(Fin(Fin(Fin(Fin(Triple(t.c, t.b, t.a), 14), 11), 25), 16), 4), 14), 24).b
  }

  /** The macro; its caller only uses c. */
  method Final(a0: Word, b0: Word, c0: Word) returns (c: Word)
    ensures c == Finished(Triple(a0, b0, c0))
  {
    hide Rot, Add, Sub, Xor;
    var a, b := a0, b0;
    c := c0;
    c := XorWord(c, b); c := Sub(c, Rot(b, 14));
    a := XorWord(a, c); a := Sub(a, Rot(c, 11));
    b := XorWord(b, a); b := Sub(b, Rot(a, 25));
    c := XorWord(c, b); c := Sub(c, Rot(b, 16));
    a := XorWord(a, c); a := Sub(a, Rot(c, 4));
    b := XorWord(b, a); b := Sub(b, Rot(a, 14));
    c := XorWord(c, b); c := Sub(c, Rot(b, 24));
  }

  // ----- the reference: little-endian words of a byte string, zero-padded at its end

  function At(s: seq<Byte>, i: nat): (b: nat)
    ensures b < 256
  {
    if i < |s| then s[i] else 0
  }

  /** Bytes i to i + 3 of s as a little-endian word. */
  function Part(s: seq<Byte>, i: nat): nat {
    At(s, i) + 0x100 * At(s, i + 1) + 0x1_0000 * At(s, i + 2) + 0x100_0000 * At(s, i + 3)
  }

  function Fed(t: Triple, s: seq<Byte>): Triple {
    Triple(Add(t.a, Part(s, 0)), Add(t.b, Part(s, 4)), Add(t.c, Part(s, 8)))
  }

  function Digest(t: Triple, s: seq<Byte>): Word
    decreases |s|
  {
    if |s| > 12 then Digest(Mixed(Fed(t, s)), s[12..])
    else if s == [] then t.c
    else Finished(Fed(t, s))
  }

  function Start(length: nat, initval: Word): Triple {
    var x := Add(Add(0xdead_beef, length), initval);
    Triple(x, x, x)
  }

  /** The hash of a byte string. */
  function Hashed(s: seq<Byte>, initval: Word): Word { Digest(Start(|s|, initval), s) }

  lemma DigestStep(t: Triple, s: seq<Byte>)
    requires |s| > 12
    ensures Digest(t, s) == Digest(Mixed(Fed(t, s)), s[12..])
  {
  }

  lemma DigestLast(t: Triple, s: seq<Byte>)
    requires |s| <= 12
    ensures Digest(t, s) == if s == [] then t.c else Finished(Fed(t, s))
  {
  }

  lemma AddAdd(x: nat, y: nat, z: nat)
    ensures Add(Add(x, y), z) == Add(x, y + z)
  {
  }

  // ----- loads from memory

  function Load8(mem: array<Byte>, p: nat): nat
    requires p < mem.Length
    reads mem
  {
    mem[p]
  }

  function Load16(mem: array<Byte>, p: nat): nat
    requires p + 2 <= mem.Length
    reads mem
  {
    Load8(mem, p) + 0x100 * Load8(mem, p + 1)
  }

  function Load32(mem: array<Byte>, p: nat): nat
    requires p + 4 <= mem.Length
    reads mem
  {
    Load8(mem, p) + 0x100 * Load8(mem, p + 1) + 0x1_0000 * Load8(mem, p + 2) + 0x100_0000 * Load8(mem, p + 3)
  }

  /** A word read from memory, cut off where the string ends, is a word of the string. */
  lemma Loaded(mem: array<Byte>, k: nat, n: nat, i: nat)
    requires k + n <= mem.Length && i < n
    ensures At(mem[k..k + n], i) == Load8(mem, k + i)
    ensures i + 1 == n ==> Part(mem[k..k + n], i) == Load8(mem, k + i)
    ensures i + 2 <= n ==> Load16(mem, k + i) == Load8(mem, k + i) + 0x100 * Load8(mem, k + i + 1)
    ensures i + 2 == n ==> Part(mem[k..k + n], i) == Load16(mem, k + i)
    ensures i + 3 == n ==> Part(mem[k..k + n], i) == Load16(mem, k + i) + 0x1_0000 * Load8(mem, k + i + 2)
    ensures i + 4 <= n ==> Part(mem[k..k + n], i) == Load32(mem, k + i)
    ensures i + 4 <= n ==> Load32(mem, k + i) == Load16(mem, k + i) + 0x1_0000 * Load16(mem, k + i + 2)
    ensures k + i + 4 <= mem.Length && i + 3 == n ==> Part(mem[k..k + n], i) == Load32(mem, k + i) % 0x100_0000
    ensures k + i + 4 <= mem.Length && i + 2 == n ==> Part(mem[k..k + n], i) == Load32(mem, k + i) % 0x1_0000
    ensures k + i + 4 <= mem.Length && i + 1 == n ==> Part(mem[k..k + n], i) == Load32(mem, k + i) % 0x100
  {
  }

  lemma Beyond(s: seq<Byte>, i: nat)
    requires i >= |s|
    ensures Part(s, i) == 0
  {
  }

  lemma AddNothing(x: Word)
    ensures Add(x, 0) == x
  {
  }

  /** The loop that reads 32-bit words. */
  method HashWords(mem: array<Byte>, key: nat, length: nat, a0: Word, b0: Word, c0: Word) returns (h: Word)
    requires key + length <= mem.Length && mem.Length % 4 == 0 && key % 4 == 0
    ensures h == Digest(Triple(a0, b0, c0), mem[key..key + length])
  {
    hide Add, Mixed, Finished, Digest, Load8, Load16, Load32, Part;
    var a, b, c, k, n := a0, b0, c0, key, length;
    while n > 12
      invariant k + n == key + length && k % 4 == 0
      invariant Digest(Triple(a, b, c), mem[k..k + n]) == Digest(Triple(a0, b0, c0), mem[key..key + length])
      decreases n
    {
      ghost var s := mem[k..k + n];
      DigestStep(Triple(a, b, c), s);
      Loaded(mem, k, n, 0); Loaded(mem, k, n, 4); Loaded(mem, k, n, 8);
      assert s[12..] == mem[k + 12..k + n];
      a := Add(a, Load32(mem, k));
      b := Add(b, Load32(mem, k + 4));
      c := Add(c, Load32(mem, k + 8));
      a, b, c := Mix(a, b, c);
      n := n - 12;
      k := k + 12;
    }
    DigestLast(Triple(a, b, c), mem[k..k + n]);
    if n == 0 { return c; }
    a, b, c := LastWords(mem, k, n, a, b, c);
    h := Final(a, b, c);
  }

  /** The switch over what is left; the masks keep out what lies behind the string. */
  method LastWords(mem: array<Byte>, k: nat, n: nat, a0: Word, b0: Word, c0: Word) returns (a: Word, b: Word, c: Word)
    requires k + n <= mem.Length && mem.Length % 4 == 0 && k % 4 == 0 && 0 < n <= 12
    ensures Triple(a, b, c) == Fed(Triple(a0, b0, c0), mem[k..k + n])
  {
    hide Add, Load8, Load16, Load32, Part;
    a, b, c := a0, b0, c0;
    ghost var s := mem[k..k + n];
    AddNothing(b); AddNothing(c);
    Loaded(mem, k, n, 0);
    if n > 4 { Loaded(mem, k, n, 4); } else { Beyond(s, 4); }
    if n > 8 { Loaded(mem, k, n, 8); } else { Beyond(s, 8); }
    if n == 12 {
      c := Add(c, Load32(mem, k + 8)); b := Add(b, Load32(mem, k + 4)); a := Add(a, Load32(mem, k));
    } else if n == 11 {
      c := Add(c, Load32(mem, k + 8) % 0x100_0000); b := Add(b, Load32(mem, k + 4)); a := Add(a, Load32(mem, k));
    } else if n == 10 {
      c := Add(c, Load32(mem, k + 8) % 0x1_0000); b := Add(b, Load32(mem, k + 4)); a := Add(a, Load32(mem, k));
    } else if n == 9 {
      c := Add(c, Load32(mem, k + 8) % 0x100); b := Add(b, Load32(mem, k + 4)); a := Add(a, Load32(mem, k));
    } else if n == 8 {
      b := Add(b, Load32(mem, k + 4)); a := Add(a, Load32(mem, k));
    } else if n == 7 {
      b := Add(b, Load32(mem, k + 4) % 0x100_0000); a := Add(a, Load32(mem, k));
    } else if n == 6 {
      b := Add(b, Load32(mem, k + 4) % 0x1_0000); a := Add(a, Load32(mem, k));
    } else if n == 5 {
      b := Add(b, Load32(mem, k + 4) % 0x100); a := Add(a, Load32(mem, k));
    } else if n == 4 {
      a := Add(a, Load32(mem, k));
    } else if n == 3 {
      a := Add(a, Load32(mem, k) % 0x100_0000);
    } else if n == 2 {
      a := Add(a, Load32(mem, k) % 0x1_0000);
    } else {
      a := Add(a, Load32(mem, k) % 0x100);
    }
  }

  /** The loop that reads 16-bit words. */
  method HashHalves(mem: array<Byte>, key: nat, length: nat, a0: Word, b0: Word, c0: Word) returns (h: Word)
    requires key + length <= mem.Length
    ensures h == Digest(Triple(a0, b0, c0), mem[key..key + length])
  {
    hide Add, Mixed, Finished, Digest, Load8, Load16, Load32, Part;
    var a, b, c, k, n := a0, b0, c0, key, length;
    while n > 12
      invariant k + n == key + length
      invariant Digest(Triple(a, b, c), mem[k..k + n]) == Digest(Triple(a0, b0, c0), mem[key..key + length])
      decreases n
    {
      ghost var s := mem[k..k + n];
      DigestStep(Triple(a, b, c), s);
      Loaded(mem, k, n, 0); Loaded(mem, k, n, 4); Loaded(mem, k, n, 8);
      assert s[12..] == mem[k + 12..k + n];
      a := Add(a, Load16(mem, k) + 0x1_0000 * Load16(mem, k + 2));
      b := Add(b, Load16(mem, k + 4) + 0x1_0000 * Load16(mem, k + 6));
      c := Add(c, Load16(mem, k + 8) + 0x1_0000 * Load16(mem, k + 10));
      a, b, c := Mix(a, b, c);
      n := n - 12;
      k := k + 12;
    }
    DigestLast(Triple(a, b, c), mem[k..k + n]);
    if n == 0 { return c; }
    a, b, c := LastHalves(mem, k, n, a, b, c);
    h := Final(a, b, c);
  }

  method LastHalves(mem: array<Byte>, k: nat, n: nat, a0: Word, b0: Word, c0: Word) returns (a: Word, b: Word, c: Word)
    requires k + n <= mem.Length && 0 < n <= 12
    ensures Triple(a, b, c) == Fed(Triple(a0, b0, c0), mem[k..k + n])
  {
    hide Add, Load8, Load16, Load32, Part;
    a, b, c := a0, b0, c0;
    ghost var s := mem[k..k + n];
    AddNothing(b); AddNothing(c);
    Loaded(mem, k, n, 0);
    if n > 4 { Loaded(mem, k, n, 4); } else { Beyond(s, 4); }
    if n > 8 { Loaded(mem, k, n, 8); } else { Beyond(s, 8); }
    // the cases 12, 11 and 10, 9 and 8, 7 and 6, 5 and 4, 3 and 2, 1 of the switch
    if n == 12 {
      c := Add(c, Load16(mem, k + 8) + 0x1_0000 * Load16(mem, k + 10));
      b := Add(b, Load16(mem, k + 4) + 0x1_0000 * Load16(mem, k + 6));
      a := Add(a, Load16(mem, k) + 0x1_0000 * Load16(mem, k + 2));
    } else if n >= 10 {
      if n == 11 {
        AddAdd(c, 0x1_0000 * Load8(mem, k + 10), Load16(mem, k + 8));
        c := Add(c, 0x1_0000 * Load8(mem, k + 10));
      }
      c := Add(c, Load16(mem, k + 8));
      b := Add(b, Load16(mem, k + 4) + 0x1_0000 * Load16(mem, k + 6));
      a := Add(a, Load16(mem, k) + 0x1_0000 * Load16(mem, k + 2));
    } else if n >= 8 {
      if n == 9 { c := Add(c, Load8(mem, k + 8)); }
      b := Add(b, Load16(mem, k + 4) + 0x1_0000 * Load16(mem, k + 6));
      a := Add(a, Load16(mem, k) + 0x1_0000 * Load16(mem, k + 2));
    } else if n >= 6 {
      if n == 7 {
        AddAdd(b, 0x1_0000 * Load8(mem, k + 6), Load16(mem, k + 4));
        b := Add(b, 0x1_0000 * Load8(mem, k + 6));
      }
      b := Add(b, Load16(mem, k + 4));
      a := Add(a, Load16(mem, k) + 0x1_0000 * Load16(mem, k + 2));
    } else if n >= 4 {
      if n == 5 { b := Add(b, Load8(mem, k + 4)); }
      a := Add(a, Load16(mem, k) + 0x1_0000 * Load16(mem, k + 2));
    } else if n >= 2 {
      if n == 3 {
        AddAdd(a, 0x1_0000 * Load8(mem, k + 2), Load16(mem, k));
        a := Add(a, 0x1_0000 * Load8(mem, k + 2));
      }
      a := Add(a, Load16(mem, k));
    } else {
      a := Add(a, Load8(mem, k));
    }
  }

  /** The bytes of s from i on are those of memory from p on, as far as they go. */
  lemma BytesAt(mem: array<Byte>, p: nat, n: nat, s: seq<Byte>, i: nat)
    requires p + n <= mem.Length && n <= 4 && i + n <= |s| && (n < 4 ==> i + n >= |s|) && s[i..i + n] == mem[p..p + n]
    ensures At(s, i) == if n > 0 then Load8(mem, p) else 0
    ensures At(s, i + 1) == if n > 1 then Load8(mem, p + 1) else 0
    ensures At(s, i + 2) == if n > 2 then Load8(mem, p + 2) else 0
    ensures At(s, i + 3) == if n > 3 then Load8(mem, p + 3) else 0
  {
    var w := s[i..i + n];
    assert n > 0 ==> w[0] == s[i];
    assert n > 1 ==> w[1] == s[i + 1];
    assert n > 2 ==> w[2] == s[i + 2];
    assert n > 3 ==> w[3] == s[i + 3];
  }

  lemma FourAdds(x: nat, v: nat, w: nat, y: nat, z: nat)
    ensures Add(Add(Add(Add(x, v), w), y), z) == Add(x, v + w + y + z)
  {
    hide Add;
    AddAdd(x, v, w);
    AddAdd(x, v + w, y);
    AddAdd(x, v + w + y, z);
  }

  /** Four bytes go into a word, lowest first. */
  method AddUp(mem: array<Byte>, p: nat, x0: Word, ghost s: seq<Byte>, ghost i: nat) returns (x: Word)
    requires p + 4 <= mem.Length && i + 4 <= |s| && s[i..i + 4] == mem[p..p + 4]
    ensures x == Add(x0, Part(s, i))
  {
    hide Add, At, Load8;
    BytesAt(mem, p, 4, s, i);
    FourAdds(x0, Load8(mem, p), 0x100 * Load8(mem, p + 1), 0x1_0000 * Load8(mem, p + 2),
        0x100_0000 * Load8(mem, p + 3));
    x := Add(x0, Load8(mem, p));
    x := Add(x, 0x100 * Load8(mem, p + 1));
    x := Add(x, 0x1_0000 * Load8(mem, p + 2));
    x := Add(x, 0x100_0000 * Load8(mem, p + 3));
  }

  /** The fall-through cases of the last switch that fill one word, highest byte first: n of
      its bytes are there. */
  method AddDown(mem: array<Byte>, p: nat, n: nat, x0: Word, ghost s: seq<Byte>, ghost i: nat) returns (x: Word)
    requires p + n <= mem.Length && n <= 4 && i + n <= |s| && (n < 4 ==> i + n >= |s|) && s[i..i + n] == mem[p..p + n]
    ensures x == Add(x0, Part(s, i))
  {
    hide Add, At, Load8;
    BytesAt(mem, p, n, s, i);
    AddNothing(x0);
    FourAdds(x0, 0x100_0000 * At(s, i + 3), 0x1_0000 * At(s, i + 2), 0x100 * At(s, i + 1), At(s, i));
    x := x0;
    if n >= 4 { x := Add(x, 0x100_0000 * Load8(mem, p + 3)); }
    if n >= 3 { x := Add(x, 0x1_0000 * Load8(mem, p + 2)); }
    if n >= 2 { x := Add(x, 0x100 * Load8(mem, p + 1)); }
    if n >= 1 { x := Add(x, Load8(mem, p)); }
  }

  lemma Piece(mem: array<Byte>, k: nat, n: nat, i: nat, j: nat)
    requires k + n <= mem.Length && i <= j <= n
    ensures mem[k..k + n][i..j] == mem[k + i..k + j]
  {
    var (s, t) := (mem[k..k + n][i..j], mem[k + i..k + j]);
    assert |s| == |t| && forall x :: 0 <= x < |s| ==> s[x] == t[x];
  }

  /** The loop that reads bytes. */
  method HashBytes(mem: array<Byte>, key: nat, length: nat, a0: Word, b0: Word, c0: Word) returns (h: Word)
    requires key + length <= mem.Length
    ensures h == Digest(Triple(a0, b0, c0), mem[key..key + length])
  {
    hide Add, Mixed, Finished, Digest, Part;
    var a, b, c, k, n := a0, b0, c0, key, length;
    while n > 12
      invariant k + n == key + length
      invariant Digest(Triple(a, b, c), mem[k..k + n]) == Digest(Triple(a0, b0, c0), mem[key..key + length])
      decreases n
    {
      ghost var s := mem[k..k + n];
      DigestStep(Triple(a, b, c), s);
      assert s[12..] == mem[k + 12..k + n];
      Piece(mem, k, n, 0, 4); Piece(mem, k, n, 4, 8); Piece(mem, k, n, 8, 12);
      a := AddUp(mem, k, a, s, 0);
      b := AddUp(mem, k + 4, b, s, 4);
      c := AddUp(mem, k + 8, c, s, 8);
      a, b, c := Mix(a, b, c);
      n := n - 12;
      k := k + 12;
    }
    DigestLast(Triple(a, b, c), mem[k..k + n]);
    if n == 0 { return c; }
    a, b, c := LastBytes(mem, k, n, a, b, c);
    h := Final(a, b, c);
  }

  method LastBytes(mem: array<Byte>, k: nat, n: nat, a0: Word, b0: Word, c0: Word) returns (a: Word, b: Word, c: Word)
    requires k + n <= mem.Length && 0 < n <= 12
    ensures Triple(a, b, c) == Fed(Triple(a0, b0, c0), mem[k..k + n])
  {
    hide Add, Part;
    a, b, c := a0, b0, c0;
    ghost var s := mem[k..k + n];
    var inC := if n > 8 then n - 8 else 0;
    var inB := if n > 8 then 4 else if n > 4 then n - 4 else 0;
    var inA := if n > 4 then 4 else n;
    AddNothing(b); AddNothing(c);
    Beyond2(s, n);
    if n > 8 { Piece(mem, k, n, 8, 8 + inC); c := AddDown(mem, k + 8, inC, c, s, 8); }
    if n > 4 { Piece(mem, k, n, 4, 4 + inB); b := AddDown(mem, k + 4, inB, b, s, 4); }
    Piece(mem, k, n, 0, inA);
    a := AddDown(mem, k, inA, a, s, 0);
  }

  lemma Beyond2(s: seq<Byte>, n: nat)
    requires n == |s|
    ensures n <= 4 ==> Part(s, 4) == 0
    ensures n <= 8 ==> Part(s, 8) == 0
  {
  }

  /** The key of `length` bytes at address `key`.  Memory consists of whole words, so a word
      that begins inside the string can be read. */
  method Hash(mem: array<Byte>, key: nat, length: nat, initval: Word) returns (h: Word)
    requires key + length <= mem.Length && mem.Length % 4 == 0
    ensures h == Hashed(mem[key..key + length], initval)
  {
    hide Add, Digest;
    var x := Add(Add(0xdead_beef, length), initval);
    if key % 4 == 0 {
      h := HashWords(mem, key, length, x, x, x);
    } else if key % 2 == 0 {
      h := HashHalves(mem, key, length, x, x, x);
    } else {
      h := HashBytes(mem, key, length, x, x, x);
    }
  }

  /** Where a key lies in memory does not matter. */
  method SameHash(mem: array<Byte>, p: nat, q: nat, length: nat, initval: Word) returns (x: Word, y: Word)
    requires p + length <= mem.Length && q + length <= mem.Length && mem.Length % 4 == 0
    requires mem[p..p + length] == mem[q..q + length]
    ensures x == y
  {
    x := Hash(mem, p, length, initval);
    y := Hash(mem, q, length, initval);
  }
}
