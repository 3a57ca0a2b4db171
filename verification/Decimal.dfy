/** Decimal text: what `%llu` and `%d` print, and how safe_strtoull (util.c) and
    atoi/strtol read it back.  Strings stand for the characters before the NUL. */
module Decimal {
  import opened Seqs

  const TWO64: nat := 0x1_0000_0000_0000_0000
  const TWO63: nat := 0x8000_0000_0000_0000

  predicate IsDigit(c: char) { '0' <= c <= '9' }

  predicate IsSpace(c: char) { c == ' ' || '\t' <= c <= '\r' }

  /** The text printed for a number that is not negative. */
  function Digits(n: nat): (s: string)
    ensures s != [] && forall c :: c in s ==> IsDigit(c)
  {
    if n < 10 then ['0' + n as char] else Digits(n / 10) + ['0' + (n % 10) as char]
  }

  /** The text `%d` prints. */
  function Signed(i: int): string {
    if i < 0 then "-" + Digits(-i) else Digits(i)
  }

  /** The number a string of digits stands for. */
  function Value(s: string): nat
    requires forall c :: c in s ==> IsDigit(c)
  {
    if s == [] then 0 else
      var c := s[|s| - 1];
      assert IsDigit(c);
      Value(s[..|s| - 1]) * 10 + (c as nat - '0' as nat)
  }

  /** Length of the longest prefix of s whose characters satisfy p. */
  function Span(s: string, p: char -> bool): (n: nat)
    ensures n <= |s| && (n < |s| ==> !p(s[n]))
    ensures forall i :: 0 <= i < n ==> p(s[i])
  {
    if s == [] || !p(s[0]) then 0 else 1 + Span(s[1..], p)
  }

  /** strtoull(str, &endptr, 10): None when nothing is converted or the value is
      out of range, otherwise the value and the offset of endptr. */
  function Strtoull(s: string): Option<(nat, nat)> {
    var i := Span(s, IsSpace);
    var negative := i < |s| && s[i] == '-';
    var j := if i < |s| && (s[i] == '-' || s[i] == '+') then i + 1 else i;
    var n := Span(s[j..], IsDigit);
    if n == 0 then None else
      var v := Value(s[j..][..n]);
      if v >= TWO64 then None
      else Some((if negative && v != 0 then TWO64 - v else v, j + n))
  }

  function SafeStrtoull(s: string): Option<nat> {
    match Strtoull(s)
    case None => None
    case Some((v, end)) =>
      if end < |s| && !IsSpace(s[end]) then None
      else if v >= TWO63 && '-' in s then None
      else Some(v)
  }

  predicate NotNul(c: char) { c != '\0' }

  /** The C string that starts where s does. */
  function CString(s: string): string { s[..Span(s, NotNul)] }

  /** safe_strtoull on the data area of an item.  No NUL ends the data, so whatever the
      memory behind it holds is read as well. */
  function Parsed(data: string, behind: string): Option<nat> { SafeStrtoull(CString(data + behind)) }

  /** atoi, without its undefined out-of-range behaviour. */
  function Atoi(s: string): int {
    if s != [] && s[0] == '-' then 0 - Value(s[1..][..Span(s[1..], IsDigit)])
    else Value(s[..Span(s, IsDigit)])
  }

  function Pow10(k: nat): nat { if k == 0 then 1 else 10 * Pow10(k - 1) }

  lemma {:induction false} ValueOfDigits(n: nat)
    ensures Value(Digits(n)) == n
  {
    if n >= 10 {
      ValueOfDigits(n / 10);
      assert Digits(n)[..|Digits(n)| - 1] == Digits(n / 10);
    }
  }

  /** No number is printed with a zero in front. */
  lemma {:induction false} NoLeadingZero(n: nat)
    ensures Digits(n)[0] == '0' <==> n == 0
  {
    if n >= 10 {
      NoLeadingZero(n / 10);
      assert Digits(n)[0] == Digits(n / 10)[0];
    }
  }

  lemma {:induction false} DigitsShort(n: nat, k: nat)
    requires 1 <= k && n < Pow10(k)
    ensures |Digits(n)| <= k
  {
    if n >= 10 {
      assert k > 1;
      DigitsShort(n / 10, k - 1);
    }
  }

  lemma Length64(n: nat)
    requires n < TWO64
    ensures |Digits(n)| <= 20
  {
    assert Pow10(4) == 10_000;
    assert Pow10(8) == 100_000_000;
    assert Pow10(12) == 1_000_000_000_000;
    assert Pow10(16) == 10_000_000_000_000_000;
    assert Pow10(20) == 100_000_000_000_000_000_000;
    DigitsShort(n, 20);
  }

  lemma {:induction false} SpanIs(s: string, p: char -> bool, n: nat)
    requires n <= |s| && (n < |s| ==> !p(s[n]))
    requires forall i :: 0 <= i < n ==> p(s[i])
    ensures Span(s, p) == n
  {
    if n > 0 {
      SpanIs(s[1..], p, n - 1);
    }
  }

  /** Reading a digit string followed by anything that is not a digit. */
  lemma ReadDigits(n: nat, rest: string)
    requires rest == [] || !IsDigit(rest[0])
    ensures Span(Digits(n) + rest, IsDigit) == |Digits(n)|
    ensures (Digits(n) + rest)[..|Digits(n)|] == Digits(n)
    ensures Value((Digits(n) + rest)[..Span(Digits(n) + rest, IsDigit)]) == n
  {
    var s := Digits(n) + rest;
    forall i | 0 <= i < |Digits(n)| ensures IsDigit(s[i]) { assert s[i] in Digits(n); }
    SpanIs(s, IsDigit, |Digits(n)|);
    assert s[..|Digits(n)|] == Digits(n);
    ValueOfDigits(n);
  }

  /** Every 64-bit value survives printing and parsing.  What follows the text must
      be white space, and from 2^63 on must contain no minus sign: safe_strtoull
      searches the whole string for one. */
  lemma PrintThenParse(n: nat, rest: string)
    requires n < TWO64
    requires rest == [] || IsSpace(rest[0])
    ensures SafeStrtoull(Digits(n) + rest) == if n >= TWO63 && '-' in rest then None else Some(n)
  {
    hide Digits, Value;
    var s := Digits(n) + rest;
    ReadDigits(n, rest);
    assert s[0] in Digits(n);
    SpanIs(s, IsSpace, 0);
    assert s[0..] == s;
    assert Strtoull(s) == Some((n, |Digits(n)|));
    assert '-' in s <==> '-' in rest by {
      assert forall c :: c in Digits(n) ==> c != '-';
    }
  }

  /** The sign check looks only at the top bit of the converted value, so a negative
      text is refused exactly up to 2^63 and wraps round beyond it. */
  lemma NegativeText(n: nat)
    requires 0 < n < TWO64
    ensures SafeStrtoull("-" + Digits(n)) == if n <= TWO63 then None else Some(TWO64 - n)
  {
    var s := "-" + Digits(n);
    SpanIs(s, IsSpace, 0);
    assert s[1..] == Digits(n) == Digits(n) + [];
    ReadDigits(n, []);
    assert Strtoull(s) == Some((TWO64 - n, |s|));
    assert s[0] == '-';
  }

  // ----- what lies behind an item

  lemma {:induction false} SpanStops(s: string, p: char -> bool, k: nat)
    requires k < |s| && !p(s[k])
    ensures Span(s, p) <= k
  {
    if k > 0 && p(s[0]) { SpanStops(s[1..], p, k - 1); }
  }

  lemma {:induction false} SpanPrefix(s: string, t: string, p: char -> bool)
    requires Span(s, p) < |s|
    ensures Span(s + t, p) == Span(s, p)
  {
    assert forall i :: 0 <= i <= Span(s, p) ==> (s + t)[i] == s[i];
    SpanIs(s + t, p, Span(s, p));
  }

  lemma CStringOf(d: string, r: string)
    ensures CString(d + r) == if '\0' in d then CString(d) else d + CString(r)
  {
    if '\0' in d {
      var k :| 0 <= k < |d| && d[k] == '\0';
      SpanStops(d, NotNul, k);
      SpanPrefix(d, r, NotNul);
      assert (d + r)[..Span(d, NotNul)] == d[..Span(d, NotNul)];
    } else {
      var m := Span(r, NotNul);
      forall i | 0 <= i < |d| + m ensures NotNul((d + r)[i]) { if i < |d| { assert d[i] in d; } }
      SpanIs(d + r, NotNul, |d| + m);
      assert (d + r)[..|d| + m] == d + r[..m];
    }
  }

  lemma NoNul(s: string)
    requires '\0' !in s
    ensures CString(s) == s
  {
    forall i | 0 <= i < |s| ensures NotNul(s[i]) { assert s[i] in s; }
    SpanIs(s, NotNul, |s|);
  }

  /** Where the digits of a number start. */
  function Sign(s: string): nat {
    var i := Span(s, IsSpace);
    if i < |s| && (s[i] == '-' || s[i] == '+') then i + 1 else i
  }

  /** Spaces, sign and digits of a number that starts in a line all end in it. */
  lemma NumberInLine(d: string, t: string)
    requires d != [] && d[|d| - 1] == '\n' && exists i :: 0 <= i < |d| && !IsSpace(d[i])
    ensures Span(d, IsSpace) < |d| - 1 && Span(d + t, IsSpace) == Span(d, IsSpace)
    ensures Sign(d) < |d| && Sign(d + t) == Sign(d) && (d + t)[Sign(d)..] == d[Sign(d)..] + t
    ensures Span(d[Sign(d)..] + t, IsDigit) == Span(d[Sign(d)..], IsDigit) < |d| - Sign(d)
  {
    hide Span;
    var k :| 0 <= k < |d| && !IsSpace(d[k]);
    SpanStops(d, IsSpace, k);
    SpanPrefix(d, t, IsSpace);
    var j := Sign(d);
    assert (d + t)[j..] == d[j..] + t;
    SpanStops(d[j..], IsDigit, |d| - 1 - j);
    SpanPrefix(d[j..], t, IsDigit);
  }

  lemma StrtoullPrefix(d: string, t: string)
    requires d != [] && d[|d| - 1] == '\n' && exists i :: 0 <= i < |d| && !IsSpace(d[i])
    ensures Strtoull(d + t) == Strtoull(d)
    ensures Strtoull(d).Some? ==> Strtoull(d).value.1 < |d|
  {
    hide Span, Value;
    NumberInLine(d, t);
    var n := Span(d[Sign(d)..], IsDigit);
    assert (d[Sign(d)..] + t)[..n] == d[Sign(d)..][..n];
  }

  /** White space and a number below 2^63. */
  lemma AfterSpaces(d: string, n: nat)
    requires n < TWO63 && forall i :: 0 <= i < |d| ==> IsSpace(d[i])
    ensures SafeStrtoull(d) == None
    ensures SafeStrtoull(d + (Digits(n) + "\r\n")) == Some(n)
  {
    hide Value, Digits, Span;
    SpanIs(d, IsSpace, |d|);
    assert d[|d|..] == "";
    SpanIs("", IsDigit, 0);
    var t := Digits(n) + "\r\n";
    var s := d + t;
    assert s[|d|] == Digits(n)[0] && Digits(n)[0] in Digits(n);
    SpanIs(s, IsSpace, |d|);
    assert s[|d|..] == t;
    ReadDigits(n, "\r\n");
    assert Strtoull(s) == Some((n, |d| + |Digits(n)|));
    assert s[|d| + |Digits(n)|] == '\r';
  }

  predicate Blank(d: string) { forall i :: 0 <= i < |d| ==> IsSpace(d[i]) }

  lemma BehindBlank(d: string)
    requires Blank(d)
    ensures Parsed(d, "") == None && Parsed(d, Digits(7) + "\r\n") == Some(7)
  {
    hide Span, SafeStrtoull, Digits;
    assert d + "" == d;
    forall c | c in d ensures c != '\0' {
      var i :| 0 <= i < |d| && d[i] == c;
      assert IsSpace(d[i]);
    }
    DigitsNoNul(7);
    NoNul(d);
    NoNul(d + (Digits(7) + "\r\n"));
    AfterSpaces(d, 7);
  }

  lemma DigitsNoNul(n: nat)
    ensures '\0' !in Digits(n) && '-' !in Digits(n)
  {
    assert forall c :: c in Digits(n) ==> IsDigit(c);
  }

  lemma BehindNumber(d: string, r: string)
    requires d != [] && d[|d| - 1] == '\n' && !Blank(d) && '\0' !in d
    ensures var v := Parsed(d, "");
      Parsed(d, r) == if v.Some? && v.value >= TWO63 && '-' in CString(r) then None else v
  {
    hide Span, Strtoull;
    CStringOf(d, r);
    NoNul(d);
    assert d + "" == d;
    StrtoullPrefix(d, CString(r));
  }

  /** The number in a data area that ends in "\r\n" does not depend on what lies behind it
      if and only if it is ended by a NUL, or it is not all white space and the number is
      below 2^63: white space alone lets the parser run on into the memory behind, and a
      number from 2^63 on makes it look there for a minus sign. */
  lemma BehindMatters(d: string)
    requires |d| >= 2 && d[|d| - 2..] == "\r\n"
    ensures (forall r :: Parsed(d, r) == Parsed(d, ""))
      <==> ('\0' in d || (!Blank(d) && !(Parsed(d, "").Some? && Parsed(d, "").value >= TWO63)))
  {
    hide CString, SafeStrtoull, Blank;
    assert d[|d| - 1] == d[|d| - 2..][1] == '\n';
    if '\0' in d {
      forall r ensures Parsed(d, r) == Parsed(d, "") { CStringOf(d, r); CStringOf(d, ""); }
    } else if Blank(d) {
      BehindBlank(d);
    } else {
      forall r ensures Parsed(d, r) == Parsed(d, "") || (Parsed(d, "").Some? && Parsed(d, "").value >= TWO63) {
        BehindNumber(d, r);
      }
      BehindNumber(d, "-");
      NoNul("-");
    }
  }

  /** Both ways in which it goes wrong: an empty value takes the number of the item that used
      the chunk before, and 2^63 stops being a number because of a minus sign in there. */
  lemma BehindReadAsValue()
    ensures Parsed("\r\n", Digits(77) + "\r\n") == Some(77) && Parsed("\r\n", "") == None
    ensures Parsed(Digits(TWO63) + "\r\n", "-") == None && Parsed(Digits(TWO63) + "\r\n", "") == Some(TWO63)
  {
    hide Span, SafeStrtoull, Digits, CString;
    DigitsNoNul(77);
    DigitsNoNul(TWO63);
    assert "\r\n" + "" == "\r\n";
    NoNul("\r\n");
    NoNul("\r\n" + (Digits(77) + "\r\n"));
    AfterSpaces("\r\n", 77);
    var d := Digits(TWO63) + "\r\n";
    assert d + "" == d && d + "-" == Digits(TWO63) + "\r\n-";
    NoNul(d);
    NoNul(d + "-");
    PrintThenParse(TWO63, "\r\n-");
    PrintThenParse(TWO63, "\r\n");
  }

  /** The header text an item carries after its key (items.c item_make_header). */
  function Suffix(flags: int, nbytes: nat): string
    requires nbytes >= 2
  {
    " " + Signed(flags) + " " + Digits(nbytes - 2) + "\r\n"
  }

  lemma AtoiPositive(n: nat, rest: string)
    requires rest == [] || !IsDigit(rest[0])
    ensures Atoi(Digits(n) + rest) == n
  {
    ReadDigits(n, rest);
    assert (Digits(n) + rest)[0] == Digits(n)[0] && Digits(n)[0] in Digits(n);
  }

  lemma AtoiNegative(n: nat, rest: string)
    requires rest == [] || !IsDigit(rest[0])
    ensures Atoi("-" + Digits(n) + rest) == 0 - n
  {
    var d := Digits(n) + rest;
    ReadDigits(n, rest);
    var s := "-" + Digits(n) + rest;
    assert s[0] == '-' && s[1..] == d;
  }

  lemma SuffixTail(f: string, d: string)
    ensures (" " + f + " " + d + "\r\n")[1..] == f + (" " + d + "\r\n")
  {
  }

  /** The flags are recovered from the header when an item is rebuilt. */
  lemma SuffixKeepsFlags(flags: int, nbytes: nat)
    requires nbytes >= 2
    ensures Atoi(Suffix(flags, nbytes)[1..]) == flags
  {
    var rest := " " + Digits(nbytes - 2) + "\r\n";
    SuffixTail(Signed(flags), Digits(nbytes - 2));
    if flags < 0 { AtoiNegative(-flags, rest); } else { AtoiPositive(flags, rest); }
  }
}
