/** The text of a backup request: how a primary writes one (Object.c, ramcube.c) and what
    the backup makes of it (Segment.c).  A C string is given by its characters before the
    NUL. */
module Wire {
  import opened Decimal

  /** setCommandServer: data is the value with its "\r\n". */
  function Command(key: string, data: string, nbyte: nat): string {
    "set " + key + " 0 0 " + Digits(nbyte) + "\r\n" + data
  }

  /** The command as send_unit_to_backup sends it, with the sender's address after it. */
  function Message(command: string, ip: string, port: nat): string {
    command + ip + ":" + Digits(port) + "\r\n"
  }

  /** What the buffers of setCommandServer take: 2048 characters and the 10 for the number,
      the NUL behind each included. */
  predicate Sendable(command: string, nbyte: nat) { |command| < 2048 && |Digits(nbyte)| < 10 }

  predicate Eol(c: char) { c == '\r' || c == '\n' }

  predicate NotColon(c: char) { c != ':' }

  function Stripped(s: string): (r: string)
    ensures r <= s && (r != [] ==> !Eol(r[|r| - 1]))
    ensures forall i :: |r| <= i < |s| ==> Eol(s[i])
  {
    if s != [] && Eol(s[|s| - 1]) then Stripped(s[..|s| - 1]) else s
  }

  /** Where the last line of s starts. */
  function LastLine(s: string): (n: nat)
    ensures n <= |s| && '\n' !in s[n..] && (n > 0 ==> s[n - 1] == '\n')
  {
    if s == [] then 0
    else if s[|s| - 1] == '\n' then |s|
    else
      var t := s[..|s| - 1];
      var n := LastLine(t);
      assert s[n..] == t[n..] + [s[|s| - 1]];
      n
  }

  function IpPortOf(cont: string): string { Stripped(cont)[LastLine(Stripped(cont))..] }

  function IpOf(s: string): string { s[..Span(s, NotColon)] }

  /** Digits or not, every character counts. */
  function Number(s: string): int {
    if s == [] then 0 else Number(s[..|s| - 1]) * 10 + (s[|s| - 1] as int - '0' as int)
  }

  function PortOf(s: string): int {
    if Span(s, NotColon) == |s| then 0 else Number(s[Span(s, NotColon) + 1..])
  }

  /** What the source needs of a request: nothing runs off an end or over a buffer. */
  predicate Readable(cont: string) {
    && 0 < |Stripped(cont)| < 2048 && '\n' in Stripped(cont)
    && Span(IpPortOf(cont), NotColon) < |IpPortOf(cont)| && |IpOf(IpPortOf(cont))| < 16
  }

  // ----- the parsing loops

  /** The loop that drops the line ends. */
  method TrimEnd(cont: string) returns (len: nat)
    requires Stripped(cont) != []
    ensures len <= |cont| && cont[..len] == Stripped(cont)
  {
    len := |cont|;
    assert cont[..len] == cont;
    while cont[len - 1] == '\r' || cont[len - 1] == '\n'
      invariant 0 < len <= |cont| && Stripped(cont[..len]) == Stripped(cont)
      decreases len
    {
      assert cont[..len][..len - 1] == cont[..len - 1];
      len := len - 1;
    }
  }

  method ParseIpPort(cont: string) returns (str: string)
    requires Stripped(cont) != [] && '\n' in Stripped(cont)
    ensures str == IpPortOf(cont)
  {
    var len := TrimEnd(cont);
    str := cont[..len];
    var i := |str| - 1;
    assert str[0..] == str;
    while str[i] != '\n'
      invariant 0 <= i < |str| && '\n' !in str[i + 1..]
      decreases i
    {
      assert str[i..] == [str[i]] + str[i + 1..];
      i := i - 1;
    }
    LastLineIs(str, i + 1);
    str := str[i + 1..];
  }

  method GetIp(cont: string) returns (ip: string)
    requires Span(cont, NotColon) < |cont|
    ensures ip == IpOf(cont)
  {
    var i := 0;
    while cont[i] != ':'
      invariant 0 <= i <= Span(cont, NotColon)
      decreases |cont| - i
    {
      i := i + 1;
    }
    ip := cont[..i];
  }

  method GetPort(cont: string) returns (port: int)
    ensures port == PortOf(cont)
  {
    port := 0;
    var i := 0;
    while i < |cont|
      invariant 0 <= i <= Span(cont, NotColon) && port == 0
    {
      if cont[i] == ':' {
        i := i + 1;
        var s := cont[i..];
        assert s[..0] == [];
        while i < |cont|
          invariant |cont| - |s| <= i <= |cont| && port == Number(s[..i - (|cont| - |s|)])
        {
          var k := i - (|cont| - |s|);
          assert s[..k + 1][..k] == s[..k] && s[..k + 1][k] == cont[i];
          port := port * 10 + (cont[i] as int - '0' as int);
          i := i + 1;
        }
        assert s[..|s|] == s;
        return;
      }
      i := i + 1;
    }
  }

  method GetCommandLen(cont: string, ipPort: string) returns (len: nat)
    requires Stripped(cont) != [] && ipPort == IpPortOf(cont)
    ensures len == LastLine(Stripped(cont))
  {
    len := TrimEnd(cont);
    len := len - |ipPort|;
  }

  lemma {:induction false} LastLineIs(s: string, n: nat)
    requires n <= |s| && '\n' !in s[n..] && (n > 0 ==> s[n - 1] == '\n')
    ensures LastLine(s) == n
  {
    if n < |s| {
      var t := s[..|s| - 1];
      assert s[n..][..|s| - 1 - n] == t[n..] && s[n..][|s| - 1 - n] == s[|s| - 1];
      LastLineIs(t, n);
    }
  }

  // ----- the scanning loop of appendToSegment

  /** The variables of the loop: newlines copied, carriage returns since, whether the
      command at hand has been appended, its text so far, and what was appended. */
  datatype Scan = Scan(flag1: nat, flag2: nat, done: bool, text: string, pieces: seq<string>)

  function Feed(t: Scan, c: char): Scan {
    if t.flag1 < 2 then
      t.(text := t.text + [c], flag1 := t.flag1 + if c == '\n' then 1 else 0)
    else if t.flag2 < 2 then
      t.(pieces := if t.done then t.pieces else t.pieces + [t.text], done := true,
         flag2 := t.flag2 + if c == '\r' then 1 else 0)
    else Scan(0, 0, false, "", t.pieces)
  }

  function Scanned(cont: string, i: nat): Scan
    requires i <= |cont|
  {
    if i == 0 then Scan(0, 0, false, "", []) else Feed(Scanned(cont, i - 1), cont[i - 1])
  }

  /** The commands appended for one request. */
  function Pieces(cont: string): seq<string>
    requires Stripped(cont) != []
  {
    Scanned(cont, LastLine(Stripped(cont)) + 1).pieces
  }

  function Newlines(s: string): nat {
    if s == [] then 0 else Newlines(s[..|s| - 1]) + if s[|s| - 1] == '\n' then 1 else 0
  }

  lemma {:induction false} NewlinesAppend(s: string, t: string)
    ensures Newlines(s + t) == Newlines(s) + Newlines(t)
  {
    if t == [] {
      assert s + t == s;
    } else {
      assert (s + t)[..|s + t| - 1] == s + t[..|t| - 1];
      NewlinesAppend(s, t[..|t| - 1]);
    }
  }

  lemma {:induction false} NoNewlines(s: string)
    ensures Newlines(s) == 0 <==> '\n' !in s
  {
    if s != [] {
      NoNewlines(s[..|s| - 1]);
      assert s == s[..|s| - 1] + [s[|s| - 1]];
    }
  }

  /** Until two newlines have been copied. */
  lemma {:induction false} FirstLines(cont: string, k: nat)
    requires k <= |cont| && (k > 0 ==> Newlines(cont[..k - 1]) < 2)
    ensures Scanned(cont, k) == Scan(Newlines(cont[..k]), 0, false, cont[..k], [])
  {
    if k > 0 {
      assert cont[..k][..k - 1] == cont[..k - 1];
      if k > 1 { assert cont[..k - 1][..k - 2] == cont[..k - 2]; }
      FirstLines(cont, k - 1);
      assert cont[..k] == cont[..k - 1] + [cont[k - 1]];
    }
  }

  lemma {:induction false} PiecesGrow(cont: string, i: nat, j: nat)
    requires i <= j <= |cont|
    ensures Scanned(cont, i).pieces <= Scanned(cont, j).pieces
  {
    if i < j { PiecesGrow(cont, i, j - 1); }
  }

  lemma {:induction false} SecondNewline(s: string) returns (k: nat)
    requires Newlines(s) > 2
    ensures 0 < k < |s| && Newlines(s[..k]) == 2 && Newlines(s[..k - 1]) == 1
  {
    var t := s[..|s| - 1];
    if Newlines(t) > 2 {
      k := SecondNewline(t);
      assert t[..k] == s[..k] && t[..k - 1] == s[..k - 1];
    } else {
      k := |t|;
      assert s[..k] == t;
      while Newlines(s[..k - 1]) == 2
        invariant 0 < k <= |t| && Newlines(s[..k]) == 2
        decreases k
      {
        k := k - 1;
      }
      assert s[..k][..k - 1] == s[..k - 1];
    }
  }

  // ----- what arrives is what was sent

  ghost predicate IsIp(ip: string) {
    0 < |ip| < 16 && forall c :: c in ip ==> c != ':' && c != '\0' && !Eol(c)
  }

  /** A command as it precedes an address: its last line is complete. */
  predicate Ended(command: string) { command != [] && command[|command| - 1] == '\n' }

  lemma {:induction false} StrippedIs(s: string, tail: string)
    requires s != [] && !Eol(s[|s| - 1]) && forall c :: c in tail ==> Eol(c)
    ensures Stripped(s + tail) == s
  {
    if tail == [] {
      assert s + tail == s;
    } else {
      assert tail[|tail| - 1] in tail;
      assert (s + tail)[..|s + tail| - 1] == s + tail[..|tail| - 1];
      StrippedIs(s, tail[..|tail| - 1]);
    }
  }

  lemma {:induction false} NumberOfDigits(n: nat)
    ensures Number(Digits(n)) == n
  {
    var d := Digits(n);
    if n >= 10 {
      NumberOfDigits(n / 10);
      assert d[..|d| - 1] == Digits(n / 10);
    } else {
      assert d[..|d| - 1] == [];
    }
  }

  lemma {:induction false} LastLineOf(c: string, tail: string)
    requires '\n' !in tail
    ensures LastLine(c + tail) == LastLine(c)
  {
    var n := LastLine(c);
    assert (c + tail)[n..] == c[n..] + tail;
    if n > 0 { assert (c + tail)[n - 1] == c[n - 1]; }
    LastLineIs(c + tail, n);
  }

  lemma {:induction false} LastLineBehind(s: string, k: nat)
    requires k < |s| && s[k] == '\n'
    ensures LastLine(s) > k
  {
    if k < |s| - 1 && s[|s| - 1] != '\n' { LastLineBehind(s[..|s| - 1], k); }
  }

  lemma StrippedTail(c: string, tail: string)
    requires tail != "" && !Eol(tail[|tail| - 1])
    ensures Stripped(c + tail + "\r\n") == c + tail
  {
    hide Stripped;
    var s := c + tail;
    assert s != [] && s[|s| - 1] == tail[|tail| - 1];
    StrippedIs(s, "\r\n");
  }

  lemma DropThen(c: string, tail: string, n: nat)
    requires n <= |c|
    ensures (c + tail)[n..] == c[n..] + tail
  {
  }

  function Tail(ip: string, port: nat): string { ip + ":" + Digits(port) }

  lemma TailIs(ip: string, port: nat)
    requires IsIp(ip)
    ensures var t := Tail(ip, port); t != "" && '\n' !in t && !Eol(t[|t| - 1]) && t[0] == ip[0] && t[0] != '\0'
  {
    var d := Digits(port);
    assert Tail(ip, port)[|Tail(ip, port)| - 1] == d[|d| - 1] && d[|d| - 1] in d;
    assert ip[0] in ip;
  }

  /** Where the parts of a message are, whatever comes before the address. */
  lemma MessageShape(c: string, ip: string, port: nat)
    requires IsIp(ip)
    ensures var m := Message(c, ip, port);
      && m == c + Tail(ip, port) + "\r\n"
      && Stripped(m) == c + Tail(ip, port) && LastLine(Stripped(m)) == LastLine(c)
      && IpPortOf(m) == c[LastLine(c)..] + Tail(ip, port)
  {
    hide Digits, Stripped, LastLine, IsIp;
    TailIs(ip, port);
    assert Message(c, ip, port) == c + Tail(ip, port) + "\r\n";
    StrippedTail(c, Tail(ip, port));
    LastLineOf(c, Tail(ip, port));
    DropThen(c, Tail(ip, port), LastLine(c));
  }

  lemma EndedShape(c: string, ip: string, port: nat)
    requires IsIp(ip) && Ended(c)
    ensures var m := Message(c, ip, port);
      LastLine(c) == |c| && '\n' in Stripped(m) && IpPortOf(m) == Tail(ip, port) && LastLine(Stripped(m)) == |c|
  {
    hide Digits, Stripped, LastLine, IsIp, IpPortOf, Message, Tail;
    MessageShape(c, ip, port);
    LastLineBehind(c, |c| - 1);
    var m := Message(c, ip, port);
    assert Stripped(m)[|c| - 1] == '\n';
    assert c[|c|..] + Tail(ip, port) == Tail(ip, port);
  }

  lemma TailRead(ip: string, port: nat)
    requires IsIp(ip)
    ensures var a := Tail(ip, port); IpOf(a) == ip && PortOf(a) == port && Span(a, NotColon) < |a|
  {
    hide Digits;
    var a := Tail(ip, port);
    forall i | 0 <= i < |ip| ensures NotColon(a[i]) { assert a[i] == ip[i] && ip[i] in ip; }
    SpanIs(a, NotColon, |ip|);
    assert a[..|ip|] == ip && a[|ip| + 1..] == Digits(port);
    NumberOfDigits(port);
  }

  /** The sender's address is recovered from the message, whatever the command is. */
  lemma AddressRecovered(command: string, ip: string, port: nat)
    requires Ended(command) && IsIp(ip)
    ensures var a := IpPortOf(Message(command, ip, port));
      IpOf(a) == ip && PortOf(a) == port && Span(a, NotColon) < |a|
  {
    hide Tail, IpOf, PortOf, IpPortOf, Message, Stripped, LastLine;
    EndedShape(command, ip, port);
    TailRead(ip, port);
  }

  lemma ScanOnce(m: string, n: nat)
    requires 0 < n < |m| && m[n - 1] == '\n' && m[n] != '\n'
    ensures Scanned(m, n + 1).pieces == [m[..n]] <==> Newlines(m[..n]) == 2
  {
    var command := m[..n];
    assert m[..n - 1] == command[..n - 1];
    if Newlines(command) == 2 {
      FirstLines(m, n);
    } else if Newlines(command) == 1 {
      assert m[..n + 1][..n] == command;
      FirstLines(m, n + 1);
    } else {
      var k := SecondNewline(command);
      assert command[..k] == m[..k] && command[..k - 1] == m[..k - 1];
      FirstLines(m, k);
      PiecesGrow(m, k + 1, n + 1);
      assert Scanned(m, n + 1).pieces[0] == m[..k];
    }
  }

  /** The backup's buffers hold the command with the address behind it, and a NUL. */
  predicate Fits(command: string, ip: string, port: nat) { |command| + |Tail(ip, port)| < 2048 }

  /** A message is read without running over anything if and only if it is short enough. */
  lemma MessageReadable(command: string, ip: string, port: nat)
    requires Ended(command) && IsIp(ip)
    ensures Readable(Message(command, ip, port)) <==> Fits(command, ip, port)
  {
    hide Digits, Stripped, LastLine, IpPortOf, Message, IpOf, PortOf, Tail, Span;
    MessageShape(command, ip, port);
    EndedShape(command, ip, port);
    TailRead(ip, port);
  }

  /** The request is read and exactly the command is appended, once, if and only if the
      command is two lines long and fits the buffers. */
  lemma CommandRecovered(command: string, ip: string, port: nat)
    requires Ended(command) && IsIp(ip)
    ensures Stripped(Message(command, ip, port)) != []
    ensures Pieces(Message(command, ip, port)) == [command] <==> Newlines(command) == 2
    ensures (Readable(Message(command, ip, port)) && Pieces(Message(command, ip, port)) == [command])
      <==> (Newlines(command) == 2 && Fits(command, ip, port))
  {
    hide Scanned, Newlines, Stripped, LastLine, Digits, IpPortOf, Message, Tail, Readable, Fits;
    MessageReadable(command, ip, port);
    var m := Message(command, ip, port);
    var n := |command|;
    MessageShape(command, ip, port);
    EndedShape(command, ip, port);
    TailIs(ip, port);
    assert m[..n] == command && m[n - 1] == command[n - 1] && m[n] == Tail(ip, port)[0];
    ScanOnce(m, n);
  }

  // ----- what is read from an item

  /** ITEM_key as a C string.  do_item_alloc writes no NUL behind the key: what follows is a
      byte that is never written, the header, the data and the memory behind the item. */
  function KeyText(key: string, gap: char, flags: int, value: string, behind: string): string {
    CString(key + ([gap] + Suffix(flags, |value| + 2) + value + "\r\n" + behind))
  }

  function DataText(value: string, behind: string): string { CString(value + ("\r\n" + behind)) }

  /** What setCommandServer makes of an item. */
  function SetText(key: string, gap: char, flags: int, value: string, behind: string): string {
    Command(KeyText(key, gap, flags, value, behind), DataText(value, behind), |value|)
  }

  /** What it is meant to make of it. */
  function Meant(key: string, value: string): string { Command(key, value + "\r\n", |value|) }

  /** The scan finds exactly the command, once, and behind it the right address. */
  predicate Carries(m: string, command: string, ip: string, port: nat) {
    Stripped(m) != [] && Pieces(m) == [command] && IpPortOf(m) == Tail(ip, port)
  }

  /** The backup gets to the end of the request and appends exactly the command that was
      meant, once, for the right sender. */
  predicate Logged(m: string, command: string, ip: string, port: nat) {
    Readable(m) && Carries(m, command, ip, port)
  }

  /** What the scan takes for the start of another command in x: it skips to behind the
      n-th carriage return and one character more. */
  function AfterReturns(x: string, n: nat): string
    decreases |x|
  {
    if x == "" then ""
    else if n == 0 then x[1..]
    else AfterReturns(x[1..], if x[0] == '\r' then n - 1 else n)
  }

  /** Text between a command and the address that does no harm: the address has a line of
      its own, and no second command is found. */
  predicate Harmless(x: string) {
    (x == "" || x[|x| - 1] == '\n') && Newlines(AfterReturns(x, 2)) < 2
  }

  function FeedAll(t: Scan, s: string): Scan
    decreases |s|
  {
    if s == [] then t else FeedAll(Feed(t, s[0]), s[1..])
  }

  lemma {:induction false} ScanOn(m: string, i: nat, j: nat)
    requires i <= j <= |m|
    ensures Scanned(m, j) == FeedAll(Scanned(m, i), m[i..j])
    decreases j - i
  {
    if i < j {
      ScanOn(m, i + 1, j);
      assert m[i..j][1..] == m[i + 1..j];
    }
  }

  lemma {:induction false} FeedAllGrows(t: Scan, s: string)
    ensures t.pieces <= FeedAll(t, s).pieces
    decreases |s|
  {
    if s != [] { FeedAllGrows(Feed(t, s[0]), s[1..]); }
  }

  lemma NewlinesHead(s: string)
    requires s != []
    ensures Newlines(s) == Newlines(s[1..]) + if s[0] == '\n' then 1 else 0
  {
    assert s == [s[0]] + s[1..];
    NewlinesAppend([s[0]], s[1..]);
    assert [s[0]][..0] == [];
  }

  /** While a command is copied, nothing is appended before its second newline. */
  lemma {:induction false} FeedCopying(t: Scan, r: string, c: char)
    requires t.flag1 <= 2 && t.flag2 < 2 && !t.done
    ensures FeedAll(t, r + [c]).pieces == t.pieces <==> t.flag1 + Newlines(r) < 2
    decreases |r|
  {
    var s := r + [c];
    if t.flag1 == 2 {
      FeedAllGrows(Feed(t, s[0]), s[1..]);
    } else if r != [] {
      assert s[1..] == r[1..] + [c];
      FeedCopying(Feed(t, r[0]), r[1..], c);
      NewlinesHead(r);
    } else {
      assert s[1..] == [];
    }
  }

  /** After a command has been appended, n carriage returns before the next one starts. */
  lemma {:induction false} FeedSkipping(t: Scan, x: string, c: char, n: nat)
    requires t.flag1 >= 2 && t.done && n <= 2 && t.flag2 == 2 - n
    ensures FeedAll(t, x + [c]).pieces == t.pieces <==> Newlines(AfterReturns(x, n)) < 2
    decreases |x|
  {
    var s := x + [c];
    if x == [] {
      assert s[1..] == [];
    } else {
      assert s[1..] == x[1..] + [c];
      if n == 0 {
        FeedCopying(Feed(t, x[0]), x[1..], c);
      } else {
        FeedSkipping(Feed(t, x[0]), x[1..], c, if x[0] == '\r' then n - 1 else n);
      }
    }
  }

  lemma FeedFirst(t: Scan, s: string)
    requires s != []
    ensures FeedAll(t, s) == FeedAll(Feed(t, s[0]), s[1..])
    ensures |s| == 1 ==> FeedAll(t, s) == Feed(t, s[0])
  {
  }

  /** A two-line command, other text x, then the first character of the address. */
  lemma FeedCommand(m: string, n: nat, x: string, c: char)
    requires n + |x| < |m| && Newlines(m[..n]) == 2 && n > 0 && m[n - 1] == '\n'
    requires m[n..n + |x| + 1] == x + [c]
    ensures Scanned(m, n + |x| + 1).pieces == [m[..n]] <==> Newlines(AfterReturns(x, 2)) < 2
  {
    hide Scanned, FeedAll;
    assert m[..n][..n - 1] == m[..n - 1];
    FirstLines(m, n);
    var t := Scanned(m, n);
    ScanOn(m, n, n + |x| + 1);
    var s := x + [c];
    FeedFirst(t, s);
    if x != [] {
      assert s[1..] == x[1..] + [c];
      FeedSkipping(Feed(t, s[0]), x[1..], c, if x[0] == '\r' then 1 else 2);
    }
  }

  lemma KeyOfItem(key: string, gap: char, rest: string)
    requires '\0' !in key && rest != "" && rest[0] == ' '
    ensures var t := CString(key + ([gap] + rest));
      if gap == '\0' then t == key else |t| >= |key| + 2 && t[..|key|] == key && t[|key|] == gap && t[|key| + 1] == ' '
  {
    hide Span;
    CStringOf(key, [gap] + rest);
    if gap == '\0' {
      SpanIs([gap] + rest, NotNul, 0);
      assert key + "" == key;
    } else {
      CStringOf([gap], rest);
      NoNul([gap]);
      SpanStarts(rest);
      var t := key + ([gap] + CString(rest));
      assert t[..|key|] == key && t[|key| + 1] == CString(rest)[0];
    }
  }

  lemma SpanStarts(s: string)
    requires s != "" && NotNul(s[0])
    ensures CString(s) != "" && CString(s)[0] == s[0]
  {
  }

  lemma DataOfItem(value: string, behind: string)
    ensures DataText(value, behind) == if '\0' in value then CString(value) else value + "\r\n" + CString(behind)
  {
    hide Span, CString;
    CStringOf(value, "\r\n" + behind);
    CStringOf("\r\n", behind);
    assert value + ("\r\n" + CString(behind)) == value + "\r\n" + CString(behind);
  }

  lemma TextOfItem(key: string, gap: char, flags: int, value: string, behind: string)
    requires '\0' !in key
    ensures gap == '\0' ==> KeyText(key, gap, flags, value, behind) == key
    ensures var t := KeyText(key, gap, flags, value, behind);
      gap != '\0' ==> |t| >= |key| + 2 && t[..|key|] == key && t[|key|] == gap && t[|key| + 1] == ' '
    ensures DataText(value, behind) == if '\0' in value then CString(value) else value + "\r\n" + CString(behind)
  {
    hide CString, DataText, Digits, Signed;
    var rest := Suffix(flags, |value| + 2) + value + "\r\n" + behind;
    assert [gap] + Suffix(flags, |value| + 2) + value + "\r\n" + behind == [gap] + rest;
    KeyOfItem(key, gap, rest);
    DataOfItem(value, behind);
  }

  /** The first command appended is how the text begins. */
  lemma {:induction false} FirstPiece(m: string, i: nat)
    requires i <= |m|
    ensures var t := Scanned(m, i);
      if t.pieces == [] then t.text == m[..i] && !t.done && t.flag2 == 0 else t.pieces[0] <= m
  {
    if i > 0 {
      FirstPiece(m, i - 1);
      assert m[..i] == m[..i - 1] + [m[i - 1]];
    }
  }

  /** When the C strings read from the item are not what was meant. */
  lemma MisreadSet(key: string, gap: char, flags: int, value: string, behind: string, ip: string, port: nat)
    requires IsIp(ip) && '\0' !in key && (gap != '\0' || '\0' in value)
    ensures var m := Message(SetText(key, gap, flags, value, behind), ip, port); !(Meant(key, value) <= m)
  {
    hide Digits, Suffix, Span;
    TextOfItem(key, gap, flags, value, behind);
    var (k, d) := (KeyText(key, gap, flags, value, behind), DataText(value, behind));
    var m := Message(SetText(key, gap, flags, value, behind), ip, port);
    var want := Meant(key, value);
    var n := 4 + |key|;
    assert want[n] == ' ' && want[n + 1] == '0';
    if gap != '\0' {
      assert m[n] == k[|key|] && m[n + 1] == k[|key| + 1];
    } else {
      var head := "set " + key + " 0 0 " + Digits(|value|) + "\r\n";
      assert m == head + (d + (ip + ":" + Digits(port) + "\r\n")) && want == head + (value + "\r\n");
      NulInValue(value);
      assert m[|head| + |d|] == ip[0] && ip[0] in ip;
      assert want[|head| + |d|] == value[|d|];
    }
  }

  lemma NulInValue(value: string)
    requires '\0' in value
    ensures |CString(value)| < |value| && value[|CString(value)|] == '\0'
  {
    var k :| 0 <= k < |value| && value[k] == '\0';
    SpanStops(value, NotNul, k);
  }

  lemma MisreadLost(key: string, gap: char, flags: int, value: string, behind: string, ip: string, port: nat)
    requires IsIp(ip) && '\0' !in key && (gap != '\0' || '\0' in value)
    ensures !Carries(Message(SetText(key, gap, flags, value, behind), ip, port), Meant(key, value), ip, port)
  {
    hide SetText, Meant, Message, Pieces, Stripped, IpPortOf, Tail;
    var m := Message(SetText(key, gap, flags, value, behind), ip, port);
    MisreadSet(key, gap, flags, value, behind, ip, port);
    if Stripped(m) != [] && Pieces(m) != [] { FirstIsPrefix(m); }
  }

  lemma SetTextIs(key: string, flags: int, value: string, behind: string)
    requires '\0' !in key && '\0' !in value
    ensures SetText(key, '\0', flags, value, behind) == Meant(key, value) + CString(behind)
  {
    hide Digits, KeyText, DataText, CString;
    TextOfItem(key, '\0', flags, value, behind);
  }

  /** The message for a set, with the memory behind the value read as `more`, fits. */
  predicate Short(key: string, value: string, more: string, ip: string, port: nat) {
    14 + |key| + |Digits(|value|)| + |value| + |more| + |ip| + |Digits(port)| < 2048
  }

  lemma ShortMeans(key: string, value: string, more: string, ip: string, port: nat)
    ensures Short(key, value, more, ip, port) <==> Fits(Meant(key, value) + more, ip, port)
    ensures Short(key, value, more, ip, port) ==> Sendable(Meant(key, value) + more, |value|)
  {
    if Short(key, value, more, ip, port) {
      hide Digits;
      DigitsShort(|value|, 4) by { assert Pow10(4) == 10_000; }
    }
  }

  lemma MoreEnded(key: string, value: string, more: string)
    requires more == "" || more[|more| - 1] == '\n'
    ensures Ended(Meant(key, value) + more)
  {
    var c := Meant(key, value) + more;
    assert more != "" ==> c[|c| - 1] == more[|more| - 1];
    assert more == "" ==> c == Meant(key, value);
  }

  /** A set is sent and reaches the log as it was meant, for the right sender, if and only
      if the byte behind the key in the item is a NUL, the value contains none, neither key
      nor value contains a newline, what the memory holds behind the value does no harm,
      and all of it is short enough for the buffers on the way. */
  lemma SetRecovered(key: string, gap: char, flags: int, value: string, behind: string, ip: string, port: nat)
    requires IsIp(ip) && '\0' !in key
    ensures var text := SetText(key, gap, flags, value, behind);
      (Sendable(text, |value|) && Logged(Message(text, ip, port), Meant(key, value), ip, port))
      <==> (gap == '\0' && '\0' !in value && '\n' !in key && '\n' !in value && Harmless(CString(behind))
            && Short(key, value, CString(behind), ip, port))
  {
    hide SetText, Meant, Message, Carries, CString, Newlines, Ended, AfterReturns, Sendable, Short, Fits, Readable;
    if gap != '\0' || '\0' in value {
      MisreadLost(key, gap, flags, value, behind, ip, port);
    } else {
      var more := CString(behind);
      SetTextIs(key, flags, value, behind);
      MeantLines(key, value);
      MeantThen(Meant(key, value), more, ip, port);
      ShortMeans(key, value, more, ip, port);
      if Harmless(more) {
        MoreEnded(key, value, more);
        MessageReadable(Meant(key, value) + more, ip, port);
      }
    }
  }

  /** A value that is too long: from 2016 characters on it runs over the backup's buffers,
      from 2030 on already over the primary's. */
  lemma LongValueLost(value: string)
    requires '\0' !in value && '\n' !in value && |value| >= 1000
    ensures var text := SetText("k", '\0', 0, value, "");
      && (Sendable(text, |value|) <==> |value| < 2030)
      && (Readable(Message(text, "10.0.0.1", 11211)) <==> |value| < 2016)
  {
    hide Message, Readable, SetText, CString, KeyText, DataText;
    SetTextIs("k", 0, value, "");
    assert CString("") == "" by { NoNul(""); }
    assert Meant("k", value) + "" == Meant("k", value);
    MeantLines("k", value);
    MessageReadable(Meant("k", value), "10.0.0.1", 11211);
    if |value| < 10_000 { FourDigits(|value|); }
    FiveDigits();
  }

  lemma FourDigits(n: nat)
    requires 1000 <= n < 10_000
    ensures |Digits(n)| == 4
  {
    assert Digits(n) == Digits(n / 10) + ['0' + (n % 10) as char];
    assert Digits(n / 10) == Digits(n / 10 / 10) + ['0' + (n / 10 % 10) as char];
    assert Digits(n / 100) == Digits(n / 100 / 10) + ['0' + (n / 100 % 10) as char];
  }

  lemma FiveDigits()
    ensures |Digits(11211)| == 5
  {
    assert Digits(11211) == Digits(1121) + ['1'];
    FourDigits(1121);
  }

  lemma LastLineStarts(s: string)
    requires s != [] && !Eol(s[|s| - 1])
    ensures LastLine(s) < |s|
  {
    hide LastLine;
    var n := LastLine(s);
  }

  lemma StrippedShorter(m: string)
    ensures |Stripped(m)| <= |m|
  {
  }

  lemma LastLineInside(m: string)
    requires Stripped(m) != []
    ensures LastLine(Stripped(m)) < |m|
  {
    hide Stripped;
    StrippedShorter(m);
    LastLineStarts(Stripped(m));
  }

  lemma PiecesScanned(m: string)
    requires Stripped(m) != []
    ensures LastLine(Stripped(m)) < |m|
    ensures Pieces(m) == Scanned(m, LastLine(Stripped(m)) + 1).pieces
  {
    hide Stripped, LastLine, Scanned, Feed, Eol;
    LastLineInside(m);
    assert Pieces(m) == Scanned(m, LastLine(Stripped(m)) + 1).pieces;
  }

  /** The first command appended is how the message begins. */
  lemma FirstIsPrefix(m: string)
    requires Stripped(m) != [] && Pieces(m) != []
    ensures Pieces(m)[0] <= m
  {
    hide Feed;
    PiecesScanned(m);
    var n := LastLine(Stripped(m)) + 1;
    FirstPiece(m, n);
  }

  lemma MeantLines(key: string, value: string)
    ensures Ended(Meant(key, value)) && Newlines(Meant(key, value)) >= 2
    ensures Newlines(Meant(key, value)) == 2 <==> '\n' !in key && '\n' !in value
  {
    hide Digits;
    var d := Digits(|value|);
    assert Meant(key, value) == "set " + key + " 0 0 " + d + "\r\n" + (value + "\r\n");
    NewlinesAppend("set " + key + " 0 0 " + d + "\r\n", value + "\r\n");
    NewlinesAppend(value, "\r\n");
    NewlinesAppend("set " + key + " 0 0 " + d, "\r\n");
    NewlinesAppend("set " + key + " 0 0 ", d);
    NewlinesAppend("set " + key, " 0 0 ");
    NewlinesAppend("set ", key);
    NoNewlines(key); NoNewlines(value); NoNewlines(d); NoNewlines("set "); NoNewlines(" 0 0 ");
    assert "\r\n"[..1] == "\r" && Newlines("\r") == 0 && Newlines("\r\n") == 1;
  }

  lemma LastLineAfter(c: string, command: string, x: string)
    requires c == command + x && Ended(command)
    ensures |command| <= LastLine(c) <= |c|
    ensures LastLine(c) == |c| <==> x == "" || x[|x| - 1] == '\n'
  {
    hide LastLine;
    var n := |command|;
    assert c[n - 1] == command[n - 1];
    LastLineBehind(c, n - 1);
    if x != "" {
      assert c[|c| - 1] == x[|x| - 1];
      if x[|x| - 1] == '\n' { LastLineBehind(c, |c| - 1); }
    }
  }

  lemma Regroup(a: string, b: string, c: string, d: string)
    ensures a + b + c + d == a + (b + (c + d))
  {
  }

  /** The scan of a command with other text behind it. */
  lemma BehindShape(command: string, x: string, ip: string, port: nat)
    requires IsIp(ip) && Ended(command)
    ensures var m := Message(command + x, ip, port); var n := LastLine(command + x);
      && m == command + (x + (Tail(ip, port) + "\r\n"))
      && Stripped(m) != [] && |command| <= n <= |command + x| && n < |m|
      && Pieces(m) == Scanned(m, n + 1).pieces
      && IpPortOf(m) == (command + x)[n..] + Tail(ip, port)
      && (n == |command + x| <==> x == "" || x[|x| - 1] == '\n')
  {
    hide Digits, Pieces, Scanned, Stripped, IpPortOf, Tail, IsIp, LastLine, Message, Ended;
    var c := command + x;
    MessageShape(c, ip, port);
    TailIs(ip, port);
    LastLineAfter(c, command, x);
    Regroup(command, x, Tail(ip, port), "\r\n");
    assert Stripped(Message(c, ip, port)) != [];
    PiecesScanned(Message(c, ip, port));
  }

  lemma TooManyLines(command: string, x: string, ip: string, port: nat)
    requires IsIp(ip) && Ended(command) && Newlines(command) > 2
    ensures !Carries(Message(command + x, ip, port), command, ip, port)
  {
    hide Digits, Pieces, Scanned, Newlines, Stripped, LastLine, IpPortOf, Message, Tail, IsIp;
    var m := Message(command + x, ip, port);
    BehindShape(command, x, ip, port);
    var k := SecondNewline(command);
    assert command[..k] == m[..k] && command[..k - 1] == m[..k - 1];
    FirstAppended(m, k, LastLine(command + x) + 1);
    assert |m[..k]| < |command|;
  }

  lemma MiddleIs(a: string, x: string, t: string, e: string)
    requires t != ""
    ensures var m := a + (x + (t + e));
      |a| + |x| < |m| && m[..|a|] == a && m[|a|..|a| + |x| + 1] == x + [t[0]] && (a != "" ==> m[|a| - 1] == a[|a| - 1])
  {
  }

  lemma TextBetween(command: string, x: string, ip: string, port: nat)
    requires IsIp(ip) && Ended(command) && Newlines(command) == 2 && (x == "" || x[|x| - 1] == '\n')
    ensures Carries(Message(command + x, ip, port), command, ip, port) <==> Newlines(AfterReturns(x, 2)) < 2
  {
    hide Digits, Pieces, Scanned, Newlines, AfterReturns, Stripped, LastLine, IpPortOf, Message, Tail, IsIp;
    var m := Message(command + x, ip, port);
    var (n, t) := (|command|, Tail(ip, port));
    BehindShape(command, x, ip, port);
    TailIs(ip, port);
    MiddleIs(command, x, t, "\r\n");
    FeedCommand(m, n, x, t[0]);
    assert (command + x)[n + |x|..] + t == t;
    assert IpPortOf(m) == t && Pieces(m) == Scanned(m, n + |x| + 1).pieces;
    assert Carries(m, command, ip, port) <==> Pieces(m) == [command];
  }

  /** A command of at least two lines with other text behind it. */
  lemma MeantThen(command: string, x: string, ip: string, port: nat)
    requires IsIp(ip) && Ended(command) && Newlines(command) >= 2
    ensures Carries(Message(command + x, ip, port), command, ip, port) <==> Newlines(command) == 2 && Harmless(x)
  {
    hide Digits, Pieces, Scanned, Newlines, AfterReturns, Stripped, LastLine, IpPortOf, Message, Tail, IsIp;
    if Newlines(command) > 2 {
      TooManyLines(command, x, ip, port);
    } else if x == "" || x[|x| - 1] == '\n' {
      TextBetween(command, x, ip, port);
    } else {
      BehindShape(command, x, ip, port);
      var s := (command + x)[LastLine(command + x)..];
      assert |s + Tail(ip, port)| > |Tail(ip, port)|;
    }
  }

  /** Once two newlines are copied the text so far is the first command. */
  lemma FirstAppended(m: string, k: nat, j: nat)
    requires 0 < k < j <= |m| && Newlines(m[..k]) == 2 && Newlines(m[..k - 1]) < 2
    ensures Scanned(m, j).pieces != [] && Scanned(m, j).pieces[0] == m[..k]
  {
    FirstLines(m, k);
    PiecesGrow(m, k + 1, j);
  }
}
