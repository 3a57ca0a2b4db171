/** Acknowledging after the backup (memcached.c, ramcube.c): a primary answers a set only
    when a backup has reported it.  The steps of the primary and of its backups, over
    connections that deliver in order, one request at a time. */
module Acks {
  import opened BackupLog
  import opened Decimal
  import opened Octets
  import opened Seqs
  import opened Wire
  import J = Jenkins
  import T = Tokenizer

  // ----- the messages

  predicate NotLf(c: char) { c != '\n' }

  /** What send_unit_to_backup adds to the output buffer; the connection is sent as a number. */
  function Request(conn: nat, message: string): string {
    "BACKUP_REQUEST " + Digits(conn) + "\r\n" + message
  }

  function Reply(conn: nat): string { "BACKUP_REPLY " + Digits(conn) + "\r\n" }

  /** The first line without its end, and what comes after it. */
  function Line(text: string): (string, string) {
    var n := Span(text, NotLf);
    (if n > 1 && text[n - 1] == '\r' then text[..n - 1] else text[..n],
     if n < |text| then text[n + 1..] else "")
  }

  /** The number in a line of two words of which the first is `word`. */
  function Numbered(line: string, word: string): Option<int> {
    var w := T.Words(line);
    if |w| == 2 && w[0] == word then Some(Atoi(w[1])) else None
  }

  lemma NumberedLine(word: string, n: nat)
    requires word != "" && ' ' !in word
    ensures Numbered(word + " " + Digits(n), word) == Some(n)
  {
    var s := word + " " + Digits(n);
    assert forall i :: 0 <= i < |word| ==> s[i] == word[i];
    T.FirstWord(s, |word|);
    assert s[..|word|] == word && s[|word| + 1..] == Digits(n);
    forall i | 0 <= i < |Digits(n)| ensures Digits(n)[i] != ' ' { assert Digits(n)[i] in Digits(n); }
    T.LastWord(Digits(n));
    assert Digits(n) + [] == Digits(n);
    AtoiPositive(n, []);
  }

  lemma FirstLine(line: string, rest: string)
    requires line != "" && forall c :: c in line ==> c != '\n'
    ensures Line(line + "\r\n" + rest) == (line, rest)
  {
    var t := line + "\r\n" + rest;
    forall i | 0 <= i < |line| + 1 ensures NotLf(t[i]) { if i < |line| { assert t[i] == line[i] && line[i] in line; } }
    SpanIs(t, NotLf, |line| + 1);
    assert t[..|line|] == line && t[|line| + 2..] == rest;
  }

  /** Both ends agree on which connection a message is about. */
  lemma MessagesUnderstood(conn: nat, message: string)
    ensures Line(Request(conn, message)).1 == message
    ensures Numbered(Line(Request(conn, message)).0, "BACKUP_REQUEST") == Some(conn)
    ensures Numbered(Line(Reply(conn)).0, "BACKUP_REPLY") == Some(conn)
  {
    hide Digits, Numbered, Line;
    var d := Digits(conn);
    FirstLine("BACKUP_REQUEST " + d, message);
    assert Request(conn, message) == "BACKUP_REQUEST " + d + "\r\n" + message;
    FirstLine("BACKUP_REPLY " + d, "");
    assert Reply(conn) == "BACKUP_REPLY " + d + "\r\n" + "";
    NumberedLine("BACKUP_REQUEST", conn);
    NumberedLine("BACKUP_REPLY", conn);
    assert "BACKUP_REQUEST" + " " + d == "BACKUP_REQUEST " + d;
    assert "BACKUP_REPLY" + " " + d == "BACKUP_REPLY " + d;
  }

  // ----- the nodes

  /** The bytes of an item that has been stored, with those that no code writes: the one
      behind the key, and the memory behind the value. */
  datatype Bytes = Bytes(key: string, gap: char, flags: int, value: string, behind: string)

  function CommandOf(it: Bytes): string { SetText(it.key, it.gap, it.flags, it.value, it.behind) }

  /** The command fits the buffers of the primary, which does not survive it otherwise. */
  predicate CanSend(it: Bytes) { Sendable(CommandOf(it), |it.value|) }

  /** The hash of a key, which tells its backup. */
  function HashOf(key: string): nat {
    J.Hashed(seq(|key|, i requires 0 <= i < |key| => Octet(key[i] as nat)), 0)
  }

  class Primary {
    const myAddr: string
    const myPort: nat
    var out: seq<string>
    var written: seq<nat>

    /** setCommandServer: None where it writes over its buffers. */
    method SetCommandServer(key: string, data: string, nbyte: nat) returns (r: Option<string>)
      ensures r == if Sendable(Command(key, data, nbyte), nbyte) then Some(Command(key, data, nbyte)) else None
    {
      var str := Digits(nbyte);
      if |str| >= 10 { return None; }
      var buf := "set ";
      buf := buf + key;
      buf := buf + " 0 0 ";
      buf := buf + str;
      buf := buf + "\r\n";
      buf := buf + data;
      assert buf == Command(key, data, nbyte);
      r := if |buf| < 2048 then Some(buf) else None;
    }

    /** ramcube_post_set_data and send_unit_to_backup: the request goes to one backup's
        output buffer, and nothing to the client. */
    method PostSetData(conn: nat, it: Bytes) returns (ok: bool, b: nat)
      requires out != []
      modifies this`out
      ensures ok == CanSend(it) && b == HashOf(it.key) % |old(out)|
      ensures out == if ok
        then old(out)[b := old(out)[b] + Request(conn, Message(CommandOf(it), myAddr, myPort))] else old(out)
    {
      hide HashOf, Digits, KeyText, DataText, Sendable, Command;
      b := HashOf(it.key) % |out|;
      var key := KeyText(it.key, it.gap, it.flags, it.value, it.behind);
      var command := SetCommandServer(key, DataText(it.value, it.behind), |it.value|);
      if command.None? { return false, b; }
      ghost var was := out[b];
      out := out[b := out[b] + ("BACKUP_REQUEST " + Digits(conn) + "\r\n")];
      out := out[b := out[b] + command.value];
      out := out[b := out[b] + (myAddr + ":" + Digits(myPort) + "\r\n")];
      SentInThree(was, "BACKUP_REQUEST " + Digits(conn) + "\r\n", command.value, myAddr, ":", Digits(myPort), "\r\n");
      ok := true;
    }

    /** read_cb with one line, and process_command_BACKUP_REPLY. */
    method ReadReply(text: string)
      modifies this`written
      ensures written == old(written) + match Numbered(Line(text).0, "BACKUP_REPLY")
        case Some(p) => if p > 0 then [p] else []
        case None => []
    {
      var (line, _) := Line(text);
      var w := T.Words(line);
      if |w| == 2 && w[0] == "BACKUP_REPLY" {
        var cliConn := Atoi(w[1]);
        if cliConn > 0 { written := written + [cliConn]; }
      }
    }
  }

  lemma SentInThree(out: string, line: string, command: string, a: string, b: string, c: string, d: string)
    ensures out + line + command + (a + b + c + d) == out + (line + (command + a + b + c + d))
  {
  }

  /** try_read_command and the BACKUP_REQUEST branch of ramcube_process_commands: log the
      text behind the line, then answer.  There is no answer if nothing was asked or the
      request cannot be appended. */
  method HandleRequest(backup: Backup, text: string, now: nat) returns (reply: Option<string>)
    requires backup.Valid() && '\0' !in Line(text).1
    modifies backup, backup.segment, backup.nodes
    ensures backup.Valid()
    ensures var p := Numbered(Line(text).0, "BACKUP_REQUEST");
      if p == None || p.value <= 0 then reply == None && backup.View() == old(backup.View())
      else
        var (log, ok) := Taken(old(backup.View()), Line(text).1, now);
        backup.View() == log && reply == if ok then Some(Reply(p.value)) else None
  {
    hide Taken, Backup.Valid, Backup.View;
    var (line, left) := Line(text);
    var w := T.Words(line);
    if |w| != 2 || w[0] != "BACKUP_REQUEST" { return None; }
    var dataConnPtr := Atoi(w[1]);
    if dataConnPtr <= 0 { return None; }
    var ok := backup.AppendToSegment(left, now);
    reply := if ok then Some(Reply(dataConnPtr)) else None;
  }

  // ----- all together

  /** A set the primary has forwarded: for which client connection, to which backup. */
  datatype Sent = Sent(conn: nat, backup: nat, command: string)

  /** The primary at ip:port and its backups: requests and replies on their way, each
      backup's log, and the connections STORED was written to.  The last three fields are
      history: every set forwarded; for each backup, when it appended what it has appended
      and how many of its replies the primary has read. */
  datatype World = World(
    ip: string, port: nat,
    down: seq<seq<string>>, up: seq<seq<string>>, logs: seq<Log>, stored: seq<nat>,
    sent: seq<Sent>, times: seq<seq<nat>>, acked: seq<nat>)

  datatype Step =
    | Set(conn: nat, it: Bytes)
    | Receive(backup: nat, now: nat)
    | Acknowledge(backup: nat)

  /** How a backup deals with a request. */
  function Handled(log: Log, text: string, now: nat): (Log, bool) { Taken(log, Line(text).1, now) }

  /** A request that cannot be appended is never answered. */
  predicate Enabled(w: World, s: Step) {
    match s
    case Set(c, it) => c > 0 && w.down != [] && CanSend(it)
    case Receive(b, now) =>
      && b < |w.down| == |w.up| == |w.logs| == |w.times|
      && w.down[b] != [] && Handled(w.logs[b], w.down[b][0], now).1
    case Acknowledge(b) => b < |w.up| == |w.acked| && w.up[b] != []
  }

  /** The backup an item goes to. */
  function BackupOf(w: World, it: Bytes): nat
    requires w.down != []
  {
    HashOf(it.key) % |w.down|
  }

  /** The number a backup or the primary reads out of a message. */
  function ConnIn(text: string, word: string): nat {
    match Numbered(Line(text).0, word)
    case Some(p) => if p > 0 then p else 0
    case None => 0
  }

  function Next(w: World, s: Step): World
    requires Enabled(w, s)
  {
    match s
    case Set(c, it) =>
      var b := BackupOf(w, it);
      w.(down := w.down[b := w.down[b] + [Request(c, Message(CommandOf(it), w.ip, w.port))]],
         sent := w.sent + [Sent(c, b, CommandOf(it))])
    case Receive(b, now) =>
      var text := w.down[b][0];
      w.(down := w.down[b := w.down[b][1..]],
         up := w.up[b := w.up[b] + [Reply(ConnIn(text, "BACKUP_REQUEST"))]],
         logs := w.logs[b := Handled(w.logs[b], text, now).0],
         times := w.times[b := w.times[b] + [now]])
    case Acknowledge(b) =>
      w.(up := w.up[b := w.up[b][1..]],
         stored := w.stored + [ConnIn(w.up[b][0], "BACKUP_REPLY")],
         acked := w.acked[b := w.acked[b] + 1])
  }

  /** What was forwarded to one backup, in order. */
  function To(sent: seq<Sent>, b: nat): (r: seq<Sent>)
    ensures |r| <= |sent|
  {
    if sent == [] then [] else
      var n := |sent| - 1;
      To(sent[..n], b) + if sent[n].backup == b then [sent[n]] else []
  }

  function RequestOf(w: World, s: Sent): string { Request(s.conn, Message(s.command, w.ip, w.port)) }

  /** What one backup has appended is what was forwarded first, the rest is still on its
      way; of the replies the first were read, the rest are on their way. */
  ghost predicate InOrder(w: World, b: nat)
    requires b < |w.down| == |w.up| == |w.times| == |w.acked|
  {
    var to := To(w.sent, b);
    var got := |w.times[b]|;
    && got + |w.down[b]| == |to| && w.acked[b] + |w.up[b]| == got
    && (forall i :: 0 <= i < |w.down[b]| ==> w.down[b][i] == RequestOf(w, to[got + i]))
    && (forall i :: 0 <= i < |w.up[b]| ==> w.up[b][i] == Reply(to[w.acked[b] + i].conn))
  }

  ghost predicate Shape(w: World) {
    && |w.down| == |w.up| == |w.logs| == |w.times| == |w.acked|
    && (forall s :: s in w.sent ==> s.conn > 0 && s.backup < |w.down|)
  }

  /** How many sets of connection c are among those from a to b. */
  function Of(l: seq<Sent>, c: nat): nat {
    if l == [] then 0 else Of(l[..|l| - 1], c) + if l[|l| - 1].conn == c then 1 else 0
  }

  function Sum(l: seq<nat>): nat {
    if l == [] then 0 else Sum(l[..|l| - 1]) + l[|l| - 1]
  }

  function Occurs(l: seq<nat>, c: nat): nat { multiset(l)[c] }

  function ReadFrom(w: World, b: nat, c: nat): nat
    requires Shape(w) && b < |w.down| && InOrder(w, b)
  {
    Of(To(w.sent, b)[..w.acked[b]], c)
  }

  /** Per backup, how many of the first acked[b] sets were c's. */
  ghost function Read(w: World, c: nat): seq<nat>
    requires Shape(w) && forall b :: 0 <= b < |w.down| ==> InOrder(w, b)
  {
    seq(|w.down|, b requires 0 <= b < |w.down| => ReadFrom(w, b, c))
  }

  ghost predicate Inv(w: World) {
    && Shape(w)
    && (forall b :: 0 <= b < |w.down| ==> InOrder(w, b))
    && (forall c :: Occurs(w.stored, c) == Sum(Read(w, c)))
  }

  ghost predicate Initial(w: World) {
    && |w.down| == |w.up| == |w.logs| == |w.times| == |w.acked| && w.sent == [] && w.stored == []
    && (forall b :: 0 <= b < |w.down| ==> w.down[b] == [] && w.up[b] == [] && w.times[b] == [] && w.acked[b] == 0)
    && (forall b :: 0 <= b < |w.down| ==> w.logs[b] == Log(None, []))
  }

  lemma {:induction false} SumZero(l: seq<nat>)
    requires forall i :: 0 <= i < |l| ==> l[i] == 0
    ensures Sum(l) == 0
  {
    if l != [] { SumZero(l[..|l| - 1]); }
  }

  lemma {:induction false} SumUpdate(l: seq<nat>, i: nat, x: nat)
    requires i < |l|
    ensures Sum(l[i := x]) == Sum(l) - l[i] + x
    decreases |l|
  {
    var n := |l| - 1;
    if i < n {
      SumUpdate(l[..n], i, x);
      assert l[i := x][..n] == l[..n][i := x];
    } else {
      assert l[i := x][..n] == l[..n];
    }
  }

  lemma InitialInv(w: World)
    requires Initial(w)
    ensures Inv(w)
  {
    forall c ensures Occurs(w.stored, c) == Sum(Read(w, c)) { SumZero(Read(w, c)); }
  }

  lemma ToMore(sent: seq<Sent>, s: Sent, b: nat)
    ensures To(sent + [s], b) == To(sent, b) + if s.backup == b then [s] else []
  {
    assert (sent + [s])[..|sent|] == sent;
  }

  lemma {:induction false} ToMembers(sent: seq<Sent>, b: nat, s: Sent)
    ensures s in To(sent, b) <==> s in sent && s.backup == b
  {
    if sent != [] {
      var n := |sent| - 1;
      ToMembers(sent[..n], b, s);
      assert s in sent <==> s in sent[..n] || s == sent[n];
    }
  }

  lemma OfMore(l: seq<Sent>, s: Sent, c: nat)
    ensures Of(l + [s], c) == Of(l, c) + if s.conn == c then 1 else 0
  {
    assert (l + [s])[..|l|] == l;
  }

  lemma SetOrder(w: World, s: Step, b: nat)
    requires Shape(w) && Enabled(w, s) && s.Set? && b < |w.down| && InOrder(w, b)
    ensures Shape(Next(w, s)) && InOrder(Next(w, s), b)
    ensures w.acked[b] <= |To(w.sent, b)| && To(Next(w, s).sent, b)[..w.acked[b]] == To(w.sent, b)[..w.acked[b]]
  {
    hide Request, Message, CommandOf, CanSend, HashOf, To, Reply;
    var t := Sent(s.conn, BackupOf(w, s.it), CommandOf(s.it));
    ToMore(w.sent, t, b);
  }

  lemma ReceiveOrder(w: World, s: Step, b: nat)
    requires Shape(w) && Enabled(w, s) && s.Receive? && b < |w.down| && InOrder(w, b)
    ensures Shape(Next(w, s)) && InOrder(Next(w, s), b)
  {
    hide Request, Reply, Message, Line, Numbered, Handled;
    var to := To(w.sent, b);
    if b == s.backup {
      var t := to[|w.times[b]|];
      ToMembers(w.sent, b, t);
      assert w.down[b][0] == RequestOf(w, t);
      MessagesUnderstood(t.conn, Message(t.command, w.ip, w.port));
    }
  }

  lemma AcknowledgeOrder(w: World, s: Step, b: nat)
    requires Shape(w) && Enabled(w, s) && s.Acknowledge? && b < |w.down| && InOrder(w, b)
    ensures Shape(Next(w, s)) && InOrder(Next(w, s), b)
    ensures b == s.backup
        ==> w.acked[b] < |To(w.sent, b)| && ConnIn(w.up[b][0], "BACKUP_REPLY") == To(w.sent, b)[w.acked[b]].conn
  {
    hide Request, Reply, Message, Line, Numbered, Handled;
    var to := To(w.sent, b);
    if b == s.backup {
      var t := to[w.acked[b]];
      ToMembers(w.sent, b, t);
      MessagesUnderstood(t.conn, "");
    }
  }

  lemma StoredUnread(w: World, s: Step, c: nat)
    requires Inv(w) && Enabled(w, s) && !s.Acknowledge? && Shape(Next(w, s))
    requires forall b :: 0 <= b < |w.down| ==> InOrder(Next(w, s), b)
    ensures Occurs(Next(w, s).stored, c) == Sum(Read(Next(w, s), c))
  {
    hide Request, Reply, Message, Line, Numbered, Handled, ConnIn, InOrder, Of, To, Occurs;
    var v := Next(w, s);
    forall b | 0 <= b < |w.down| ensures ReadFrom(v, b, c) == ReadFrom(w, b, c) {
      if s.Set? { SetOrder(w, s, b); }
    }
    assert Read(v, c) == Read(w, c);
  }

  lemma StoredRead(w: World, s: Step, c: nat)
    requires Inv(w) && Enabled(w, s) && s.Acknowledge? && Shape(Next(w, s))
    requires forall b :: 0 <= b < |w.down| ==> InOrder(Next(w, s), b)
    ensures Occurs(Next(w, s).stored, c) == Sum(Read(Next(w, s), c))
  {
    hide Request, Reply, Message, Line, Numbered, Handled, ConnIn, InOrder, Of, To;
    var v := Next(w, s);
    var b := s.backup;
    AcknowledgeOrder(w, s, b);
    var (to, n) := (To(w.sent, b), w.acked[b]);
    OfMore(to[..n], to[n], c);
    assert to[..n + 1] == to[..n] + [to[n]];
    assert Read(v, c) == Read(w, c)[b := ReadFrom(v, b, c)];
    SumUpdate(Read(w, c), b, ReadFrom(v, b, c));
  }

  lemma StepInv(w: World, s: Step)
    requires Inv(w) && Enabled(w, s)
    ensures Inv(Next(w, s))
  {
    hide Request, Reply, Message, Line, Numbered, Handled, ConnIn, InOrder, Next, Enabled, Read;
    SameShape(w, s);
    forall b | 0 <= b < |w.down| ensures Shape(Next(w, s)) && InOrder(Next(w, s), b) {
      match s
      case Set(_, _) => SetOrder(w, s, b);
      case Receive(_, _) => ReceiveOrder(w, s, b);
      case Acknowledge(_) => AcknowledgeOrder(w, s, b);
    }
    forall c ensures Occurs(Next(w, s).stored, c) == Sum(Read(Next(w, s), c)) {
      if s.Acknowledge? { StoredRead(w, s, c); } else { StoredUnread(w, s, c); }
    }
  }

  lemma SameShape(w: World, s: Step)
    requires Shape(w) && Enabled(w, s)
    ensures Shape(Next(w, s)) && |Next(w, s).down| == |w.down|
  {
    hide Request, Reply, Message, Line, Numbered, Handled, ConnIn, Command;
  }

  // ----- what is forwarded is on its way, or acknowledged

  lemma {:induction false} OfAppend(l: seq<Sent>, m: seq<Sent>, c: nat)
    ensures Of(l + m, c) == Of(l, c) + Of(m, c)
  {
    if m == [] {
      assert l + m == l;
    } else {
      assert (l + m)[..|l + m| - 1] == l + m[..|m| - 1];
      OfAppend(l, m[..|m| - 1], c);
    }
  }

  function ConnsIn(texts: seq<string>, word: string): seq<nat> {
    seq(|texts|, i requires 0 <= i < |texts| => ConnIn(texts[i], word))
  }

  /** How many of the messages on their way are about connection c. */
  function Flight(chans: seq<seq<string>>, word: string, c: nat): nat {
    Sum(PerChannel(chans, word, c))
  }

  function PerChannel(chans: seq<seq<string>>, word: string, c: nat): seq<nat> {
    seq(|chans|, b requires 0 <= b < |chans| => Occurs(ConnsIn(chans[b], word), c))
  }

  lemma {:induction false} OccursOf(l: seq<nat>, m: seq<Sent>, c: nat)
    requires |l| == |m| && forall i :: 0 <= i < |l| ==> l[i] == m[i].conn
    ensures Occurs(l, c) == Of(m, c)
  {
    if l != [] {
      var n := |l| - 1;
      OccursOf(l[..n], m[..n], c);
      assert l == l[..n] + [l[n]];
    }
  }

  lemma DownIs(w: World, b: nat)
    requires Shape(w) && b < |w.down| && InOrder(w, b)
    ensures var to := To(w.sent, b); var l := ConnsIn(w.down[b], "BACKUP_REQUEST");
      && |w.times[b]| <= |to| && |l| == |to| - |w.times[b]|
      && forall i :: 0 <= i < |l| ==> l[i] == to[|w.times[b]|..][i].conn
  {
    hide Request, Reply, Message, ConnIn;
    var l := ConnsIn(w.down[b], "BACKUP_REQUEST");
    forall i | 0 <= i < |l| ensures l[i] == To(w.sent, b)[|w.times[b]|..][i].conn {
      Understood(w, b, |w.times[b]| + i);
    }
  }

  lemma UpIs(w: World, b: nat)
    requires Shape(w) && b < |w.down| && InOrder(w, b)
    ensures var to := To(w.sent, b); var l := ConnsIn(w.up[b], "BACKUP_REPLY");
      && w.acked[b] <= |w.times[b]| <= |to| && |l| == |w.times[b]| - w.acked[b]
      && forall i :: 0 <= i < |l| ==> l[i] == to[w.acked[b]..|w.times[b]|][i].conn
  {
    hide Request, Reply, Message, ConnIn;
    var l := ConnsIn(w.up[b], "BACKUP_REPLY");
    forall i | 0 <= i < |l| ensures l[i] == To(w.sent, b)[w.acked[b]..|w.times[b]|][i].conn {
      Understood(w, b, w.acked[b] + i);
    }
  }

  /** The three parts of what was forwarded to one backup. */
  lemma OneChannel(w: World, b: nat, c: nat)
    requires Shape(w) && b < |w.down| && InOrder(w, b)
    ensures var to := To(w.sent, b); var got := |w.times[b]|;
      && w.acked[b] <= got <= |to|
      && Of(to, c) == ReadFrom(w, b, c) + Occurs(ConnsIn(w.up[b], "BACKUP_REPLY"), c)
          + Occurs(ConnsIn(w.down[b], "BACKUP_REQUEST"), c)
      && Of(to[..got], c) == ReadFrom(w, b, c) + Occurs(ConnsIn(w.up[b], "BACKUP_REPLY"), c)
  {
    hide Occurs, ConnsIn, InOrder, To, Of;
    var to := To(w.sent, b);
    var got := |w.times[b]|;
    DownIs(w, b);
    UpIs(w, b);
    OccursOf(ConnsIn(w.down[b], "BACKUP_REQUEST"), to[got..], c);
    OccursOf(ConnsIn(w.up[b], "BACKUP_REPLY"), to[w.acked[b]..got], c);
    OfAppend(to[..w.acked[b]], to[w.acked[b]..got], c);
    OfAppend(to[..got], to[got..], c);
    assert to[..w.acked[b]] + to[w.acked[b]..got] == to[..got] && to[..got] + to[got..] == to;
  }

  lemma Understood(w: World, b: nat, k: nat)
    requires Shape(w) && b < |w.down| && k < |To(w.sent, b)|
    ensures var t := To(w.sent, b)[k];
      && t.conn > 0 && ConnIn(RequestOf(w, t), "BACKUP_REQUEST") == t.conn
      && ConnIn(Reply(t.conn), "BACKUP_REPLY") == t.conn
  {
    hide Request, Reply, Message, Line, Numbered;
    var t := To(w.sent, b)[k];
    ToMembers(w.sent, b, t);
    MessagesUnderstood(t.conn, Message(t.command, w.ip, w.port));
  }

  function Split(sent: seq<Sent>, n: nat, c: nat): seq<nat> {
    seq(n, b requires 0 <= b < n => Of(To(sent, b), c))
  }

  /** Every set went to exactly one backup. */
  lemma {:induction false} SplitAll(sent: seq<Sent>, n: nat, c: nat)
    requires forall s :: s in sent ==> s.backup < n
    ensures Of(sent, c) == Sum(Split(sent, n, c))
  {
    hide To;
    if sent == [] {
      SumZero(Split(sent, n, c));
    } else {
      var (rest, s) := (sent[..|sent| - 1], sent[|sent| - 1]);
      assert forall t :: t in rest ==> t in sent;
      SplitAll(rest, n, c);
      assert s in sent && sent == rest + [s];
      var x := Of(To(sent, s.backup), c);
      forall b | 0 <= b < n && b != s.backup ensures Split(sent, n, c)[b] == Split(rest, n, c)[b] {
        ToOthers(rest, s, b);
      }
      assert Split(sent, n, c) == Split(rest, n, c)[s.backup := x];
      SumUpdate(Split(rest, n, c), s.backup, x);
      ToMore(rest, s, s.backup);
      OfMore(To(rest, s.backup), s, c);
      OfMore(rest, s, c);
    }
  }

  lemma ToOthers(sent: seq<Sent>, s: Sent, b: nat)
    requires b != s.backup
    ensures To(sent + [s], b) == To(sent, b)
  {
    ToMore(sent, s, b);
    assert To(sent, b) + [] == To(sent, b);
  }

  lemma {:induction false} SumAdd(l: seq<nat>, m: seq<nat>, r: seq<nat>)
    requires |l| == |m| == |r| && forall i :: 0 <= i < |l| ==> r[i] == l[i] + m[i]
    ensures Sum(r) == Sum(l) + Sum(m)
  {
    if l != [] {
      var n := |l| - 1;
      SumAdd(l[..n], m[..n], r[..n]);
    }
  }

  /** How many of connection c's sets some backup has appended. */
  ghost function Appended(w: World, c: nat): seq<nat>
    requires Shape(w) && forall b :: 0 <= b < |w.down| ==> |w.times[b]| <= |To(w.sent, b)|
  {
    seq(|w.down|, b requires 0 <= b < |w.down| => Of(To(w.sent, b)[..|w.times[b]|], c))
  }

  lemma Received(w: World)
    requires Inv(w)
    ensures forall b :: 0 <= b < |w.down| ==> |w.times[b]| <= |To(w.sent, b)|
  {
    forall b | 0 <= b < |w.down| ensures |w.times[b]| <= |To(w.sent, b)| { assert InOrder(w, b); }
  }

  /** For each connection: sets forwarded are requests on their way, replies on their way,
      and replies read; and no more STORED is written than sets were appended. */
  lemma Balance(w: World, c: nat)
    requires Inv(w)
    ensures Of(w.sent, c)
      == Flight(w.down, "BACKUP_REQUEST", c) + Flight(w.up, "BACKUP_REPLY", c) + Occurs(w.stored, c)
    ensures forall b :: 0 <= b < |w.down| ==> |w.times[b]| <= |To(w.sent, b)|
    ensures Sum(Appended(w, c)) == Occurs(w.stored, c) + Flight(w.up, "BACKUP_REPLY", c)
  {
    hide ConnsIn, Occurs, InOrder, ReadFrom;
    Received(w);
    var n := |w.down|;
    SplitAll(w.sent, n, c);
    forall b | 0 <= b < n
      ensures Appended(w, c)[b] == Read(w, c)[b] + PerChannel(w.up, "BACKUP_REPLY", c)[b]
      ensures Split(w.sent, n, c)[b] == Appended(w, c)[b] + PerChannel(w.down, "BACKUP_REQUEST", c)[b]
    {
      OneChannel(w, b, c);
    }
    SumAdd(Read(w, c), PerChannel(w.up, "BACKUP_REPLY", c), Appended(w, c));
    SumAdd(Appended(w, c), PerChannel(w.down, "BACKUP_REQUEST", c), Split(w.sent, n, c));
  }

  // ----- what has been appended is in the log

  predicate TwoLines(s: Sent) { Ended(s.command) && Newlines(s.command) == 2 }

  function Puts(w: World, b: nat): (r: seq<Put>)
    requires b < |w.times| && |w.times[b]| <= |To(w.sent, b)|
    ensures |r| == |w.times[b]|
  {
    seq(|w.times[b]|, i requires 0 <= i < |w.times[b]| => Put(w.ip, w.port, To(w.sent, b)[i].command, w.times[b][i]))
  }

  ghost predicate Whole(w: World) { IsIp(w.ip) && forall s :: s in w.sent ==> TwoLines(s) }

  ghost predicate LogsInv(w: World)
    requires Inv(w)
  {
    Received(w);
    Whole(w) ==> forall b :: 0 <= b < |w.down| ==> w.logs[b] == Run(Log(None, []), Puts(w, b))
  }

  lemma HandledIsAppend(log: Log, w: World, s: Sent, now: nat)
    requires IsIp(w.ip) && TwoLines(s)
    ensures Handled(log, RequestOf(w, s), now)
      == if Fits(s.command, w.ip, w.port) then (Append(log, w.ip, w.port, s.command, now), true) else (log, false)
  {
    hide IpOf, PortOf, Pieces, Stripped, Append, Message, Request, Line, Newlines, Readable, Fits;
    MessagesUnderstood(s.conn, Message(s.command, w.ip, w.port));
    CommandRecovered(s.command, w.ip, w.port);
    AddressRecovered(s.command, w.ip, w.port);
    AppendedNone(log, w.ip, w.port, now);
    AppendedNext(log, w.ip, w.port, [], s.command, now);
    assert [] + [s.command] == [s.command];
  }

  lemma StepLogs(w: World, s: Step)
    requires Inv(w) && Enabled(w, s) && LogsInv(w)
    ensures Inv(Next(w, s)) && LogsInv(Next(w, s))
  {
    hide Request, Message, Line, Numbered, Handled, ConnIn, Reply, Append, Inv, TwoLines, Command;
    StepInv(w, s);
    var v := Next(w, s);
    Received(w);
    Received(v);
    assert Shape(w) by { InvShape(w); }
    if Whole(v) {
      assert Whole(w) by { forall t | t in w.sent ensures TwoLines(t) { assert t in v.sent; } }
      forall b | 0 <= b < |w.down| ensures v.logs[b] == Run(Log(None, []), Puts(v, b)) {
        match s
        case Set(c, it) =>
          ToMore(w.sent, Sent(c, BackupOf(w, it), CommandOf(it)), b);
          assert Puts(v, b) == Puts(w, b);
        case Acknowledge(_) =>
          assert Puts(v, b) == Puts(w, b);
        case Receive(x, now) =>
          if b != x {
            assert Puts(v, b) == Puts(w, b);
          } else {
            var t := NextRequest(w, b);
            HandledIsAppend(w.logs[b], w, t, now);
            assert Puts(v, b)[..|Puts(w, b)|] == Puts(w, b);
          }
      }
    }
  }

  lemma InvShape(w: World)
    requires Inv(w)
    ensures Shape(w)
  {
  }

  lemma NextRequest(w: World, b: nat) returns (t: Sent)
    requires Inv(w) && Whole(w) && b < |w.down| && w.down[b] != []
    ensures |w.times[b]| < |To(w.sent, b)| && t == To(w.sent, b)[|w.times[b]|]
    ensures TwoLines(t) && w.down[b][0] == RequestOf(w, t)
  {
    assert InOrder(w, b);
    t := To(w.sent, b)[|w.times[b]|];
    ToMembers(w.sent, b, t);
  }

  ghost predicate IsRun(w: World, steps: seq<Step>)
    decreases |steps|
  {
    steps != [] ==> Enabled(w, steps[0]) && IsRun(Next(w, steps[0]), steps[1..])
  }

  ghost function After(w: World, steps: seq<Step>): World
    requires IsRun(w, steps)
    decreases |steps|
  {
    if steps == [] then w else After(Next(w, steps[0]), steps[1..])
  }

  lemma {:induction false} RunInv(w: World, steps: seq<Step>)
    requires Inv(w) && LogsInv(w) && IsRun(w, steps)
    ensures Inv(After(w, steps)) && LogsInv(After(w, steps))
    decreases |steps|
  {
    hide Inv, LogsInv, Enabled, Next;
    if steps != [] {
      StepLogs(w, steps[0]);
      RunInv(Next(w, steps[0]), steps[1..]);
    }
  }

  lemma InitialLogs(w: World)
    requires Initial(w)
    ensures Inv(w) && LogsInv(w)
  {
    InitialInv(w);
  }

  /** In every run: each STORED a client was sent stands for a set of its connection that
      some backup had appended before; and if the sets were of two lines, what a backup has
      on disk and in memory is exactly what it appended, in order, if and only if its log
      never lost anything. */
  lemma AcknowledgedAfterBackup(w: World, steps: seq<Step>, c: nat, b: nat)
    requires Initial(w) && IsRun(w, steps)
    ensures var v := After(w, steps);
      && Inv(v) && (forall x :: 0 <= x < |v.down| ==> |v.times[x]| <= |To(v.sent, x)|)
      && Occurs(v.stored, c) <= Sum(Appended(v, c)) <= Of(v.sent, c)
      && Of(v.sent, c) == Flight(v.down, "BACKUP_REQUEST", c) + Flight(v.up, "BACKUP_REPLY", c) + Occurs(v.stored, c)
      && (Whole(v) && b < |v.down| ==>
            (All(v.logs[b]) == Commands(Puts(v, b)) <==> KeptThroughout(Log(None, []), Puts(v, b))))
  {
    hide Initial, Inv, Appended, Flight, Occurs, Of, Sum, All, Run, Commands, KeptThroughout, Puts;
    InitialLogs(w);
    RunInv(w, steps);
    var v := After(w, steps);
    Balance(v, c);
    if Whole(v) && b < |v.down| {
      assert |v.times| == |v.down| by { InvShape(v); }
      EmptyLog();
      RunKeeps(Log(None, []), Puts(v, b));
      assert [] + Commands(Puts(v, b)) == Commands(Puts(v, b));
    }
  }
}
