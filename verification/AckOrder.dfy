/** A client that sends a set before the last one is answered takes the k-th STORED for
    its k-th set.  When that is right: replies from different backups overtake each other. */
module AckOrder {
  import opened Acks
  import opened Decimal
  import opened Seqs
  import opened Wire
  import BackupLog

  /** How many sets were forwarded to the same backup before set i. */
  function Rank(sent: seq<Sent>, i: nat): nat
    requires i < |sent|
  {
    |To(sent[..i], sent[i].backup)|
  }

  function Got(w: World): seq<nat> { seq(|w.times|, b requires 0 <= b < |w.times| => |w.times[b]|) }

  /** Set i has been appended, when backup b has appended got[b]. */
  predicate Done(sent: seq<Sent>, got: seq<nat>, i: nat)
    requires i < |sent|
  {
    sent[i].backup < |got| && Rank(sent, i) < got[sent[i].backup]
  }

  /** For every STORED connection c was sent, in turn, its next set has been appended. */
  ghost predicate InTurn(w: World, c: nat) {
    forall i :: 0 <= i < |w.sent| && w.sent[i].conn == c && Of(w.sent[..i], c) < Occurs(w.stored, c)
        ==> Done(w.sent, Got(w), i)
  }

  /** From the first set of c that is not appended on, none is, and they all go to one backup. */
  ghost predicate OneBackup(sent: seq<Sent>, got: seq<nat>, c: nat) {
    forall i, j :: 0 <= i < j < |sent| && sent[i].conn == c && sent[j].conn == c && !Done(sent, got, i)
      ==> !Done(sent, got, j) && sent[j].backup == sent[i].backup
  }

  lemma {:induction false} ToGrows(sent: seq<Sent>, i: nat, j: nat, b: nat)
    requires i <= j <= |sent|
    ensures |To(sent[..i], b)| <= |To(sent[..j], b)|
  {
    if i < j {
      ToGrows(sent, i, j - 1, b);
      assert sent[..j] == sent[..j - 1] + [sent[j - 1]];
      ToMore(sent[..j - 1], sent[j - 1], b);
    }
  }

  lemma RankGrows(sent: seq<Sent>, i: nat, j: nat)
    requires i < j < |sent| && sent[i].backup == sent[j].backup
    ensures Rank(sent, i) < Rank(sent, j)
  {
    assert sent[..i + 1] == sent[..i] + [sent[i]];
    ToMore(sent[..i], sent[i], sent[i].backup);
    ToGrows(sent, i + 1, j, sent[i].backup);
  }

  // ----- counting what is appended, set by set and backup by backup

  function DoneCount(sent: seq<Sent>, got: seq<nat>, c: nat): nat {
    if sent == [] then 0 else
      var n := |sent| - 1;
      DoneCount(sent[..n], got, c) + if sent[n].conn == c && Done(sent, got, n) then 1 else 0
  }

  function FirstOf(l: seq<Sent>, n: nat): seq<Sent> { if n < |l| then l[..n] else l }

  function ByBackup(sent: seq<Sent>, got: seq<nat>, c: nat): seq<nat> {
    seq(|got|, b requires 0 <= b < |got| => Of(FirstOf(To(sent, b), got[b]), c))
  }

  lemma {:induction false} DoneIsSum(sent: seq<Sent>, got: seq<nat>, c: nat)
    ensures DoneCount(sent, got, c) == Sum(ByBackup(sent, got, c))
  {
    hide ByBackup, Sum, To;
    if sent == [] {
      NoneDone(got, c);
    } else {
      var n := |sent| - 1;
      DoneIsSum(sent[..n], got, c);
      assert sent == sent[..n] + [sent[n]];
      MoreByBackup(sent[..n], sent[n], got, c);
    }
  }

  lemma NoneDone(got: seq<nat>, c: nat)
    ensures Sum(ByBackup([], got, c)) == 0
  {
    hide Sum;
    SumZero(ByBackup([], got, c));
  }

  /** One more set counts for its backup. */
  lemma MoreByBackup(rest: seq<Sent>, s: Sent, got: seq<nat>, c: nat)
    ensures Sum(ByBackup(rest + [s], got, c)) == Sum(ByBackup(rest, got, c))
      + if s.conn == c && s.backup < |got| && |To(rest, s.backup)| < got[s.backup] then 1 else 0
  {
    hide To, Of, FirstOf, Sum;
    var (more, less) := (ByBackup(rest + [s], got, c), ByBackup(rest, got, c));
    forall b | 0 <= b < |got| && b != s.backup ensures more[b] == less[b] { ToOthers(rest, s, b); }
    if s.backup < |got| {
      assert more == less[s.backup := more[s.backup]];
      SumUpdate(less, s.backup, more[s.backup]);
      OneMoreDone(rest, s, got[s.backup], c);
    } else {
      assert more == less;
    }
  }

  lemma OneMoreDone(rest: seq<Sent>, s: Sent, g: nat, c: nat)
    ensures Of(FirstOf(To(rest + [s], s.backup), g), c)
      == Of(FirstOf(To(rest, s.backup), g), c) + if s.conn == c && |To(rest, s.backup)| < g then 1 else 0
  {
    var l := To(rest, s.backup);
    ToMore(rest, s, s.backup);
    OfMore(l, s, c);
    if g <= |l| {
      assert FirstOf(l + [s], g) == FirstOf(l, g);
    } else {
      assert FirstOf(l + [s], g) == l + [s];
    }
  }

  /** Every STORED stands for a set that is done; all of them once no reply is on its way. */
  lemma StoredIsDone(w: World, c: nat)
    requires Inv(w)
    ensures Occurs(w.stored, c) <= DoneCount(w.sent, Got(w), c)
    ensures (forall b :: 0 <= b < |w.up| ==> w.up[b] == []) ==> Occurs(w.stored, c) == DoneCount(w.sent, Got(w), c)
  {
    hide DoneCount, InOrder, Sum, Of, To;
    Balance(w, c);
    DoneIsSum(w.sent, Got(w), c);
    assert Shape(w) by { InvShape(w); }
    forall b | 0 <= b < |w.times| ensures Appended(w, c)[b] == ByBackup(w.sent, Got(w), c)[b] {
      var l := To(w.sent, b);
      assert FirstOf(l, |w.times[b]|) == l[..|w.times[b]|];
    }
    assert Appended(w, c) == ByBackup(w.sent, Got(w), c);
    if forall b :: 0 <= b < |w.up| ==> w.up[b] == [] {
      SumZero(PerChannel(w.up, "BACKUP_REPLY", c));
    }
  }

  lemma {:induction false} DoneUpTo(sent: seq<Sent>, got: seq<nat>, c: nat, n: nat)
    requires n <= |sent|
    ensures DoneCount(sent[..n], got, c) <= Of(sent[..n], c)
    ensures (forall k :: 0 <= k < n && sent[k].conn == c ==> Done(sent, got, k))
      ==> DoneCount(sent[..n], got, c) == Of(sent[..n], c)
  {
    if n > 0 {
      DoneUpTo(sent, got, c, n - 1);
      Last(sent, n);
    }
  }

  lemma Last(sent: seq<Sent>, n: nat)
    requires 0 < n <= |sent|
    ensures sent[..n][..n - 1] == sent[..n - 1] && sent[..n][n - 1] == sent[n - 1]
  {
  }

  lemma {:induction false} DoneFrom(sent: seq<Sent>, got: seq<nat>, c: nat, i: nat, n: nat)
    requires i <= n <= |sent|
    ensures DoneCount(sent[..i], got, c) <= DoneCount(sent[..n], got, c)
    ensures (forall k :: i <= k < n && sent[k].conn == c ==> !Done(sent, got, k))
      <==> DoneCount(sent[..i], got, c) == DoneCount(sent[..n], got, c)
  {
    if i < n {
      DoneFrom(sent, got, c, i, n - 1);
      Last(sent, n);
    }
  }

  // ----- one backup is enough

  lemma OneBackupInTurn(w: World, c: nat)
    requires Inv(w) && OneBackup(w.sent, Got(w), c)
    ensures InTurn(w, c)
  {
    hide Inv, Done;
    var n := |w.sent|;
    StoredIsDone(w, c);
    assert w.sent[..n] == w.sent;
    forall i | 0 <= i < n && w.sent[i].conn == c && !Done(w.sent, Got(w), i)
      ensures Of(w.sent[..i], c) >= Occurs(w.stored, c)
    {
      DoneUpTo(w.sent, Got(w), c, i);
      DoneFrom(w.sent, Got(w), c, i, n);
    }
  }

  /** A step that is not a set. */
  predicate Delivers(s: Step) { !s.Set? }

  lemma DeliveryGot(w: World, s: Step)
    requires Shape(w) && Enabled(w, s) && Delivers(s)
    ensures Next(w, s).sent == w.sent && Next(w, s).ip == w.ip && Next(w, s).port == w.port
    ensures s.Receive? ==> s.backup < |Got(w)|
    ensures Got(Next(w, s)) == if s.Receive? then Got(w)[s.backup := Got(w)[s.backup] + 1] else Got(w)
  {
    hide Line, Handled, ConnIn, Reply;
  }

  lemma DeliveryKeeps(w: World, s: Step, c: nat)
    requires Shape(w) && Enabled(w, s) && Delivers(s) && OneBackup(w.sent, Got(w), c)
    ensures OneBackup(Next(w, s).sent, Got(Next(w, s)), c)
  {
    hide Next, Enabled, Rank;
    DeliveryGot(w, s);
    var (sent, got, more) := (w.sent, Got(w), Got(Next(w, s)));
    forall i, j | 0 <= i < j < |sent| && sent[i].conn == c && sent[j].conn == c && !Done(sent, more, i)
      ensures !Done(sent, more, j) && sent[j].backup == sent[i].backup
    {
      assert !Done(sent, got, i);
      RankGrows(sent, i, j);
    }
  }

  /** A set goes where all of its connection's sets that are not yet appended went. */
  ghost predicate Polite(w: World, s: Step)
    requires Enabled(w, s)
  {
    s.Set? ==>
      forall i :: 0 <= i < |w.sent| && w.sent[i].conn == s.conn && !Done(w.sent, Got(w), i)
                  ==> w.sent[i].backup == BackupOf(w, s.it)
  }

  lemma SetKeeps(w: World, s: Step, c: nat)
    requires Inv(w) && Enabled(w, s) && s.Set? && (s.conn == c ==> Polite(w, s)) && OneBackup(w.sent, Got(w), c)
    ensures OneBackup(Next(w, s).sent, Got(Next(w, s)), c)
  {
    hide Message, CommandOf, Request, HashOf, CanSend;
    var t := Sent(s.conn, BackupOf(w, s.it), CommandOf(s.it));
    var (sent, got) := (w.sent + [t], Got(w));
    assert Got(Next(w, s)) == got;
    forall i | 0 <= i < |w.sent| ensures Done(sent, got, i) <==> Done(w.sent, got, i) {
      assert sent[..i] == w.sent[..i];
    }
    assert InOrder(w, t.backup) && Shape(w);
    assert sent[..|w.sent|] == w.sent && Rank(sent, |w.sent|) == |To(w.sent, t.backup)| >= got[t.backup];
    assert !Done(sent, got, |w.sent|);
  }

  ghost predicate AllPolite(w: World, steps: seq<Step>, c: nat)
    requires IsRun(w, steps)
    decreases |steps|
  {
    steps != [] ==>
      && (steps[0].Set? && steps[0].conn == c ==> Polite(w, steps[0]))
      && AllPolite(Next(w, steps[0]), steps[1..], c)
  }

  lemma {:induction false} PoliteRun(w: World, steps: seq<Step>, c: nat)
    requires Inv(w) && IsRun(w, steps) && AllPolite(w, steps, c) && OneBackup(w.sent, Got(w), c)
    ensures Inv(After(w, steps)) && OneBackup(After(w, steps).sent, Got(After(w, steps)), c)
    decreases |steps|
  {
    hide Inv, OneBackup, Polite, Next, Enabled;
    if steps != [] {
      var s := steps[0];
      InvShape(w);
      StepInv(w, s);
      if s.Set? { SetKeeps(w, s, c); } else { DeliveryKeeps(w, s, c); }
      PoliteRun(Next(w, s), steps[1..], c);
    }
  }

  /** A client whose unanswered sets all go to one backup, as with never more than one of
      them, can take the k-th STORED for its k-th set, at any time in any run. */
  lemma PoliteInTurn(w: World, steps: seq<Step>, c: nat)
    requires Initial(w) && IsRun(w, steps) && AllPolite(w, steps, c)
    ensures InTurn(After(w, steps), c)
  {
    InitialInv(w);
    PoliteRun(w, steps, c);
    OneBackupInTurn(After(w, steps), c);
  }

  // ----- two are too many

  /** Requests that fit the backup's buffers. */
  ghost predicate Tidy(w: World) {
    && Whole(w) && (forall s :: s in w.sent ==> Fits(s.command, w.ip, w.port))
  }

  lemma {:induction false} RunsJoin(w: World, a: seq<Step>, b: seq<Step>)
    requires IsRun(w, a) && IsRun(After(w, a), b)
    ensures IsRun(w, a + b) && After(w, a + b) == After(After(w, a), b)
    decreases |a|
  {
    hide Next, Enabled;
    if a == [] {
      assert a + b == b;
    } else {
      assert (a + b)[0] == a[0] && (a + b)[1..] == a[1..] + b;
      RunsJoin(Next(w, a[0]), a[1..], b);
    }
  }

  lemma CanReceive(w: World, b: nat)
    requires Inv(w) && Tidy(w) && b < |w.down| && w.down[b] != []
    ensures Enabled(w, Receive(b, 0))
  {
    hide Message, Request, Handled, IsIp, Newlines, Fits;
    InvShape(w);
    var t := NextRequest(w, b);
    ToMembers(w.sent, b, t);
    HandledIsAppend(w.logs[b], w, t, 0);
  }

  /** One backup can always receive all that was sent to it, while the others wait. */
  lemma {:induction false} Drain(w: World, b: nat) returns (steps: seq<Step>)
    requires Inv(w) && Tidy(w) && b < |w.down|
    ensures IsRun(w, steps) && (forall s :: s in steps ==> Delivers(s))
    ensures var v := After(w, steps);
      && Inv(v) && v.sent == w.sent && |v.down| == |w.down| && v.down[b] == []
      && |Got(v)| == |Got(w)| && forall x :: 0 <= x < |Got(w)| && x != b ==> Got(v)[x] == Got(w)[x]
    decreases |w.down[b]|
  {
    hide Inv, Next, Enabled, Tidy, InOrder;
    if w.down[b] == [] {
      steps := [];
    } else {
      var s := Receive(b, 0);
      CanReceive(w, b);
      StepInv(w, s);
      InvShape(w);
      DeliveryGot(w, s);
      ReceiveTakes(w, s);
      var more := Drain(Next(w, s), b);
      steps := [s] + more;
      assert steps[1..] == more;
    }
  }

  lemma ReceiveTakes(w: World, s: Step)
    requires Inv(w) && Enabled(w, s) && s.Receive?
    ensures |Next(w, s).down| == |w.down| && Next(w, s).down[s.backup] == w.down[s.backup][1..]
    ensures Tidy(w) ==> Tidy(Next(w, s))
  {
    hide Fits, Line, Handled, ConnIn, IsIp, TwoLines, Inv;
  }

  function Lengths(chans: seq<seq<string>>): seq<nat> { seq(|chans|, b requires 0 <= b < |chans| => |chans[b]|) }

  /** The primary can always read all the replies. */
  lemma {:induction false} ReadAll(w: World) returns (steps: seq<Step>)
    requires Inv(w)
    ensures IsRun(w, steps) && (forall s :: s in steps ==> Delivers(s))
    ensures var v := After(w, steps);
      Inv(v) && v.sent == w.sent && Got(v) == Got(w) && forall b :: 0 <= b < |v.up| ==> v.up[b] == []
    decreases Sum(Lengths(w.up))
  {
    hide Inv, Next, Enabled, InOrder;
    if forall b :: 0 <= b < |w.up| ==> w.up[b] == [] {
      steps := [];
    } else {
      var b :| 0 <= b < |w.up| && w.up[b] != [];
      var s := Acknowledge(b);
      InvShape(w);
      AcknowledgeTakes(w, b);
      StepInv(w, s);
      DeliveryGot(w, s);
      var more := ReadAll(Next(w, s));
      steps := [s] + more;
      assert steps[1..] == more;
    }
  }

  lemma AcknowledgeTakes(w: World, b: nat)
    requires Shape(w) && b < |w.up| && w.up[b] != []
    ensures Enabled(w, Acknowledge(b))
    ensures Sum(Lengths(Next(w, Acknowledge(b)).up)) < Sum(Lengths(w.up))
  {
    hide ConnIn;
    var v := Next(w, Acknowledge(b));
    assert Lengths(v.up) == Lengths(w.up)[b := |w.up[b]| - 1];
    SumUpdate(Lengths(w.up), b, |w.up[b]| - 1);
  }

  /** With a set appended while an earlier one is not, and all replies read, the client has
      been told too much. */
  lemma Overtaken(w: World, c: nat, i: nat, j: nat)
    requires Inv(w) && forall b :: 0 <= b < |w.up| ==> w.up[b] == []
    requires i < j < |w.sent| && w.sent[i].conn == c && w.sent[j].conn == c
    requires !Done(w.sent, Got(w), i) && Done(w.sent, Got(w), j)
    ensures !InTurn(w, c)
  {
    hide Inv, Done;
    var n := |w.sent|;
    var k: nat := i;
    while exists h :: 0 <= h < k && w.sent[h].conn == c && !Done(w.sent, Got(w), h)
      invariant k <= i && w.sent[k].conn == c && !Done(w.sent, Got(w), k)
      decreases k
    {
      var k0 := k;
      k :| k < k0 && w.sent[k].conn == c && !Done(w.sent, Got(w), k);
    }
    StoredIsDone(w, c);
    assert w.sent[..n] == w.sent;
    DoneUpTo(w.sent, Got(w), c, k);
    DoneFrom(w.sent, Got(w), c, k, n);
  }

  /** Whatever the order in which messages now arrive, the k-th STORED never comes before
      connection c's k-th set is appended: if and only if no set of c is appended before an
      earlier one and those not appended all wait for the same backup. */
  ghost predicate Robust(w: World, c: nat) {
    forall steps :: IsRun(w, steps) && (forall s :: s in steps ==> Delivers(s)) ==> InTurn(After(w, steps), c)
  }

  lemma {:induction false} DeliveriesPolite(w: World, steps: seq<Step>, c: nat)
    requires IsRun(w, steps) && forall s :: s in steps ==> Delivers(s)
    ensures AllPolite(w, steps, c)
    decreases |steps|
  {
    hide Next, Enabled;
    if steps != [] {
      assert forall s :: s in steps[1..] ==> s in steps;
      assert steps[0] in steps;
      DeliveriesPolite(Next(w, steps[0]), steps[1..], c);
    }
  }

  lemma RobustIff(w: World, c: nat)
    requires Inv(w) && Tidy(w)
    ensures Robust(w, c) <==> OneBackup(w.sent, Got(w), c)
  {
    hide Inv, OneBackup, InTurn, IsRun, After;
    if OneBackup(w.sent, Got(w), c) {
      forall steps | IsRun(w, steps) && (forall s :: s in steps ==> Delivers(s)) ensures InTurn(After(w, steps), c) {
        DeliveriesPolite(w, steps, c);
        PoliteRun(w, steps, c);
        OneBackupInTurn(After(w, steps), c);
      }
    } else {
      var steps := Surprise(w, c);
    }
  }

  /** The order that misleads the client: first the later set's backup, then all replies. */
  lemma Surprise(w: World, c: nat) returns (steps: seq<Step>)
    requires Inv(w) && Tidy(w) && !OneBackup(w.sent, Got(w), c)
    ensures IsRun(w, steps) && (forall s :: s in steps ==> Delivers(s)) && !InTurn(After(w, steps), c)
  {
    hide Inv, InTurn, IsRun, After, Tidy, Rank, InOrder;
    var i, j :| 0 <= i < j < |w.sent| && w.sent[i].conn == c && w.sent[j].conn == c && !Done(w.sent, Got(w), i)
      && (Done(w.sent, Got(w), j) || w.sent[j].backup != w.sent[i].backup);
    InvShape(w);
    assert w.sent[j] in w.sent;
    var b := w.sent[j].backup;
    steps := [];
    EmptyRun(w);
    if !Done(w.sent, Got(w), j) {
      steps := Drain(w, b);
      DrainedDone(After(w, steps), j);
    }
    var v := After(w, steps);
    var more := ReadAll(v);
    RunsJoin(w, steps, more);
    Overtaken(After(v, more), c, i, j);
    steps := steps + more;
  }

  lemma EmptyRun(w: World)
    ensures IsRun(w, []) && After(w, []) == w
  {
  }

  lemma DrainedDone(w: World, j: nat)
    requires Inv(w) && j < |w.sent| && w.sent[j].backup < |w.down| && w.down[w.sent[j].backup] == []
    ensures Done(w.sent, Got(w), j)
  {
    var b := w.sent[j].backup;
    assert InOrder(w, b);
    assert w.sent[..j + 1] == w.sent[..j] + [w.sent[j]];
    ToMore(w.sent[..j], w.sent[j], b);
    ToGrows(w.sent, j + 1, |w.sent|, b);
    assert w.sent[..|w.sent|] == w.sent;
  }

  // ----- from the start

  /** One primary with two backups, before anything has happened. */
  function Fresh(ip: string, port: nat): World {
    World(ip, port, [[], []], [[], []], [BackupLog.Log(None, []), BackupLog.Log(None, [])], [], [], [[], []], [0, 0])
  }

  /** An item that is sent and logged as it was meant. */
  predicate Clean(it: Bytes, ip: string, port: nat) {
    && it.gap == '\0' && '\0' !in it.key && '\0' !in it.value && '\n' !in it.key && '\n' !in it.value
    && it.behind == "" && Short(it.key, it.value, "", ip, port)
  }

  /** A client sends two sets at once, for keys that hash to different backups: there is an
      order of events in which it is told that the first is safe when it is not. */
  lemma TwoAreTooMany(a: Bytes, b: Bytes, c: nat) returns (w: World, steps: seq<Step>)
    requires c > 0 && Clean(a, "10.0.0.1", 11211) && Clean(b, "10.0.0.1", 11211)
    requires HashOf(a.key) % 2 != HashOf(b.key) % 2
    ensures Initial(w) && |w.down| == 2 && IsRun(w, steps) && Set(c, a) in steps && Set(c, b) in steps
    ensures !InTurn(After(w, steps), c)
  {
    hide Clean, CanSend, Straight, Initial, HashOf, Next, Enabled, Tidy, InTurn, OneBackup, CommandOf;
    w := Fresh("10.0.0.1", 11211);
    FreshIs("10.0.0.1", 11211);
    var sets := [Set(c, a), Set(c, b)];
    CleanFits(a, "10.0.0.1", 11211);
    CleanFits(b, "10.0.0.1", 11211);
    var v := TwoSets(w, a, b, c);
    InitialLogs(w);
    RunInv(w, sets);
    TwoSplit(v, a, b, c);
    var more := Surprise(v, c);
    RunsJoin(w, sets, more);
    steps := sets + more;
    assert steps[0] == Set(c, a) && steps[1] == Set(c, b);
  }

  lemma FreshIs(ip: string, port: nat)
    ensures var w := Fresh(ip, port); Initial(w) && |w.down| == 2 && Got(w) == [0, 0]
  {
  }

  /** Its command is two lines that fit the buffers. */
  predicate Straight(it: Bytes, ip: string, port: nat) {
    Ended(CommandOf(it)) && Newlines(CommandOf(it)) == 2 && Fits(CommandOf(it), ip, port)
  }

  lemma CleanFits(it: Bytes, ip: string, port: nat)
    requires Clean(it, ip, port)
    ensures CanSend(it) && Straight(it, ip, port)
  {
    hide Meant, Sendable, Fits, Short, SetText, Newlines, Ended;
    SetTextIs(it.key, it.flags, it.value, it.behind);
    assert CString("") == "" by { NoNul(""); }
    assert Meant(it.key, it.value) + "" == Meant(it.key, it.value);
    MeantLines(it.key, it.value);
    ShortMeans(it.key, it.value, "", ip, port);
  }

  /** Where the two sets go. */
  ghost predicate TwoSent(v: World, w: World, a: Bytes, b: Bytes, c: nat)
    requires w.down != []
  {
    && v.ip == w.ip && v.port == w.port && Got(v) == Got(w)
    && v.sent == [Sent(c, BackupOf(w, a), CommandOf(a)), Sent(c, BackupOf(w, b), CommandOf(b))]
  }

  lemma TwoSets(w: World, a: Bytes, b: Bytes, c: nat) returns (v: World)
    requires Initial(w) && w.down != [] && c > 0 && CanSend(a) && CanSend(b)
    ensures var sets := [Set(c, a), Set(c, b)]; IsRun(w, sets) && v == After(w, sets) && TwoSent(v, w, a, b, c)
  {
    hide CommandOf, Request, Message, HashOf, CanSend;
    var sets := [Set(c, a), Set(c, b)];
    var u := Next(w, sets[0]);
    assert sets[1..] == [sets[1]] && [sets[1]][1..] == [];
    assert IsRun(u, [sets[1]]);
    v := Next(u, sets[1]);
    assert After(u, [sets[1]]) == v;
  }

  lemma TwoSplit(v: World, a: Bytes, b: Bytes, c: nat)
    requires var w := Fresh("10.0.0.1", 11211); TwoSent(v, w, a, b, c)
    requires HashOf(a.key) % 2 != HashOf(b.key) % 2
    requires Straight(a, "10.0.0.1", 11211) && Straight(b, "10.0.0.1", 11211)
    ensures Tidy(v) && !OneBackup(v.sent, Got(v), c)
  {
    hide CommandOf, HashOf, Fits, Newlines, Ended;
    FreshIs("10.0.0.1", 11211);
    var sent := v.sent;
    assert sent[..0] == [];
    assert !Done(sent, Got(v), 0) && sent[0].conn == sent[1].conn == c;
  }
}
