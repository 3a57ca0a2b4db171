/** The log a backup keeps (Segment.c): a segment in memory, a list of seglets with a tail
    pointer, that is written to a file once it has grown past its capacity. */
module BackupLog {
  import opened Decimal
  import opened Seqs
  import opened Wire

  const MAX_SEGMENT_CAPACITY: nat := 1024 * 1024

  // ----- specification

  datatype Live = Live(ip: string, port: int, commands: seq<string>)

  /** A struct as fwrite stores it. */
  datatype Record =
    | Header(ip: string, port: int, segletnum: int, capacity: int)
    | Let(length: nat)
    | Obj(command: string)

  datatype File = File(dir: string, name: string, records: seq<Record>)

  datatype Log = Log(live: Option<Live>, files: seq<File>)

  function Bytes(commands: seq<string>): nat {
    if commands == [] then 0 else Bytes(commands[..|commands| - 1]) + |commands[|commands| - 1]|
  }

  /** The field header.capacity. */
  function Room(commands: seq<string>): int { MAX_SEGMENT_CAPACITY - Bytes(commands) }

  lemma RoomMore(commands: seq<string>, c: string)
    ensures Room(commands + [c]) == Room(commands) - |c|
    ensures Room([c]) == MAX_SEGMENT_CAPACITY - |c|
  {
    assert (commands + [c])[..|commands|] == commands;
    assert [] + [c] == [c] && [c][..0] == [];
    assert Bytes([c]) == Bytes([c][..0]) + |c|;
  }

  function Lets(commands: seq<string>): (r: seq<Record>)
    ensures |r| == 2 * |commands|
    ensures forall k :: 0 <= k < |commands| ==> r[2 * k] == Let(|commands[k]|) && r[2 * k + 1] == Obj(commands[k])
  {
    if commands == [] then [] else
      var last := commands[|commands| - 1];
      Lets(commands[..|commands| - 1]) + [Let(|last|), Obj(last)]
  }

  function Records(l: Live): seq<Record> {
    [Header(l.ip, l.port, |l.commands|, Room(l.commands))] + Lets(l.commands)
  }

  function DirName(ip: string, port: int): string { ip + "." + Signed(port) }

  function FileName(n: nat, t: nat): string { Digits(n) + "." + Digits(t) + ".ram" }

  function FileOf(l: Live, now: nat): File {
    File(DirName(l.ip, l.port), FileName(|l.commands|, now), Records(l))
  }

  /** Where a file of that name is, |files| if nowhere. */
  function Position(files: seq<File>, f: File): (i: nat)
    ensures i <= |files|
    ensures i < |files| ==> files[i].dir == f.dir && files[i].name == f.name
    ensures i == |files| ==> forall k :: 0 <= k < |files| ==> files[k].dir != f.dir || files[k].name != f.name
  {
    if files == [] then 0
    else if files[0].dir == f.dir && files[0].name == f.name then 0
    else 1 + Position(files[1..], f)
  }

  /** Opening with "wb": an existing file of the name loses its contents. */
  function Written(files: seq<File>, f: File): seq<File> {
    var i := Position(files, f);
    if i < |files| then files[i := f] else files + [f]
  }

  predicate FromMaster(live: Option<Live>, ip: string, port: int) {
    live.Some? && live.value.ip == ip && live.value.port == port
  }

  function Added(live: Option<Live>, ip: string, port: int, command: string): Live {
    if FromMaster(live, ip, port) then live.value.(commands := live.value.commands + [command])
    else Live(ip, port, [command])
  }

  function Flushed(log: Log, now: nat): Log {
    if log.live.Some? && Room(log.live.value.commands) < 0
    then Log(None, Written(log.files, FileOf(log.live.value, now)))
    else log
  }

  /** One command from the master at ip:port. */
  function Append(log: Log, ip: string, port: int, command: string, now: nat): Log {
    Flushed(log.(live := Some(Added(log.live, ip, port, command))), now)
  }

  /** All the commands read out of one request.  From the second on the source takes it
      for granted that the segment is still there: false if it follows a null pointer. */
  function AppendAll(log: Log, ip: string, port: int, pieces: seq<string>, now: nat): (Log, bool) {
    if pieces == [] then (log, true) else
      var n := |pieces| - 1;
      var (l, ok) := AppendAll(log, ip, port, pieces[..n], now);
      if !ok || (n > 0 && l.live.None?) then (l, false)
      else (Append(l, ip, port, pieces[n], now), true)
  }

  /** What a request does to the log.  Where it runs off an end or over a buffer, before
      anything is appended, the backup is lost: false, as for a null pointer. */
  function Taken(log: Log, cont: string, now: nat): (Log, bool) {
    if !Readable(cont) then (log, false)
    else AppendAll(log, IpOf(IpPortOf(cont)), PortOf(IpPortOf(cont)), Pieces(cont), now)
  }

  // ----- the structures

  class Seglet {
    const length: nat
    const command: string
    var next: Seglet?

    /** createSeglet; the object it points to is part of it here. */
    constructor (command: string)
      ensures this.command == command && length == |command| && next == null
    {
      this.command := command;
      length := |command|;
      next := null;
    }
  }

  class Segment {
    var segletnum: int
    var capacity: int
    var ip: string
    var port: int
    var p: Seglet?
    var segleter: Seglet?
    var next: Segment?

    /** createSegment and setHead. */
    constructor (ip: string, port: int)
      ensures this.ip == ip && this.port == port && segletnum == 0 && capacity == MAX_SEGMENT_CAPACITY
      ensures p == null && segleter == null && next == null
    {
      this.ip := ip;
      this.port := port;
      segletnum := 0;
      capacity := MAX_SEGMENT_CAPACITY;
      p := null;
      segleter := null;
      next := null;
    }
  }

  /** A segment and its first seglet. */
  method SegmentWith(ip: string, port: int, command: string) returns (seg: Segment, seglet: Seglet)
    ensures fresh(seg) && fresh(seglet)
    ensures seg.ip == ip && seg.port == port && seg.segletnum == 1 && seg.capacity == MAX_SEGMENT_CAPACITY - |command|
    ensures seg.p == seg.segleter == seglet && seg.next == null
    ensures seglet.command == command && seglet.length == |command| && seglet.next == null
  {
    seg := new Segment(ip, port);
    seglet := new Seglet(command);
    seg.segleter := seglet;
    seg.capacity := seg.capacity - seglet.length;
    seg.segletnum := seg.segletnum + 1;
    seg.p := seglet;
  }

  /** The list that starts at first. */
  ghost predicate Chained(lets: seq<Seglet>, first: Seglet?)
    reads lets
  {
    && (lets == [] ==> first == null)
    && (lets != [] ==> first == lets[0] && lets[|lets| - 1].next == null)
    && (forall i :: 0 <= i < |lets| - 1 ==> lets[i].next == lets[i + 1])
  }

  ghost predicate Spell(lets: seq<Seglet>, commands: seq<string>) {
    |lets| == |commands|
    && forall i :: 0 <= i < |lets| ==> lets[i].command == commands[i] && lets[i].length == |commands[i]|
  }

  class Backup {
    var used: bool
    var segment: Segment?
    var files: seq<File>
    ghost var lets: seq<Seglet>
    ghost var nodes: set<Seglet>
    ghost var commands: seq<string>

    ghost predicate Valid()
      reads this, segment, nodes
    {
      if segment == null then lets == [] && commands == [] else
        && (forall l :: l in lets ==> l in nodes)
        && used && lets != [] && Spell(lets, commands)
        && Chained(lets, segment.segleter) && segment.p == lets[|lets| - 1]
        && segment.segletnum == |lets| && segment.capacity == Room(commands) && segment.next == null
    }

    ghost function View(): Log
      reads this, segment
    {
      Log(if segment == null then None else Some(Live(segment.ip, segment.port, commands)), files)
    }

    /** init_SegmentManager. */
    constructor (files: seq<File>)
      ensures Valid() && View() == Log(None, files)
    {
      used := false;
      segment := null;
      this.files := files;
      lets := [];
      nodes := {};
      commands := [];
    }

    method GetSegment(ip: string, port: int) returns (r: Segment?)
      requires Valid()
      ensures r == if FromMaster(View().live, ip, port) then segment else null
    {
      r := segment;
      while r != null
        invariant r == null || r == segment
        invariant r == null ==> !FromMaster(View().live, ip, port)
        decreases r != null
      {
        if r.ip == ip && r.port == port { return; }
        r := r.next;
      }
    }

    /** getLastSegment stops only behind the last segment, so it always finds none. */
    method GetLastSegment() returns (r: Segment?)
      requires Valid()
      ensures r == null
    {
      r := segment;
      while r != null
        invariant r == null || r == segment
        decreases r != null
      {
        r := r.next;
      }
    }

    method NewSegment(ip: string, port: int, command: string)
      modifies this
      ensures Valid() && files == old(files)
      ensures View().live == Some(Live(ip, port, [command]))
      ensures fresh(segment) && fresh(nodes)
    {
      hide Bytes, Room, Lets, Records;
      RoomMore([], command);
      var seg, seglet := SegmentWith(ip, port, command);
      segment := seg;
      used := true;
      lets := [seglet];
      nodes := {seglet};
      commands := [command];
    }

    /** The command goes behind the tail. */
    method Extend(currSeg: Segment, command: string)
      requires Valid() && currSeg == segment
      modifies this`lets, this`nodes, this`commands, segment, nodes
      ensures Valid() && View().live == Some(old(View()).live.value.(commands := old(commands) + [command]))
      ensures fresh(nodes - old(nodes))
    {
      hide Bytes;
      RoomMore(commands, command);
      var seglet := currSeg.p;
      var added := new Seglet(command);
      seglet.next := added;
      currSeg.capacity := currSeg.capacity - added.length;
      segment.segletnum := segment.segletnum + 1;
      currSeg.p := added;
      lets := lets + [added];
      nodes := nodes + {added};
      commands := commands + [command];
    }

    /** persist: the header, then every seglet with its object, to a file named after the
        count and the time. */
    method Persist(seg: Segment, now: nat)
      requires Valid() && seg == segment
      modifies this`files
      ensures files == Written(old(files), FileOf(View().live.value, now))
    {
      var records := [Header(seg.ip, seg.port, seg.segletnum, seg.capacity)];
      var l := seg.segleter;
      ghost var i := 0;
      while l != null
        invariant i <= |lets| && l == (if i < |lets| then lets[i] else null)
        invariant records == [Header(seg.ip, seg.port, |lets|, Room(commands))] + Lets(commands[..i])
        decreases |lets| - i
      {
        records := records + [Let(l.length), Obj(l.command)];
        assert commands[..i + 1][..i] == commands[..i];
        l := l.next;
        i := i + 1;
      }
      assert commands[..i] == commands;
      files := Written(files, File(DirName(seg.ip, seg.port), FileName(seg.segletnum, now), records));
    }

    /** The walk that persists and drops what is over capacity. */
    method StoreFull(now: nat)
      requires Valid()
      modifies this
      ensures Valid() && View() == Flushed(old(View()), now)
      ensures (segment == old(segment) || segment == null) && nodes == old(nodes)
    {
      var segIterator, isHead := segment, true;
      while segIterator != null
        invariant Valid() && nodes == old(nodes) && (segIterator == null || segIterator == segment == old(segment))
        invariant segIterator != null ==> isHead && View() == old(View())
        invariant segIterator == null
            ==> View() == Flushed(old(View()), now) && (segment != null ==> segment == old(segment))
        decreases segIterator != null
      {
        var temp := segIterator.next;
        if segIterator.capacity < 0 {
          Persist(segIterator, now);
          if isHead {
            segment := temp;
            lets, commands := [], [];
          }
          if temp != null { isHead := false; }
        }
        segIterator := temp;
      }
    }

    /** The branches for the first command of a request. */
    method AppendFirst(ip: string, port: int, command: string, now: nat)
      requires Valid()
      modifies this, segment, nodes
      ensures Valid() && View() == Append(old(View()), ip, port, command, now)
      ensures segment != null ==> segment == old(segment) || fresh(segment)
      ensures fresh(nodes - old(nodes))
    {
      hide Bytes, Room, FileOf, Written, Spell, Chained;
      if !used {
        NewSegment(ip, port, command);
      } else {
        var currSeg := GetSegment(ip, port);
        if currSeg == null {
          var last := GetLastSegment();
          if last == null {
            NewSegment(ip, port, command);
          }
        } else {
          Extend(currSeg, command);
        }
      }
      StoreFull(now);
    }

    /** The branch for the others; false where a null pointer is followed. */
    method AppendLater(ip: string, port: int, command: string, now: nat) returns (ok: bool)
      requires Valid() && (segment != null ==> FromMaster(View().live, ip, port))
      modifies this, segment, nodes
      ensures Valid() && ok == old(View()).live.Some?
      ensures View() == if ok then Append(old(View()), ip, port, command, now) else old(View())
      ensures segment != null ==> segment == old(segment) || fresh(segment)
      ensures fresh(nodes - old(nodes))
    {
      hide Bytes, Room, FileOf, Written, Spell, Chained;
      var currSeg := GetSegment(ip, port);
      if currSeg == null { return false; }
      Extend(currSeg, command);
      StoreFull(now);
      ok := true;
    }

    method AppendPiece(isFirst: bool, ip: string, port: int, command: string, now: nat,
                       ghost v0: Log, ghost pieces: seq<string>)
      returns (ok: bool)
      requires Valid() && isFirst == (pieces == []) && (View(), true) == AppendAll(v0, ip, port, pieces, now)
      modifies this, segment, nodes
      ensures Valid() && (View(), ok) == AppendAll(v0, ip, port, pieces + [command], now)
      ensures segment != null ==> segment == old(segment) || fresh(segment)
      ensures fresh(nodes - old(nodes))
    {
      hide AppendAll, Append;
      AppendedNext(v0, ip, port, pieces, command, now);
      if isFirst {
        AppendFirst(ip, port, command, now);
        ok := true;
      } else {
        SegmentOf(v0, ip, port, pieces, now);
        ok := AppendLater(ip, port, command, now);
      }
    }

    /** appendToSegment.  The scan copies two lines into the buffer, appends them at the
        next character, then skips to behind the second carriage return and starts over.
        A C string has no NUL in it. */
    method AppendToSegment(cont: string, now: nat) returns (ok: bool)
      requires Valid() && '\0' !in cont
      modifies this, segment, nodes
      ensures Valid() && (View(), ok) == Taken(old(View()), cont, now)
    {
      if !Readable(cont) { return false; }
      ok := ScanRequest(cont, now);
    }

    method ScanRequest(cont: string, now: nat) returns (ok: bool)
      requires Valid() && Readable(cont) && '\0' !in cont
      modifies this, segment, nodes
      ensures Valid() && (View(), ok) == Taken(old(View()), cont, now)
    {
      hide Stripped, LastLine, Valid, View, AppendAll, Buffered, Cleared, CString, Number, Readable, IpPortOf,
          IpOf, PortOf, Span, Eol, Scanned, Pieces, Chained, Spell;
      ReadableMeans(cont);
      var command := new char[2048](_ => '\0');
      var ipPort := ParseIpPort(cont);
      var rip := GetIp(ipPort);
      var rport := GetPort(ipPort);
      var length := GetCommandLen(cont, ipPort);
      ghost var v0 := View();
      var flag1, flag2, j, isDone, isFirst := 0, 0, 0, false, true;
      // where the command at hand starts, and how much of the buffer was ever written
      ghost var start, high := 0, 0;
      ghost var st := Scan(0, 0, false, "", []);
      BufferedStart(command[..]);
      AppendedNone(v0, rip, rport, now);
      var i := 0;
      while i <= length
        invariant 0 <= i <= length + 1 && st == Scanned(cont, i)
        invariant st.flag1 == flag1 && st.flag2 == flag2 && st.done == isDone && isFirst == (st.pieces == [])
        invariant isDone ==> !isFirst
        invariant Buffered(command[..], st.text, j, start, high, i)
        invariant Valid() && (View(), true) == AppendAll(v0, rip, rport, st.pieces, now)
        invariant segment != null ==> segment == old(segment) || fresh(segment)
        invariant fresh(nodes - old(nodes))
      {
        ScannedNext(cont, i);
        if flag1 < 2 {
          BufferedPut(command[..], st.text, j, start, high, i, cont[i]);
          ghost var was := command[..];
          command[j] := cont[i];
          assert command[..] == was[j := cont[i]];
          if cont[i] == '\n' { flag1 := flag1 + 1; }
          j := j + 1;
        } else if flag2 < 2 {
          BufferedText(command[..], st.text, j, start, high, i);
          if !isDone {
            var alive := AppendPiece(isFirst, rip, rport, CString(command[..]), now, v0, st.pieces);
            if !alive {
              PiecesGrow(cont, i + 1, length + 1);
              AppendedStuck(v0, rip, rport, st.pieces + [st.text], Pieces(cont), now);
              return false;
            }
          }
          if cont[i] == '\r' { flag2 := flag2 + 1; }
          isDone, isFirst := true, false;
        } else {
          isDone, flag1, flag2 := false, 0, 0;
          BufferedClear(command[..], st.text, j, start, high, i);
          start, high := i + 1, if j > high then j else high;
          j := 0;
          Clear(command, 1024);
        }
        st := Feed(st, cont[i]);
        i := i + 1;
      }
      ok := true;
    }
  }

  /** memset to zero. */
  method Clear(a: array<char>, n: nat)
    requires n <= a.Length
    modifies a
    ensures a[..] == Cleared(old(a[..]), n)
  {
    var k := 0;
    while k < n
      invariant k <= n
      invariant forall j :: 0 <= j < a.Length ==> a[j] == if j < k then '\0' else old(a[j])
    {
      a[k] := '\0';
      k := k + 1;
    }
  }

  function Cleared(a: seq<char>, n: nat): seq<char>
    requires n <= |a|
  {
    seq(n, _ => '\0') + a[n..]
  }

  /** The command buffer after i characters: text is in front, and what may be left of
      longer commands lies before high. */
  ghost predicate Buffered(a: seq<char>, text: string, j: nat, start: nat, high: nat, i: nat) {
    && |a| == 2048 && j == |text| <= 2048 && a[..|text|] == text && '\0' !in text
    && high <= start && start + j <= i
    && (forall k :: j <= k < 1024 ==> a[k] == '\0')
    && (forall k :: j <= k < 2048 && high <= k ==> a[k] == '\0')
  }

  lemma BufferedStart(a: seq<char>)
    requires |a| == 2048 && forall k :: 0 <= k < 2048 ==> a[k] == '\0'
    ensures Buffered(a, "", 0, 0, 0, 0)
  {
  }

  lemma BufferedPut(a: seq<char>, text: string, j: nat, start: nat, high: nat, i: nat, c: char)
    requires Buffered(a, text, j, start, high, i) && i < 2048 && c != '\0'
    ensures j < 2048 && Buffered(a[j := c], text + [c], j + 1, start, high, i + 1)
  {
  }

  /** The buffer reads as a C string. */
  lemma BufferedText(a: seq<char>, text: string, j: nat, start: nat, high: nat, i: nat)
    requires Buffered(a, text, j, start, high, i) && i < 2048
    ensures CString(a) == text
    ensures Buffered(a, text, j, start, high, i + 1)
  {
    forall k | 0 <= k < j ensures NotNul(a[k]) { assert a[..j][k] in text; }
    SpanIs(a, NotNul, j);
  }

  lemma BufferedClear(a: seq<char>, text: string, j: nat, start: nat, high: nat, i: nat)
    requires Buffered(a, text, j, start, high, i)
    ensures Buffered(Cleared(a, 1024), "", 0, i + 1, if j > high then j else high, i + 1)
  {
  }

  lemma ReadableMeans(cont: string)
    requires Readable(cont)
    ensures Stripped(cont) != [] && '\n' in Stripped(cont)
    ensures LastLine(Stripped(cont)) < 2047 && LastLine(Stripped(cont)) < |cont|
    ensures Span(IpPortOf(cont), NotColon) < |IpPortOf(cont)|
    ensures Scanned(cont, 0) == Scan(0, 0, false, "", [])
    ensures Pieces(cont) == Scanned(cont, LastLine(Stripped(cont)) + 1).pieces
  {
    hide Number, Span, Stripped, LastLine, Scanned, Feed, Eol, IpPortOf;
    PiecesScanned(cont);
    LastLineStarts(Stripped(cont));
    assert Scanned(cont, 0) == Scan(0, 0, false, "", []) by { ScannedNone(cont); }
  }

  lemma ScannedNone(cont: string)
    ensures Scanned(cont, 0) == Scan(0, 0, false, "", [])
  {
  }

  lemma ScannedNext(cont: string, i: nat)
    requires i < |cont|
    ensures Scanned(cont, i + 1) == Feed(Scanned(cont, i), cont[i])
  {
  }

  lemma AppendedNone(log: Log, ip: string, port: int, now: nat)
    ensures AppendAll(log, ip, port, [], now) == (log, true)
  {
  }

  lemma AppendedNext(log: Log, ip: string, port: int, pieces: seq<string>, c: string, now: nat)
    requires AppendAll(log, ip, port, pieces, now).1
    ensures var l := AppendAll(log, ip, port, pieces, now).0;
      AppendAll(log, ip, port, pieces + [c], now)
        == if pieces != [] && l.live.None? then (l, false) else (Append(l, ip, port, c, now), true)
  {
    assert (pieces + [c])[..|pieces|] == pieces;
  }

  /** After the first command the segment in memory, if there is one, is the sender's. */
  lemma SegmentOf(log: Log, ip: string, port: int, pieces: seq<string>, now: nat)
    requires pieces != [] && AppendAll(log, ip, port, pieces, now).1
    ensures var l := AppendAll(log, ip, port, pieces, now).0; l.live.Some? ==> FromMaster(l.live, ip, port)
  {
  }

  lemma {:induction false} AppendedStuck(log: Log, ip: string, port: int, pieces: seq<string>, more: seq<string>,
                                         now: nat)
    requires pieces <= more && !AppendAll(log, ip, port, pieces, now).1
    ensures AppendAll(log, ip, port, more, now) == AppendAll(log, ip, port, pieces, now)
    decreases |more|
  {
    if |pieces| == |more| {
      assert pieces == more;
    } else {
      assert pieces <= more[..|more| - 1];
      AppendedStuck(log, ip, port, pieces, more[..|more| - 1], now);
    }
  }

  // ----- reading a file back

  predicate NotDot(c: char) { c != '.' }

  /** The count in front of a file name. */
  function CountOf(name: string): int { Number(name[..Span(name, NotDot)]) }

  /** The next n objects from record k on; a read past the end leaves zeros. */
  function Objects(records: seq<Record>, k: nat, n: nat): seq<string> {
    if n == 0 then [] else Objects(records, k, n - 1) + [ObjectAt(records, k + 2 * n - 1)]
  }

  function ObjectAt(records: seq<Record>, i: nat): string {
    if i < |records| && records[i].Obj? then records[i].command else ""
  }

  /** The commands readFile makes of a file. */
  function Stored(f: File): seq<string> {
    if CountOf(f.name) < 0 then [] else Objects(f.records, 1, CountOf(f.name))
  }

  method GetSegmentLength(name: string) returns (length: int)
    requires Span(name, NotDot) < |name|
    ensures length == CountOf(name)
  {
    length := 0;
    var i := 0;
    assert name[..0] == [];
    while name[i] != '.'
      invariant 0 <= i <= Span(name, NotDot) && length == Number(name[..i])
      decreases |name| - i
    {
      assert name[..i + 1][..i] == name[..i];
      length := length * 10 + (name[i] as int - '0' as int);
      i := i + 1;
    }
  }

  /** readFile: as many seglets as the name says, each with a new object. */
  method ReadFile(f: File) returns (head: Segment, ghost lets: seq<Seglet>)
    requires Span(f.name, NotDot) < |f.name| && CountOf(f.name) >= 0 && f.records != [] && f.records[0].Header?
    ensures Chained(lets, head.segleter) && Spell(lets, Stored(f))
    ensures head.ip == f.records[0].ip && head.port == f.records[0].port
    ensures head.segletnum == f.records[0].segletnum && head.capacity == f.records[0].capacity
  {
    hide Number, Span;
    head := new Segment(f.records[0].ip, f.records[0].port);
    head.segletnum, head.capacity := f.records[0].segletnum, f.records[0].capacity;
    var len := GetSegmentLength(f.name);
    var l: Seglet? := null;
    lets := [];
    var i, at := len, 1;
    while i != 0
      invariant 0 <= i <= len && at == 1 + 2 * |lets| && |lets| == len - i && fresh(head)
      invariant (lets == [] && l == null) || (lets != [] && l == lets[|lets| - 1] && fresh(l))
      invariant Chained(lets, head.segleter) && Spell(lets, Objects(f.records, 1, |lets|))
      invariant head.ip == f.records[0].ip && head.port == f.records[0].port
      invariant head.segletnum == f.records[0].segletnum && head.capacity == f.records[0].capacity
    {
      var seglet := new Seglet(ObjectAt(f.records, at + 1));
      if l == null {
        head.segleter := seglet;
      } else {
        l.next := seglet;
      }
      l := seglet;
      lets := lets + [seglet];
      at := at + 2;
      i := i - 1;
    }
  }

  lemma {:induction false} CountIsKept(l: Live, now: nat)
    ensures CountOf(FileOf(l, now).name) == |l.commands| && Span(FileOf(l, now).name, NotDot) < |FileOf(l, now).name|
  {
    hide Records;
    var d := Digits(|l.commands|);
    var name := FileName(|l.commands|, now);
    assert name == d + ("." + Digits(now) + ".ram");
    forall i | 0 <= i < |d| ensures NotDot(name[i]) { assert name[i] == d[i] && d[i] in d; }
    SpanIs(name, NotDot, |d|);
    assert name[..|d|] == d;
    NumberOfDigits(|l.commands|);
  }

  lemma {:induction false} ObjectsOf(l: Live, n: nat)
    requires n <= |l.commands|
    ensures Objects(Records(l), 1, n) == l.commands[..n]
  {
    if n > 0 {
      ObjectsOf(l, n - 1);
      assert Records(l)[2 * n] == Lets(l.commands)[2 * (n - 1) + 1];
      assert l.commands[..n] == l.commands[..n - 1] + [l.commands[n - 1]];
    }
  }

  /** What persist writes, readFile reads back. */
  lemma ReadsBack(l: Live, now: nat)
    ensures Stored(FileOf(l, now)) == l.commands
  {
    hide FileName, CountOf, Records;
    CountIsKept(l, now);
    ObjectsOf(l, |l.commands|);
    assert l.commands[..|l.commands|] == l.commands;
  }

  // ----- the log over whole runs

  /** Every command on disk, file by file. */
  function OnDisk(files: seq<File>): seq<string> {
    if files == [] then [] else OnDisk(files[..|files| - 1]) + Stored(files[|files| - 1])
  }

  function All(log: Log): seq<string> {
    OnDisk(log.files) + if log.live.Some? then log.live.value.commands else []
  }

  /** The segment in memory never outlives its capacity, a file always exceeds it. */
  ghost predicate LogInv(log: Log) {
    && (log.live.Some? ==> log.live.value.commands != [] && Room(log.live.value.commands) >= 0)
    && (forall f :: f in log.files ==> exists l: Live, t: nat :: f == FileOf(l, t) && Room(l.commands) < 0)
  }

  /** When a command neither pushes another master's segment out of memory nor makes the
      segment overwrite a file. */
  predicate Keeps(log: Log, ip: string, port: int, command: string, now: nat) {
    var l := Added(log.live, ip, port, command);
    && (log.live.None? || FromMaster(log.live, ip, port))
    && (Room(l.commands) >= 0 || Position(log.files, FileOf(l, now)) == |log.files|)
  }

  lemma {:induction false} OnDiskReplaced(files: seq<File>, i: nat, f: File)
    requires i < |files|
    ensures |OnDisk(files[i := f])| == |OnDisk(files)| - |Stored(files[i])| + |Stored(f)|
    decreases |files|
  {
    hide Stored;
    var n := |files| - 1;
    if i < n {
      OnDiskReplaced(files[..n], i, f);
      assert files[i := f][..n] == files[..n][i := f];
    } else {
      assert files[i := f][..n] == files[..n];
    }
  }

  lemma WrittenMeans(files: seq<File>, f: File)
    ensures var i := Position(files, f);
      && (i == |files| ==> OnDisk(Written(files, f)) == OnDisk(files) + Stored(f))
      && (i < |files| ==> |OnDisk(Written(files, f))| == |OnDisk(files)| - |Stored(files[i])| + |Stored(f)|)
    ensures forall g :: g in Written(files, f) ==> g in files || g == f
  {
    hide Stored;
    var i := Position(files, f);
    if i < |files| {
      OnDiskReplaced(files, i, f);
    } else {
      assert (files + [f])[..|files|] == files;
    }
  }

  /** A file of the same name has the same count. */
  lemma SameCount(log: Log, l: Live, now: nat)
    requires LogInv(log) && Position(log.files, FileOf(l, now)) < |log.files|
    ensures |Stored(log.files[Position(log.files, FileOf(l, now))])| == |l.commands|
  {
    hide Room, Stored;
    var f := log.files[Position(log.files, FileOf(l, now))];
    assert f in log.files;
    var m: Live, t: nat :| f == FileOf(m, t);
    ReadsBack(m, t);
    CountIsKept(m, t);
    CountIsKept(l, now);
  }

  /** A command is added to the end of all that is kept, and nothing else happens, if and
      only if the condition above holds; otherwise commands are lost. */
  lemma AppendKeeps(log: Log, ip: string, port: int, command: string, now: nat)
    requires LogInv(log)
    ensures var next := Append(log, ip, port, command, now);
      && LogInv(next)
      && (All(next) == All(log) + [command] <==> Keeps(log, ip, port, command, now))
      && |All(next)| <= |All(log)| + 1
      && (|All(next)| == |All(log)| + 1 ==> Keeps(log, ip, port, command, now))
  {
    hide Bytes, Records, FileName, DirName, Stored, Position, Written;
    var l := Added(log.live, ip, port, command);
    if Room(l.commands) < 0 {
      var f := FileOf(l, now);
      ReadsBack(l, now);
      WrittenMeans(log.files, f);
      if Position(log.files, f) < |log.files| { SameCount(log, l, now); }
    }
  }

  datatype Put = Put(ip: string, port: int, command: string, now: nat)

  function Run(log: Log, puts: seq<Put>): Log {
    if puts == [] then log else
      var n := |puts| - 1;
      Append(Run(log, puts[..n]), puts[n].ip, puts[n].port, puts[n].command, puts[n].now)
  }

  function Commands(puts: seq<Put>): seq<string> {
    if puts == [] then [] else Commands(puts[..|puts| - 1]) + [puts[|puts| - 1].command]
  }

  ghost predicate KeptThroughout(log: Log, puts: seq<Put>) {
    forall i :: 0 <= i < |puts| ==> Keeps(Run(log, puts[..i]), puts[i].ip, puts[i].port, puts[i].command, puts[i].now)
  }

  lemma KeptBefore(log: Log, puts: seq<Put>)
    requires puts != []
    ensures var n := |puts| - 1;
      KeptThroughout(log, puts) <==>
        KeptThroughout(log, puts[..n])
            && Keeps(Run(log, puts[..n]), puts[n].ip, puts[n].port, puts[n].command, puts[n].now)
  {
    hide Keeps, Run;
    var n := |puts| - 1;
    assert forall i :: 0 <= i <= n ==> puts[..n][..i] == puts[..i];
  }

  lemma {:induction false} CommandsCount(puts: seq<Put>)
    ensures |Commands(puts)| == |puts|
  {
    if puts != [] { CommandsCount(puts[..|puts| - 1]); }
  }

  /** What was persisted, in order, and the segment in memory are together all that was
      received, if and only if no step lost anything: later steps never make up for it. */
  lemma {:induction false} RunKeeps(log: Log, puts: seq<Put>)
    requires LogInv(log)
    ensures LogInv(Run(log, puts)) && |All(Run(log, puts))| <= |All(log)| + |puts|
    ensures All(Run(log, puts)) == All(log) + Commands(puts) <==> KeptThroughout(log, puts)
    ensures |All(Run(log, puts))| == |All(log)| + |puts| ==> KeptThroughout(log, puts)
  {
    hide LogInv, All, Append, Keeps;
    if puts == [] {
      assert All(log) + [] == All(log);
    } else {
      hide KeptThroughout;
      var n := |puts| - 1;
      var before := Run(log, puts[..n]);
      RunKeeps(log, puts[..n]);
      KeptBefore(log, puts);
      CommandsCount(puts);
      AppendKeeps(before, puts[n].ip, puts[n].port, puts[n].command, puts[n].now);
      assert All(log) + Commands(puts) == All(log) + Commands(puts[..n]) + [puts[n].command];
    }
  }

  /** With one master the segment in memory is never pushed out. */
  lemma {:induction false} OneMaster(log: Log, puts: seq<Put>, ip: string, port: int)
    requires log.live.None? || FromMaster(log.live, ip, port)
    requires forall p :: p in puts ==> p.ip == ip && p.port == port
    ensures Run(log, puts).live.None? || FromMaster(Run(log, puts).live, ip, port)
  {
    if puts != [] {
      assert forall p :: p in puts[..|puts| - 1] ==> p in puts;
      OneMaster(log, puts[..|puts| - 1], ip, port);
      assert puts[|puts| - 1] in puts;
    }
  }

  /** No segment is written under the name of an earlier file. */
  ghost predicate NewNames(log: Log, puts: seq<Put>) {
    forall i :: 0 <= i < |puts| ==> NewName(Run(log, puts[..i]), puts[i])
  }

  predicate NewName(log: Log, p: Put) {
    var l := Added(log.live, p.ip, p.port, p.command);
    Room(l.commands) >= 0 || Position(log.files, FileOf(l, p.now)) == |log.files|
  }

  /** With one master the log is all that was received if and only if no file is written over. */
  lemma OneMasterKeeps(puts: seq<Put>, ip: string, port: int)
    requires forall p :: p in puts ==> p.ip == ip && p.port == port
    ensures var empty := Log(None, []); All(Run(empty, puts)) == Commands(puts) <==> NewNames(empty, puts)
  {
    hide All, Run, Commands, NewName, FromMaster;
    var empty := Log(None, []);
    forall i | 0 <= i < |puts|
      ensures Keeps(Run(empty, puts[..i]), puts[i].ip, puts[i].port, puts[i].command, puts[i].now)
        <==> NewName(Run(empty, puts[..i]), puts[i])
    {
      assert forall p :: p in puts[..i] ==> p in puts;
      assert puts[i] in puts;
      OneMaster(empty, puts[..i], ip, port);
      KeepsMeans(Run(empty, puts[..i]), puts[i]);
    }
    EmptyLog();
    RunKeeps(empty, puts);
    assert [] + Commands(puts) == Commands(puts);
  }

  lemma KeepsMeans(log: Log, p: Put)
    requires log.live.None? || FromMaster(log.live, p.ip, p.port)
    ensures Keeps(log, p.ip, p.port, p.command, p.now) <==> NewName(log, p)
  {
  }

  lemma EmptyLog()
    ensures LogInv(Log(None, [])) && All(Log(None, [])) == []
  {
  }

  lemma LastAt(a: string, d: string, c: char)
    requires c !in d
    ensures var s := a + [c] + d;
      s[|a|] == c && (forall k :: |a| < k < |s| ==> s[k] != c) && a == s[..|a|] && d == s[|a| + 1..]
  {
    var s := a + [c] + d;
    forall k | |a| < k < |s| ensures s[k] != c { assert s[k] == d[k - |a| - 1]; }
  }

  /** Equal text around a separator that the ends do not contain. */
  lemma SplitAtLast(a: string, d: string, b: string, e: string, c: char)
    requires a + [c] + d == b + [c] + e && c !in d && c !in e
    ensures a == b && d == e
  {
    LastAt(a, d, c);
    LastAt(b, e, c);
    assert |a| == |b|;
  }

  lemma DigitsDiffer(m: nat, n: nat)
    ensures Digits(m) == Digits(n) ==> m == n
    ensures Signed(0 - m) == Signed(0 - n) ==> m == n
    ensures m > 0 ==> Signed(0 - m) != Signed(n)
  {
    ValueOfDigits(m);
    ValueOfDigits(n);
    assert ("-" + Digits(m))[1..] == Digits(m) && ("-" + Digits(n))[1..] == Digits(n);
    assert ("-" + Digits(m))[0] == '-' && Digits(n)[0] in Digits(n) && Digits(m)[0] in Digits(m);
  }

  lemma SignedDiffer(i: int, j: int)
    requires Signed(i) == Signed(j)
    ensures i == j
  {
    if i < 0 && j < 0 { DigitsDiffer(-i, -j); }
    else if i < 0 { DigitsDiffer(-i, j); }
    else if j < 0 { DigitsDiffer(-j, i); }
    else { DigitsDiffer(i, j); }
  }

  lemma SignedNoDot(i: int)
    ensures '.' !in Signed(i)
  {
    if i < 0 { assert forall c :: c in Digits(-i) ==> IsDigit(c); }
    else { assert forall c :: c in Digits(i) ==> IsDigit(c); }
  }

  /** Two segments go to the same file if and only if they belong to the same master and
      have the same number of commands and are written in the same second. */
  lemma SameFile(l: Live, t: nat, m: Live, u: nat)
    ensures FileOf(l, t).dir == FileOf(m, u).dir && FileOf(l, t).name == FileOf(m, u).name
      <==> l.ip == m.ip && l.port == m.port && |l.commands| == |m.commands| && t == u
  {
    hide Records, Digits, Signed;
    var (f, g) := (FileOf(l, t), FileOf(m, u));
    if f.dir == g.dir {
      SignedNoDot(l.port);
      SignedNoDot(m.port);
      SplitAtLast(l.ip, Signed(l.port), m.ip, Signed(m.port), '.');
      SignedDiffer(l.port, m.port);
    }
    if f.name == g.name {
      var (a, b) := (Digits(|l.commands|), Digits(|m.commands|));
      var (c, d) := (Digits(t), Digits(u));
      assert f.name == (a + "." + c) + ['.'] + "ram" && g.name == (b + "." + d) + ['.'] + "ram";
      SplitAtLast(a + "." + c, "ram", b + "." + d, "ram", '.');
      SplitAtLast(a, c, b, d, '.');
      DigitsDiffer(|l.commands|, |m.commands|);
      DigitsDiffer(t, u);
    }
  }

  /** A set that is sent and arrives as it was meant is one step of the log, for its sender. */
  lemma SetIsAppended(log: Log, key: string, gap: char, flags: int, value: string, behind: string, ip: string,
                      port: nat, now: nat)
    requires IsIp(ip) && '\0' !in key
    requires gap == '\0' && '\0' !in value && '\n' !in key && '\n' !in value && Harmless(CString(behind))
    requires Short(key, value, CString(behind), ip, port)
    ensures var text := SetText(key, gap, flags, value, behind);
      && Sendable(text, |value|)
      && Taken(log, Message(text, ip, port), now) == (Append(log, ip, port, Meant(key, value), now), true)
  {
    hide IpOf, PortOf, IpPortOf, Pieces, Stripped, Append, SetText, Meant, Message, Harmless, Tail, Readable, Sendable,
        Short;
    var c := Meant(key, value);
    SetRecovered(key, gap, flags, value, behind, ip, port);
    TailRead(ip, port);
    AppendedNone(log, ip, port, now);
    AppendedNext(log, ip, port, [], c, now);
    assert [] + [c] == [c];
  }

  // ----- how commands are lost

  /** A second master's first command pushes the segment of the first out of memory. */
  lemma SecondMasterLoses(p: Put, q: Put)
    requires p.ip != q.ip || p.port != q.port
    requires |p.command| <= MAX_SEGMENT_CAPACITY && |q.command| <= MAX_SEGMENT_CAPACITY
    ensures All(Run(Log(None, []), [p, q])) == [q.command]
  {
    RoomMore([], p.command);
    RoomMore([], q.command);
    assert [p, q][..1] == [p] && [p][..0] == [];
    assert Run(Log(None, []), [p]) == Log(Some(Live(p.ip, p.port, [p.command])), []);
    assert Run(Log(None, []), [p, q]) == Log(Some(Live(q.ip, q.port, [q.command])), []);
  }

  function Copies<T>(x: T, n: nat): (r: seq<T>)
    ensures |r| == n
  {
    seq(n, _ => x)
  }

  lemma CopiesLast<T>(x: T, n: nat)
    requires n > 0
    ensures Copies(x, n)[..n - 1] == Copies(x, n - 1) && Copies(x, n - 1) + [x] == Copies(x, n)
  {
  }

  lemma {:induction false} CopiesBytes(c: string, n: nat)
    ensures Bytes(Copies(c, n)) == n * |c|
  {
    if n > 0 {
      CopiesLast(c, n);
      CopiesBytes(c, n - 1);
      assert n * |c| == (n - 1) * |c| + |c|;
    }
  }

  /** A master that sends commands of 2000 characters has 524 of them in memory. */
  lemma {:induction false} Filling(files: seq<File>, p: Put, n: nat)
    requires |p.command| == 2000 && 0 < n <= 524
    ensures Run(Log(None, files), Copies(p, n)) == Log(Some(Live(p.ip, p.port, Copies(p.command, n))), files)
  {
    CopiesLast(p, n);
    CopiesLast(p.command, n);
    CopiesBytes(p.command, n);
    if n > 1 {
      Filling(files, p, n - 1);
    } else {
      assert Run(Log(None, files), Copies(p, 0)) == Log(None, files);
      assert Copies(p.command, 1) == [p.command];
    }
  }

  /** With the 525th the segment is written out. */
  lemma Filled(files: seq<File>, p: Put)
    requires |p.command| == 2000
    ensures Run(Log(None, files), Copies(p, 525))
      == Log(None, Written(files, FileOf(Live(p.ip, p.port, Copies(p.command, 525)), p.now)))
  {
    hide Written, FileOf;
    Filling(files, p, 524);
    CopiesLast(p, 525);
    CopiesLast(p.command, 525);
    CopiesBytes(p.command, 525);
  }

  lemma {:induction false} RunJoin(log: Log, a: seq<Put>, b: seq<Put>)
    ensures Run(log, a + b) == Run(Run(log, a), b)
    decreases |b|
  {
    hide Append;
    if b == [] {
      assert a + b == a;
    } else {
      assert (a + b)[..|a + b| - 1] == a + b[..|b| - 1];
      RunJoin(log, a, b[..|b| - 1]);
    }
  }

  /** Two segments of as many commands written in one second have one file: of 1050 commands
      only 525 are kept. */
  lemma SameSecondLoses(p: Put)
    requires |p.command| == 2000
    ensures |Commands(Copies(p, 525) + Copies(p, 525))| == 1050
    ensures All(Run(Log(None, []), Copies(p, 525) + Copies(p, 525))) == Copies(p.command, 525)
  {
    hide Append, Run, FileName, Records, DirName, Stored;
    var l := Live(p.ip, p.port, Copies(p.command, 525));
    var f := FileOf(l, p.now);
    RunJoin(Log(None, []), Copies(p, 525), Copies(p, 525));
    Filled([], p);
    Filled([f], p);
    assert Written([], f) == [f] && Written([f], f) == [f];
    ReadsBack(l, p.now);
    assert [f][..0] == [];
    assert OnDisk([f]) == [] + Stored(f) == Stored(f);
    assert OnDisk([f]) + [] == OnDisk([f]);
    CommandsCount(Copies(p, 525) + Copies(p, 525));
  }
}
