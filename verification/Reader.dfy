/** Reading a connection (memcached.c): the input buffer, command lines, bodies read into
    an item or in place, and bodies thrown away, for every way the network may cut the
    stream into pieces. */
module Reader {
  import opened Octets
  import opened Seqs

  const LF: Byte := 10
  const CR: Byte := 13

  /** The n elements of a from `at` on. */
  function Window(a: seq<Byte>, at: nat, n: nat): (w: seq<Byte>)
    requires at + n <= |a|
    ensures |w| == n
  {
    a[at..at + n]
  }

  /** How much a read returns that was offered `room` bytes: `cut` is up to the network. */
  function ReadCount(cut: nat, room: nat, sock: seq<Byte>): nat {
    if cut <= room && cut <= |sock| then cut else if room <= |sock| then room else |sock|
  }

  /** A body being read: the memory it goes to, where the next byte goes, how many are
      wanted, and the stream they come from. */
  datatype Shot = Taking(memory: seq<Byte>, at: nat, want: nat, stream: seq<Byte>)

  /** Bytes of the stream have gone to memory, in order and nowhere else, and the rest of the
      stream is still to come. */
  ghost predicate Delivered(a: Shot, b: Shot) {
    && a.at + a.want <= |a.memory| && a.at <= b.at && b.at + b.want == a.at + a.want
    && b.at - a.at <= |a.stream|
    && b.memory == Put(a.memory, a.at, a.stream[..b.at - a.at])
    && b.stream == a.stream[b.at - a.at..]
  }

  lemma DeliveredNothing(a: Shot)
    requires a.at + a.want <= |a.memory|
    ensures Delivered(a, a)
  {
    Untouched(a.memory, a.stream, a.at);
  }

  lemma DeliveredOn(a: Shot, b: Shot, c: Shot)
    requires Delivered(a, b) && Delivered(b, c)
    ensures Delivered(a, c)
  {
    PutPut(a.memory, a.at, a.stream, b.at - a.at, c.at - b.at);
  }

  lemma DeliveredFacts(a: Shot, b: Shot)
    requires Delivered(a, b)
    ensures b.want <= a.want && |b.stream| == |a.stream| - (a.want - b.want)
  {
  }

  /** What a complete body and the rest of the stream are depends on the stream alone, not on
      how it was cut. */
  lemma SplitDoesNotMatter(a: Shot, b: Shot, c: Shot)
    requires Delivered(a, b) && Delivered(a, c) && b.want == c.want
    ensures b == c
    ensures b.want == 0 ==> b.memory[a.at..a.at + a.want] == a.stream[..a.want] && b.stream == a.stream[a.want..]
  {
  }

  class Input {
    var rbuf: array<Byte>
    var rcurr: nat          // offsets into rbuf
    var rbytes: nat
    var dst: array<Byte>    // what ritem points into
    var ritem: nat
    var rlbytes: nat
    var sbytes: nat
    var sock: seq<Byte>     // what the peer has sent and nobody has read yet

    ghost predicate Valid()
      reads this
    {
      rcurr + rbytes <= rbuf.Length && rbuf.Length > 0
    }

    /** Everything that is still to be parsed, read or not. */
    ghost function Stream(): seq<Byte>
      reads this, rbuf
      requires Valid()
    {
      Window(rbuf[..], rcurr, rbytes) + sock
    }

    /** Room for the body: outside the input buffer, or in it right where the cursor is. */
    ghost predicate Nread()
      reads this
    {
      Valid() && ritem + rlbytes <= dst.Length && (dst == rbuf ==> ritem == rcurr)
    }

    constructor (sock: seq<Byte>)
      ensures Valid() && Stream() == sock && fresh(rbuf)
    {
      var b := new Byte[2048](_ => 0);
      rbuf, dst := b, b;
      rcurr, rbytes, ritem, rlbytes, sbytes := 0, 0, 0, 0, 0;
      this.sock := sock;
    }

    ghost function Shot(): Shot
      reads this, dst, rbuf
      requires Nread()
    {
      Taking(dst[..], ritem, rlbytes, Stream())
    }

    /** One turn of conn_nread. */
    method ConnNread(cut: nat) returns (complete: bool)
      requires Nread()
      modifies this, dst
      ensures Nread() && dst == old(dst) && rbuf == old(rbuf) && sbytes == old(sbytes)
      ensures Delivered(old(Shot()), Shot())
      ensures complete <==> old(rlbytes) == 0
      ensures cut > 0 && old(rlbytes) > 0 && old(Stream()) != [] ==> rlbytes < old(rlbytes)
    {
      hide Delivered;
      ghost var a := Shot();
      DeliveredNothing(a);
      complete := rlbytes == 0;
      if rlbytes > 0 && rbytes > 0 { Leftovers(); }
      if rlbytes > 0 {
        ghost var b := Shot();
        DeliveredFacts(a, b);
        ReadBody(cut);
        DeliveredOn(a, b, Shot());
        DeliveredFacts(b, Shot());
      }
    }

    /** What is left in the input buffer is used first. */
    method Leftovers()
      requires Nread() && rbytes > 0 && rlbytes > 0
      modifies this, dst
      ensures Nread() && dst == old(dst) && rbuf == old(rbuf) && sbytes == old(sbytes) && sock == old(sock)
      ensures Delivered(old(Shot()), Shot())
      ensures rlbytes < old(rlbytes) && (rlbytes == 0 || rbytes == 0)
    {
      hide Put, Window;
      var tocopy := if rbytes > rlbytes then rlbytes else rbytes;
      StreamSplit(rbuf[..], rcurr, rbytes, tocopy, sock);
      CopyOut(tocopy);
      ritem := ritem + tocopy;
      rlbytes := rlbytes - tocopy;
      rcurr := rcurr + tocopy;
      rbytes := rbytes - tocopy;
    }

    /** The memmove, which is left out when the bytes already are where they belong. */
    method CopyOut(n: nat)
      requires Nread() && n <= rbytes && n <= rlbytes
      modifies dst
      ensures rbuf[..] == old(rbuf[..])
      ensures dst[..] == Put(old(dst[..]), ritem, Window(old(rbuf[..]), rcurr, n))
    {
      if !(dst == rbuf && ritem == rcurr) {
        assert rbuf != dst;
        MemMove(dst, ritem, rbuf, rcurr, n);
      } else {
        InPlace(dst[..], ritem, n);
      }
    }

    /** read(c->sfd, c->ritem, c->rlbytes) and what follows. */
    method ReadBody(cut: nat)
      requires Nread() && rbytes == 0 && rlbytes > 0
      modifies this, dst
      ensures Nread() && dst == old(dst) && rbuf == old(rbuf) && sbytes == old(sbytes)
      ensures Delivered(old(Shot()), Shot())
      ensures cut > 0 && old(Stream()) != [] ==> rlbytes < old(rlbytes)
    {
      hide Put, Window;
      NothingBuffered(rbuf[..], rcurr, sock);
      var res := ReadCount(cut, rlbytes, sock);
      Store(dst, ritem, sock[..res]);
      if dst == rbuf && rcurr == ritem { rcurr := rcurr + res; }
      ritem := ritem + res;
      rlbytes := rlbytes - res;
      sock := sock[res..];
      NothingBuffered(rbuf[..], rcurr, sock);
    }

    /** A whole body, however the stream is cut: it is complete as soon as the peer has sent
        enough and the network has delivered often enough. */
    method ReadWholeBody(cuts: seq<nat>)
      requires Nread() && forall c :: c in cuts ==> c > 0
      modifies this, dst
      ensures Nread() && dst == old(dst) && rbuf == old(rbuf) && sbytes == old(sbytes)
      ensures Delivered(old(Shot()), Shot())
      ensures |cuts| >= old(rlbytes) && |old(Stream())| >= old(rlbytes) ==> rlbytes == 0
    {
      hide Delivered;
      ghost var a := Shot();
      DeliveredNothing(a);
      var i := 0;
      while i < |cuts|
        invariant i <= |cuts| && Nread() && dst == old(dst) && rbuf == old(rbuf) && sbytes == old(sbytes)
        invariant Delivered(a, Shot())
        invariant |a.stream| >= a.want ==> rlbytes == 0 || rlbytes + i <= a.want
      {
        ghost var b := Shot();
        assert cuts[i] in cuts;
        DeliveredFacts(a, b);
        var complete := ConnNread(cuts[i]);
        DeliveredFacts(b, Shot());
        DeliveredOn(a, b, Shot());
        i := i + 1;
      }
    }

    // ----- bodies nobody wants

    /** One turn of conn_swallow. */
    method ConnSwallow(cut: nat) returns (complete: bool)
      requires Valid()
      modifies this, rbuf
      ensures Valid() && rbuf == old(rbuf)
      ensures complete <==> old(sbytes) == 0
      ensures 0 <= old(sbytes) - sbytes <= |old(Stream())|
      ensures Stream() == old(Stream())[old(sbytes) - sbytes..]
      ensures cut > 0 && old(sbytes) > 0 && old(Stream()) != [] ==> sbytes < old(sbytes)
    {
      complete := false;
      if sbytes == 0 { return true; }
      if rbytes > 0 {
        var tocopy := if rbytes > sbytes then sbytes else rbytes;
        StreamSplit(rbuf[..], rcurr, rbytes, tocopy, sock);
        sbytes := sbytes - tocopy;
        rcurr := rcurr + tocopy;
        rbytes := rbytes - tocopy;
        return;
      }
      NothingBuffered(rbuf[..], rcurr, sock);
      var res := ReadCount(cut, if rbuf.Length > sbytes then sbytes else rbuf.Length, sock);
      Store(rbuf, 0, sock[..res]);
      sbytes := sbytes - res;
      sock := sock[res..];
      NothingBuffered(rbuf[..], rcurr, sock);
    }

    /** Exactly sbytes bytes are dropped, and parsing resumes at the byte after them. */
    method SwallowAll(cuts: seq<nat>)
      requires Valid() && forall c :: c in cuts ==> c > 0
      modifies this, rbuf
      ensures Valid() && rbuf == old(rbuf) && 0 <= old(sbytes) - sbytes <= |old(Stream())|
      ensures Stream() == old(Stream())[old(sbytes) - sbytes..]
      ensures |cuts| >= old(sbytes) && |old(Stream())| >= old(sbytes) ==> sbytes == 0
    {
      var i := 0;
      while i < |cuts|
        invariant i <= |cuts| && Valid() && rbuf == old(rbuf) && 0 <= old(sbytes) - sbytes <= |old(Stream())|
        invariant Stream() == old(Stream())[old(sbytes) - sbytes..]
        invariant |old(Stream())| >= old(sbytes) ==> sbytes == 0 || sbytes + i <= old(sbytes)
      {
        assert cuts[i] in cuts;
        var complete := ConnSwallow(cuts[i]);
        i := i + 1;
      }
    }

    // ----- filling the buffer, taking lines out of it

    /** The unread part moves to the front of the buffer. */
    method Repack()
      requires Valid()
      modifies this`rcurr, rbuf
      ensures Valid() && rcurr == 0 && Stream() == old(Stream())
    {
      if rcurr != 0 {
        if rbytes != 0 { MemMove(rbuf, 0, rbuf, rcurr, rbytes); }
        rcurr := 0;
        assert Window(rbuf[..], 0, rbytes) == old(Window(rbuf[..], rcurr, rbytes));
      }
    }

    /** try_read_network; the reads return what `cuts` says, then there is nothing more for now. */
    method TryReadNetwork(cuts: seq<nat>) returns (gotData: bool)
      requires Valid()
      modifies this, rbuf
      ensures Valid() && rcurr == 0 && Stream() == old(Stream())
      ensures rbytes >= old(rbytes) && (gotData <==> rbytes > old(rbytes))
      ensures rbuf == old(rbuf) || fresh(rbuf)
      ensures unchanged(`dst, `ritem, `rlbytes, `sbytes)
    {
      Repack();
      gotData := false;
      var numAllocs, i := 0, 0;
      while i < |cuts|
        invariant i <= |cuts| && Valid() && rcurr == 0 && Stream() == old(Stream())
        invariant rbytes >= old(rbytes) && (gotData <==> rbytes > old(rbytes))
        invariant rbuf == old(rbuf) || fresh(rbuf)
        invariant unchanged(`dst, `ritem, `rlbytes, `sbytes)
      {
        if rbytes >= rbuf.Length {
          if numAllocs == 4 { return; }
          numAllocs := numAllocs + 1;
          Enlarge();
        }
        var avail := rbuf.Length - rbytes;
        var res := ReadCount(cuts[i], avail, sock);
        if res == 0 { return; }
        Receive(res);
        gotData := true;
        if res != avail { return; }
        i := i + 1;
      }
    }

    /** A full buffer is made twice as big. */
    method Enlarge()
      requires Valid() && rcurr == 0 && rbytes == rbuf.Length
      modifies this`rbuf
      ensures Valid() && fresh(rbuf) && rbuf.Length == 2 * old(rbuf).Length && Stream() == old(Stream())
    {
      var bigger := Realloc(rbuf, rbuf.Length * 2, 0);
      assert Window(bigger[..], 0, rbytes) == Window(rbuf[..], 0, rbytes);
      rbuf := bigger;
    }

    /** res bytes arrive behind those already there. */
    method Receive(res: nat)
      requires Valid() && rcurr + rbytes + res <= rbuf.Length && res <= |sock|
      modifies this`rbytes, this`sock, rbuf
      ensures Valid() && Stream() == old(Stream()) && rbytes == old(rbytes) + res
    {
      ghost var was := rbuf[..];
      Store(rbuf, rcurr + rbytes, sock[..res]);
      assert Window(rbuf[..], rcurr, rbytes + res) == Window(was, rcurr, rbytes) + sock[..res];
      assert sock == sock[..res] + sock[res..];
      rbytes := rbytes + res;
      sock := sock[res..];
    }

    /** The part of try_read_command that finds a line.  A carriage return before the line
        feed goes too, unless it is the only byte of the line. */
    method TakeLine() returns (line: Option<seq<Byte>>)
      requires Valid()
      modifies this`rcurr, this`rbytes, rbuf
      ensures Valid() && rcurr >= old(rcurr)
      ensures line.None? <==> LF !in old(Window(rbuf[..], rcurr, rbytes))
      ensures line.None? ==> Stream() == old(Stream())
      ensures line.Some? ==>
        LF in old(Stream()) &&
        var s := old(Stream()); var n := IndexOf(s, LF);
        && Stream() == s[n + 1..]
        && line.value == if n > 1 && s[n - 1] == CR then s[..n - 1] else s[..n]
    {
      var n := FindLineEnd();
      NotFound(rbuf[..], rcurr, rbytes);
      if n == rbytes { return None; }
      var text := CutLine(n);
      line := Some(text);
    }

    /** memchr. */
    method FindLineEnd() returns (n: nat)
      requires Valid()
      ensures n <= rbytes && forall k :: rcurr <= k < rcurr + n ==> rbuf[k] != LF
      ensures n < rbytes ==> rbuf[rcurr + n] == LF
    {
      n := 0;
      while n < rbytes && rbuf[rcurr + n] != LF
        invariant n <= rbytes && forall k :: rcurr <= k < rcurr + n ==> rbuf[k] != LF
      {
        n := n + 1;
      }
    }

    method CutLine(n: nat) returns (line: seq<Byte>)
      requires Valid() && n < rbytes && rbuf[rcurr + n] == LF && forall k :: rcurr <= k < rcurr + n ==> rbuf[k] != LF
      modifies this`rcurr, this`rbytes, rbuf
      ensures Valid() && rcurr >= old(rcurr)
      ensures LF in old(Window(rbuf[..], rcurr, rbytes))
      ensures LF in old(Stream()) && n == IndexOf(old(Stream()), LF)
      ensures Stream() == old(Stream())[n + 1..]
      ensures line == old(Stream())[..if n > 1 && old(Stream())[n - 1] == CR then n - 1 else n]
    {
      hide IndexOf, Window;
      ghost var was := rbuf[..];
      var el := if n > 1 && rbuf[rcurr + n - 1] == CR then n - 1 else n;
      Found(was, rcurr, rbytes, n, sock);
      StreamSplit(was, rcurr, rbytes, n + 1, sock);
      StreamSplit(was, rcurr, rbytes, el, sock);
      rbuf[rcurr + el] := 0;
      line := rbuf[rcurr..rcurr + el];
      assert rbuf[..] == was[rcurr + el := 0];
      Before(rbuf[..], was, rcurr, el);
      Beyond(was, rcurr + el, rcurr + n + 1, rcurr + rbytes);
      rbytes := rbytes - (n + 1);
      rcurr := rcurr + n + 1;
    }
  }

  lemma Beyond(a: seq<Byte>, at: nat, x: nat, y: nat)
    requires at < x <= y <= |a|
    ensures Window(a[at := 0], x, y - x) == Window(a, x, y - x)
  {
  }

  lemma Before(a: seq<Byte>, was: seq<Byte>, at: nat, n: nat)
    requires at + n < |was| && a == was[at + n := 0]
    ensures a[at..at + n] == Window(was, at, n)
  {
  }

  lemma NotFound(a: seq<Byte>, at: nat, n: nat)
    requires at + n <= |a|
    ensures (forall k :: at <= k < at + n ==> a[k] != LF) ==> LF !in Window(a, at, n)
  {
  }

  lemma Found(a: seq<Byte>, at: nat, n: nat, k: nat, sock: seq<Byte>)
    requires at + n <= |a| && k < n && a[at + k] == LF && forall j :: at <= j < at + k ==> a[j] != LF
    ensures LF in Window(a, at, n)
    ensures var s := Window(a, at, n) + sock; LF in s && IndexOf(s, LF) == k && (k > 0 ==> s[k - 1] == a[at + k - 1])
  {
    assert Window(a, at, n)[k] == LF;
    var s := Window(a, at, n) + sock;
    assert s[k] == LF;
    forall j | 0 <= j < k ensures s[j] != LF { assert s[j] == a[at + j]; }
    IndexIs(s, LF, k);
  }

  lemma {:induction false} IndexIs<T>(s: seq<T>, x: T, k: nat)
    requires k < |s| && s[k] == x && forall j :: 0 <= j < k ==> s[j] != x
    ensures x in s && IndexOf(s, x) == k
  {
    if k > 0 {
      assert s[0] != x;
      IndexIs(s[1..], x, k - 1);
    }
  }

  /** data written over d from `at` on. */
  function Put(d: seq<Byte>, at: nat, data: seq<Byte>): seq<Byte>
    requires at + |data| <= |d|
  {
    d[..at] + data + d[at + |data|..]
  }

  lemma Untouched(d: seq<Byte>, s: seq<Byte>, at: nat)
    requires at <= |d|
    ensures s[..0] == [] && s[0..] == s && Put(d, at, s[..0]) == d
  {
  }

  lemma NothingBuffered(a: seq<Byte>, at: nat, sock: seq<Byte>)
    requires at <= |a|
    ensures Window(a, at, 0) + sock == sock
  {
  }

  lemma StreamSplit(a: seq<Byte>, at: nat, n: nat, k: nat, sock: seq<Byte>)
    requires k <= n && at + n <= |a|
    ensures (Window(a, at, n) + sock)[..k] == Window(a, at, k)
    ensures (Window(a, at, n) + sock)[k..] == Window(a, at + k, n - k) + sock
  {
  }

  lemma InPlace(d: seq<Byte>, at: nat, n: nat)
    requires at + n <= |d|
    ensures Put(d, at, d[at..at + n]) == d
  {
  }

  lemma PutPut(d: seq<Byte>, at: nat, s: seq<Byte>, j: nat, k: nat)
    requires j + k <= |s| && at + j + k <= |d|
    ensures |Put(d, at, s[..j])| == |d|
    ensures Put(Put(d, at, s[..j]), at + j, s[j..][..k]) == Put(d, at, s[..j + k])
    ensures s[j..][k..] == s[j + k..]
  {
    assert s[..j + k] == s[..j] + s[j..][..k];
  }

  /** The bytes a read puts into a buffer. */
  method Store(a: array<Byte>, at: nat, data: seq<Byte>)
    requires at + |data| <= a.Length
    modifies a
    ensures a[..] == Put(old(a[..]), at, data)
  {
    var k := 0;
    while k < |data|
      invariant k <= |data| && a[..at] == old(a[..at]) && a[at + |data|..] == old(a[at + |data|..])
      invariant a[at..at + k] == data[..k]
    {
      a[at + k] := data[k];
      k := k + 1;
    }
  }
}
