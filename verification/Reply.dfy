/** The gather list of a connection (memcached.c): building a reply out of buffers, and
    sending it with a sendmsg that may take any part of what it is offered. */
module Reply {
  import opened Octets

  const IOV_MAX: nat := 1024
  const UDP_MAX_PAYLOAD_SIZE: nat := 1400
  const UDP_HEADER_SIZE: nat := 8

  /** A struct iovec, as the bytes that iov_base and iov_len delimit. */
  type Iov = seq<Byte>

  /** A struct msghdr: where msg_iov points, and msg_iovlen. */
  datatype MsgHdr = MsgHdr(base: array<Iov>, first: nat, iovlen: nat)

  function Join<T>(ss: seq<seq<T>>): (r: seq<T>) {
    if ss == [] then [] else Join(ss[..|ss| - 1]) + ss[|ss| - 1]
  }

  lemma JoinMore<T>(ss: seq<seq<T>>, s: seq<T>)
    ensures Join(ss + [s]) == Join(ss) + s
  {
    assert (ss + [s])[..|ss|] == ss;
  }

  lemma {:induction false} JoinSplit<T>(a: seq<seq<T>>, b: seq<seq<T>>)
    ensures Join(a + b) == Join(a) + Join(b)
  {
    if b == [] {
      assert a + b == a;
    } else {
      JoinSplit(a, b[..|b| - 1]);
      assert (a + b)[..|a + b| - 1] == a + b[..|b| - 1];
    }
  }

  lemma JoinHead<T>(ss: seq<seq<T>>)
    requires ss != []
    ensures Join(ss) == ss[0] + Join(ss[1..])
  {
    JoinSplit([ss[0]], ss[1..]);
    assert ss == [ss[0]] + ss[1..] && [ss[0]][..0] == [];
  }

  /** How many segments the first i messages have. */
  function Offset(msgs: seq<seq<Iov>>, i: nat): nat
    requires i <= |msgs|
  {
    |Join(msgs[..i])|
  }

  lemma OffsetMore(msgs: seq<seq<Iov>>, i: nat)
    requires i < |msgs|
    ensures Offset(msgs, 0) == 0 && Offset(msgs, i + 1) == Offset(msgs, i) + |msgs[i]|
  {
    assert msgs[..i + 1][..i] == msgs[..i];
  }

  lemma OffsetZero(msgs: seq<seq<Iov>>)
    ensures Offset(msgs, 0) == 0
  {
  }

  /** The segments of a message that carry data; the first one of a datagram is its header. */
  function Payload(m: seq<Iov>, udp: bool): seq<Iov> { if udp && m != [] then m[1..] else m }

  /** The bytes of a reply, headers left out. */
  function Body(msgs: seq<seq<Iov>>, udp: bool): seq<Byte> {
    if msgs == [] then [] else
      var n := |msgs| - 1;
      Body(msgs[..n], udp) + Join(Payload(msgs[n], udp))
  }

  /** Every datagram, and the first message of a TCP reply, is kept small. */
  predicate Limited(udp: bool, i: nat) { udp || i == 0 }

  ghost predicate Sized(msgs: seq<seq<Iov>>, udp: bool) {
    && (forall i :: 0 <= i < |msgs| ==> |msgs[i]| <= IOV_MAX)
    && (forall i :: 0 <= i < |msgs| && Limited(udp, i) ==> |Join(msgs[i])| <= UDP_MAX_PAYLOAD_SIZE)
    && (udp ==> forall i :: 0 <= i < |msgs| ==> msgs[i] != [] && |msgs[i][0]| == UDP_HEADER_SIZE)
  }

  /** Every message but the last is full: it has all the segments sendmsg takes, or all the bytes
      the limit allows. */
  ghost predicate Packed(msgs: seq<seq<Iov>>, udp: bool) {
    forall i :: 0 <= i < |msgs| - 1 ==>
      |msgs[i]| == IOV_MAX || (Limited(udp, i) && |Join(msgs[i])| == UDP_MAX_PAYLOAD_SIZE)
  }

  lemma PackedMore(msgs: seq<seq<Iov>>, udp: bool, m: seq<Iov>)
    requires Packed(msgs, udp) && msgs != []
    requires var i := |msgs| - 1;
      |msgs[i]| == IOV_MAX || (Limited(udp, i) && |Join(msgs[i])| == UDP_MAX_PAYLOAD_SIZE)
    ensures Packed(msgs + [m], udp)
  {
    hide Join;
  }

  lemma PackedLonger(msgs: seq<seq<Iov>>, udp: bool, piece: Iov)
    requires Packed(msgs, udp) && msgs != []
    ensures Packed(Longer(msgs, piece), udp)
  {
    hide Join;
  }

  function Longer(msgs: seq<seq<Iov>>, piece: Iov): seq<seq<Iov>>
    requires msgs != []
  {
    var n := |msgs| - 1;
    msgs[n := msgs[n] + [piece]]
  }

  lemma LongerJoin(msgs: seq<seq<Iov>>, piece: Iov)
    requires msgs != []
    ensures Join(Longer(msgs, piece)) == Join(msgs) + [piece]
  {
    var n := |msgs| - 1;
    var longer := Longer(msgs, piece);
    assert longer[..n] == msgs[..n];
    calc {
      Join(longer);
      Join(msgs[..n]) + (msgs[n] + [piece]);
      (Join(msgs[..n]) + msgs[n]) + [piece];
      Join(msgs) + [piece];
    }
  }

  lemma LongerBody(msgs: seq<seq<Iov>>, udp: bool, piece: Iov)
    requires msgs != [] && (udp ==> msgs[|msgs| - 1] != [])
    ensures Body(Longer(msgs, piece), udp) == Body(msgs, udp) + piece
  {
    var n := |msgs| - 1;
    assert Longer(msgs, piece)[..n] == msgs[..n];
    assert Payload(msgs[n] + [piece], udp) == Payload(msgs[n], udp) + [piece];
    JoinMore(Payload(msgs[n], udp), piece);
  }

  lemma LongerOffset(msgs: seq<seq<Iov>>, piece: Iov, j: nat)
    requires j < |msgs|
    ensures Offset(Longer(msgs, piece), j) == Offset(msgs, j)
  {
    assert Longer(msgs, piece)[..j] == msgs[..j];
  }

  /** The current message reaches to the end of the used part. */
  lemma LastOffset(msgs: seq<seq<Iov>>)
    requires msgs != []
    ensures Offset(msgs, |msgs| - 1) + |msgs[|msgs| - 1]| == |Join(msgs)|
  {
  }

  lemma NewOffset(msgs: seq<seq<Iov>>)
    ensures Join(msgs + [[]]) == Join(msgs) && Offset(msgs + [[]], |msgs|) == |Join(msgs)|
    ensures forall j :: 0 <= j < |msgs| ==> Offset(msgs + [[]], j) == Offset(msgs, j)
  {
    assert (msgs + [[]])[..|msgs|] == msgs;
    forall j | 0 <= j < |msgs| ensures Offset(msgs + [[]], j) == Offset(msgs, j) {
      assert (msgs + [[]])[..j] == msgs[..j];
    }
  }

  lemma SizedMore(msgs: seq<seq<Iov>>, udp: bool)
    requires Sized(msgs, udp)
    ensures Sized(msgs + [if udp then [NO_HEADER] else []], udp)
    ensures Join<Byte>([]) == [] && Join([NO_HEADER]) == NO_HEADER
  {
    assert [NO_HEADER][..0] == [];
  }

  lemma FirstPiece(msgs: seq<seq<Iov>>, piece: Iov)
    ensures Longer(msgs + [[]], piece) == msgs + [[piece]]
  {
    var empty: seq<Iov> := [];
    assert empty + [piece] == [piece];
  }

  const NO_HEADER: Iov := [0, 0, 0, 0, 0, 0, 0, 0]

  class Conn {
    const udp: bool
    var requestId: nat
    var iov: array<Iov>
    var iovused: nat
    var msglist: array<MsgHdr>
    var msgused: nat
    var msgcurr: nat
    var msgbytes: nat
    ghost var msgs: seq<seq<Iov>>
    ghost var left: seq<seq<Iov>>   // what is still to be sent

    /** The messages partition the used part of the iov array, each at the sum of the
        lengths before it. */
    ghost predicate Listed()
      reads this, iov, msglist
    {
      && iov.Length > 0 && msglist.Length > 0
      && msgused == |msgs| <= msglist.Length && iovused == |Join(msgs)| <= iov.Length
      && iov[..iovused] == Join(msgs)
      && (forall i :: 0 <= i < msgused ==> msglist[i] == MsgHdr(iov, Offset(msgs, i), |msgs[i]|))
    }

    ghost predicate Valid()
      reads this, iov, msglist
    {
      && Listed() && Sized(msgs, udp)
      && (msgs != [] ==> msgbytes == |Join(msgs[|msgs| - 1])|)
    }

    /** conn_new and the reset before a reply is built. */
    constructor (udp: bool)
      ensures Valid() && msgs == [] && this.udp == udp && fresh(iov) && fresh(msglist)
    {
      this.udp := udp;
      var a := new Iov[400](_ => []);
      iov := a;
      msglist := new MsgHdr[10](_ => MsgHdr(a, 0, 0));
      iovused, msgused, msgcurr, msgbytes, requestId := 0, 0, 0, 0, 0;
      msgs, left := [], [];
    }

    /** All the msghdr structures are pointed at the list in use now. */
    method Repoint()
      requires msgused == |msgs| <= msglist.Length
      requires forall i :: 0 <= i < msgused ==> msglist[i].iovlen == |msgs[i]|
      modifies msglist
      ensures forall i :: 0 <= i < msgused ==> msglist[i] == MsgHdr(iov, Offset(msgs, i), |msgs[i]|)
    {
      hide Offset;
      OffsetZero(msgs);
      var i, iovnum := 0, 0;
      while i < msgused
        invariant i <= msgused && iovnum == Offset(msgs, i)
        invariant forall j :: 0 <= j < i ==> msglist[j] == MsgHdr(iov, Offset(msgs, j), |msgs[j]|)
        invariant forall j :: i <= j < msgused ==> msglist[j].iovlen == |msgs[j]|
      {
        msglist[i] := msglist[i].(base := iov, first := iovnum);
        OffsetMore(msgs, i);
        iovnum := iovnum + msglist[i].iovlen;
        i := i + 1;
      }
    }

    method EnsureIovSpace()
      requires Listed()
      modifies this`iov, msglist
      ensures Listed() && iovused < iov.Length
      ensures iov == old(iov) || fresh(iov)
    {
      if iovused >= iov.Length {
        var bigger := Realloc(iov, iov.Length * 2, []);
        assert bigger[..iovused] == iov[..iovused];
        iov := bigger;
        Repoint();
      }
    }

    /** One more segment at the end of the current message. */
    method PutPiece(piece: Iov)
      requires Listed() && msgs != [] && iovused < iov.Length && msgbytes == |Join(msgs[|msgs| - 1])|
      modifies this`iovused, this`msgbytes, this`msgs, iov, msglist
      ensures Listed() && msgs == Longer(old(msgs), piece) && msgbytes == |Join(msgs[|msgs| - 1])|
    {
      hide Join, Offset;
      ghost var was, list := iov[..iovused], msglist[..msgused];
      LongerJoin(msgs, piece);
      JoinMore(msgs[|msgs| - 1], piece);
      LastOffset(msgs);
      forall j | 0 <= j < |msgs| ensures Offset(Longer(msgs, piece), j) == Offset(msgs, j) {
        LongerOffset(msgs, piece, j);
      }
      var m := msglist[msgused - 1];
      m.base[m.first + m.iovlen] := piece;
      msgbytes := msgbytes + |piece|;
      iovused := iovused + 1;
      msglist[msgused - 1] := m.(iovlen := m.iovlen + 1);
      msgs := Longer(msgs, piece);
      assert iov[..iovused] == was + [piece];
    }

    /** The part of add_msghdr that makes an empty message. */
    method AddEmpty()
      requires Listed()
      modifies this`msglist, this`msgbytes, this`msgused, this`msgs, msglist
      ensures Listed() && (msglist == old(msglist) || fresh(msglist))
      ensures msgs == old(msgs) + [[]] && msgbytes == 0
    {
      hide Join, Offset;
      if msglist.Length == msgused {
        msglist := Realloc(msglist, msgused * 2, MsgHdr(iov, 0, 0));
      }
      NewOffset(msgs);
      msglist[msgused] := MsgHdr(iov, iovused, 0);
      msgbytes := 0;
      msgused := msgused + 1;
      msgs := msgs + [[]];
    }

    /** add_msghdr; a datagram gets room for its header at once. */
    method AddMsghdr()
      requires Valid() && (udp ==> msgs == [] || msgs[|msgs| - 1] != [])
      modifies this, iov, msglist
      ensures Valid() && (iov == old(iov) || fresh(iov)) && (msglist == old(msglist) || fresh(msglist))
      ensures msgs == old(msgs) + [if udp then [NO_HEADER] else []] && unchanged(`msgcurr)
    {
      hide Join, Offset, Listed, Sized;
      SizedMore(msgs, udp);
      ghost var before := msgs;
      AddEmpty();
      if udp {
        // add_iov(c, NULL, UDP_HEADER_SIZE): the message is new, so it needs no other one
        EnsureIovSpace();
        PutPiece(NO_HEADER);
        FirstPiece(before, NO_HEADER);
      }
    }

    /** Starts a new message if the current one is full. */
    method StartNewIfFull(limitToMtu: bool)
      requires Valid() && msgs != [] && limitToMtu == (udp || msgused == 1)
      modifies this, iov, msglist
      ensures Valid() && (iov == old(iov) || fresh(iov)) && (msglist == old(msglist) || fresh(msglist))
      ensures msgs != [] && Extends(old(msgs), msgs) && Body(msgs, udp) == Body(old(msgs), udp) && unchanged(`msgcurr)
      ensures |msgs[|msgs| - 1]| < IOV_MAX && (limitToMtu ==> msgbytes < UDP_MAX_PAYLOAD_SIZE)
      ensures Limited(udp, |msgs| - 1) ==> limitToMtu
      ensures Packed(old(msgs), udp) ==> Packed(msgs, udp)
    {
      hide Join, Offset, Body, Sized, Packed;
      ExtendsRefl(msgs);
      SizedLast(msgs, udp);
      if msglist[msgused - 1].iovlen == IOV_MAX || (limitToMtu && msgbytes >= UDP_MAX_PAYLOAD_SIZE) {
        BodyNewMessage(msgs, udp);
        ExtendsMore(msgs, msgs, if udp then [NO_HEADER] else []);
        if Packed(msgs, udp) { PackedMore(msgs, udp, if udp then [NO_HEADER] else []); }
        AddMsghdr();
      }
    }

    /** One round of the loop of add_iov: as much of `rest` as the current message takes. */
    method AddPiece(rest: Iov) returns (leftover: nat)
      requires Valid() && msgs != []
      modifies this, iov, msglist
      ensures Valid() && (iov == old(iov) || fresh(iov)) && (msglist == old(msglist) || fresh(msglist))
      ensures msgs != [] && Extends(old(msgs), msgs) && unchanged(`msgcurr)
      ensures leftover <= |rest| && (rest != [] ==> leftover < |rest|)
      ensures Body(msgs, udp) == Body(old(msgs), udp) + rest[..|rest| - leftover]
      ensures Packed(old(msgs), udp) ==> Packed(msgs, udp)
    {
      hide Join, Offset, Body, Sized, Extends, Listed, Packed;
      ghost var before := msgs;
      var limitToMtu := udp || msgused == 1;
      StartNewIfFull(limitToMtu);
      EnsureIovSpace();
      var len := |rest|;
      leftover := 0;
      if limitToMtu && len + msgbytes > UDP_MAX_PAYLOAD_SIZE {
        leftover := len + msgbytes - UDP_MAX_PAYLOAD_SIZE;
        len := len - leftover;
      }
      SizedLast(msgs, udp);
      SizedLonger(msgs, udp, rest[..len]);
      LongerBody(msgs, udp, rest[..len]);
      ExtendsLonger(before, msgs, rest[..len]);
      if Packed(msgs, udp) { PackedLonger(msgs, udp, rest[..len]); }
      PutPiece(rest[..len]);
    }

    /** Adds the bytes of buf to what will be sent. */
    method AddIov(buf: Iov)
      requires Valid() && msgs != []
      modifies this, iov, msglist
      ensures Valid() && (iov == old(iov) || fresh(iov)) && (msglist == old(msglist) || fresh(msglist))
      ensures msgs != [] && Extends(old(msgs), msgs) && unchanged(`msgcurr)
      ensures Body(msgs, udp) == Body(old(msgs), udp) + buf
      ensures Packed(old(msgs), udp) ==> Packed(msgs, udp)
    {
      hide Join, Offset, Body, Sized, Extends, Conn.Listed, Valid, Packed;
      ghost var before := msgs;
      var rest := buf;
      var leftover: nat := AddPiece(rest);
      Regroup(Body(before, udp), rest, |rest| - leftover);
      while leftover > 0
        invariant Valid() && msgs != [] && unchanged(`msgcurr) && leftover <= |rest|
        invariant (iov == old(iov) || fresh(iov)) && (msglist == old(msglist) || fresh(msglist))
        invariant Packed(before, udp) ==> Packed(msgs, udp)
        invariant Extends(before, msgs) && Body(msgs, udp) + rest[|rest| - leftover..] == Body(before, udp) + buf
        decreases leftover
      {
        rest := rest[|rest| - leftover..];
        ghost var mid, body := msgs, Body(msgs, udp);
        leftover := AddPiece(rest);
        ExtendsTrans(before, mid, msgs);
        Regroup(body, rest, |rest| - leftover);
      }
      assert rest[|rest|..] == [];
    }

    // ----- sending

    /** From msgcurr on the msghdr structures delimit what is left, without overlap. */
    ghost predicate Sending()
      reads this, iov, msglist
    {
      && msgcurr + |left| == msgused <= msglist.Length
      && (forall i :: msgcurr <= i < msgused ==> Covers(msglist[i], iov, iov[..], left[i - msgcurr]))
      && (forall i, j :: msgcurr <= i < j < msgused ==> msglist[i].first + msglist[i].iovlen <= msglist[j].first)
    }

    /** A finished reply is ready to be sent. */
    ghost method StartSending()
      requires Valid() && msgcurr == 0
      modifies this`left
      ensures Sending() && left == msgs
      ensures udp ==> Roomy(left) && forall i :: 0 <= i < |left| ==> left[i] != []
    {
      hide Join, Offset, Covers, Valid, Sending, Roomy, Behind;
      MessagesLaid();
      left := msgs;
      SendingIs(msglist[..]);
    }

    lemma MessagesLaid()
      requires Valid()
      ensures msgused == |msgs| && Behind(msglist[..], msgs)
      ensures forall i :: 0 <= i < |msgs| ==> Covers(msglist[..][i], iov, iov[..], msgs[i])
      ensures udp ==> Roomy(msgs) && forall i :: 0 <= i < |msgs| ==> msgs[i] != []
    {
      hide Join, Offset, Covers;
      assert iov[..][..iovused] == iov[..iovused];
      assert forall i :: 0 <= i < |msgs| ==> msglist[..][i] == msglist[i];
      Laid(msgs, iov, iov[..], msglist[..]);
    }

    /** build_udp_headers, before anything has been sent or when the first datagram just has:
        it is called again as long as msgcurr is 0, and msg_iov of a datagram that has been
        sent is behind its entries.  The header written there goes to the next datagram,
        which gets its own in the next round; behind the only one there must be an entry. */
    method BuildUdpHeaders()
      requires Sending() && udp && msgcurr == 0 && Roomy(left)
      requires |left| == 1 && left[0] == [] ==> msglist[0].first < iov.Length
      modifies iov, this`left
      ensures Sending() && left == Headed(old(left), requestId)
    {
      hide Header, Headed, Sending, Covers, CoversRest, Writing, Apart, Roomy;
      ghost var (was, l) := (left, msglist[..]);
      SendingMeans();
      var i := 0;
      while i < msgused
        invariant i <= msgused && msglist[..] == l && left == was
        invariant Writing(l, iov, iov[..], was, requestId, i)
      {
        assert msglist[i] == l[i];
        FirstInside(l, iov, iov[..], was, requestId, i);
        HeaderWritten(l, iov, iov[..], was, requestId, i);
        ghost var a := iov[..];
        iov[msglist[i].first] := Header(requestId, i, msgused);
        assert iov[..] == a[l[i].first := Header(requestId, i, |was|)];
        i := i + 1;
      }
      left := Headed(was, requestId);
      AllWritten(l, iov, iov[..], was, requestId);
      SendingIs(l);
    }

    /** What is left, told of the list of headers. */
    lemma SendingMeans()
      requires Sending() && udp && msgcurr == 0 && Roomy(left)
      ensures |left| == msgused <= |msglist[..]| && Apart(msglist[..], left)
      ensures Writing(msglist[..], iov, iov[..], left, requestId, 0)
    {
      hide Covers, CoversRest, Roomy, Behind, Apart;
      SendingBehind();
      RoomyApart(msglist[..], left);
      RestCovered(msglist[..], iov, iov[..], left);
    }

    lemma SendingBehind()
      requires Sending() && msgcurr == 0
      ensures |left| == msgused <= |msglist[..]| && Behind(msglist[..], left)
      ensures forall j :: 0 <= j < |left| ==> Covers(msglist[..][j], iov, iov[..], left[j])
    {
      hide Covers;
      assert forall j :: 0 <= j < |left| ==> msglist[..][j] == msglist[j];
    }

    lemma SendingIs(l: seq<MsgHdr>)
      requires msglist[..] == l && msgcurr == 0 && msgused == |left| && Behind(l, left)
      requires forall j :: 0 <= j < |left| ==> Covers(l[j], iov, iov[..], left[j])
      ensures Sending()
    {
      hide Covers;
      assert forall i :: 0 <= i < msgused ==> l[i] == msglist[i];
    }

    /** msg_iovlen-- and msg_iov++. */
    method DropFirst()
      requires Sending() && left != [] && left[0] != []
      modifies msglist, this`left
      ensures Sending() && left == old(left)[0 := old(left)[0][1..]] && SameEnds(old(msglist[..]), msglist[..])
    {
      hide Covers;
      var m := msglist[msgcurr];
      FirstSegment(m, iov, iov[..], left[0]);
      CoversTail(m, iov, iov[..], left[0]);
      msglist[msgcurr] := MsgHdr(m.base, m.first + 1, m.iovlen - 1);
      left := left[0 := left[0][1..]];
      forall i | msgcurr < i < msgused ensures Covers(msglist[i], iov, iov[..], left[i - msgcurr]) {
        assert left[i - msgcurr] == old(left)[i - msgcurr];
      }
    }

    /** The first segment loses its first `n` bytes. */
    method Shorten(n: nat)
      requires Sending() && left != [] && left[0] != [] && n <= |left[0][0]|
      modifies iov, this`left
      ensures Sending() && left == old(left)[0 := [old(left)[0][0][n..]] + old(left)[0][1..]]
    {
      hide Covers;
      var m := msglist[msgcurr];
      ghost var was := iov[..];
      FirstSegment(m, iov, was, left[0]);
      CoversHead(m, iov, was, left[0], n);
      m.base[m.first] := m.base[m.first][n..];
      assert iov[..] == was[m.first := left[0][0][n..]];
      forall i | msgcurr < i < msgused
        ensures Covers(msglist[i], iov, was[m.first := left[0][0][n..]], left[i - msgcurr])
      {
        CoversApart(msglist[i], iov, was, left[i - msgcurr], m.first, left[0][0][n..]);
      }
      left := left[0 := [left[0][0][n..]] + left[0][1..]];
    }

    /** The iovec entries that `res` bytes cover go; a part of the next one may go too. */
    method Consume(res: nat)
      requires Sending() && left != [] && res <= |Join(left[0])|
      modifies iov, msglist, this`left
      ensures Sending() && |left| == |old(left)| && left[1..] == old(left)[1..]
      ensures Join(left[0]) == Join(old(left)[0])[res..] && SameEnds(old(msglist[..]), msglist[..])
      ensures left[0] == [] || |Join(left[0])| > 0
    {
      hide Join;
      var rest: nat := res;
      ghost var was, others := left[0], left[1..];
      while msglist[msgcurr].iovlen > 0 && rest >= |msglist[msgcurr].base[msglist[msgcurr].first]|
        invariant Sending() && left != [] && |left| == |old(left)| && left[1..] == others
        invariant SameEnds(old(msglist[..]), msglist[..])
        invariant rest <= |Join(left[0])| && rest <= res <= |Join(was)|
        invariant Join(was)[res..] == Join(left[0])[rest..]
        decreases |left[0]|
      {
        FirstSegment(msglist[msgcurr], iov, iov[..], left[0]);
        JoinHead(left[0]);
        rest := rest - |msglist[msgcurr].base[msglist[msgcurr].first]|;
        DropFirst();
      }
      JoinNothing<Byte>();
      FirstSegment(msglist[msgcurr], iov, iov[..], left[0]);
      if left[0] != [] { JoinHead(left[0]); }
      if rest > 0 {
        ShorterJoin(left[0], rest);
        Shorten(rest);
        JoinHead(left[0]);
      }
      assert Join(left[0])[0..] == Join(left[0]);
    }

    /** Finished writing the current message: on to the next. */
    method SkipSent()
      requires Sending()
      modifies this`left, this`msgcurr
      ensures Sending() && left == Skipped(old(left)) && Bytes(left) == Bytes(old(left))
      ensures Solid(old(left)) ==> Solid(left)
    {
      hide Join;
      JoinNothing<Byte>();
      if msgcurr < msgused && msglist[msgcurr].iovlen == 0 {
        msgcurr := msgcurr + 1;
        left := left[1..];
      }
    }

    /** `res` is what sendmsg returns, `again` whether errno says to try later. */
    method Transmit(res: int, again: bool) returns (r: TransmitResult)
      requires Sending() && res <= |Offered(left)|
      modifies iov, msglist, this`left, this`msgcurr
      ensures Sending()
      ensures r == Complete <==> Skipped(old(left)) == []
      ensures r == Incomplete <==> Skipped(old(left)) != [] && res > 0
      ensures r == SoftError <==> Skipped(old(left)) != [] && res == -1 && again
      ensures r == Incomplete ==> res <= |Bytes(old(left))| && Bytes(left) == Bytes(old(left))[res..]
      ensures r != Incomplete ==> Bytes(left) == Bytes(old(left))
      ensures r == Complete ==> Bytes(left) == []
      ensures Solid(old(left)) ==> Solid(left)
      ensures if r == Incomplete then LeftOver(Skipped(old(left)), left, res) else left == Skipped(old(left))
      ensures SameEnds(old(msglist[..]), msglist[..])
    {
      hide Join, Bytes, Covers, Solid;
      SkipSent();
      if msgcurr >= msgused {
        SentAll(left);
        return Complete;
      }
      if res > 0 {
        ghost var was := left;
        Consume(res);
        ConsumedBytes(was, left, res);
        return Incomplete;
      }
      r := if res == -1 && again then SoftError else HardError;
    }

    /** How many bytes the next sendmsg is offered. */
    method MsgBytes() returns (n: nat)
      requires Sending()
      ensures n == |Offered(left)|
    {
      hide Join;
      var i := if msgcurr < msgused && msglist[msgcurr].iovlen == 0 then msgcurr + 1 else msgcurr;
      n := 0;
      JoinNothing<Byte>();
      if i < msgused {
        var m := msglist[i];
        ghost var segs := left[i - msgcurr];
        assert segs == Skipped(left)[0];
        var k := 0;
        while k < m.iovlen
          invariant k <= m.iovlen && n == |Join(segs[..k])|
        {
          assert m.base[m.first + k] == iov[..][m.first..m.first + m.iovlen][k] == segs[k];
          JoinMore(segs[..k], segs[k]);
          assert segs[..k + 1] == segs[..k] + [segs[k]];
          n := n + |m.base[m.first + k]|;
          k := k + 1;
        }
        assert segs[..k] == segs;
      }
    }

    /** conn_mwrite on UDP, turn by turn, where a datagram is taken whole or not at all: the
        datagrams go out one by one, in order, although the headers are built again in every
        turn before the second one.  `takes` says whether sendmsg succeeds. */
    method SendDatagrams(takes: seq<bool>) returns (ghost sent: seq<seq<Byte>>, done: bool)
      requires Sending() && udp && msgcurr == 0 && Roomy(left) && forall i :: 0 <= i < |left| ==> left[i] != []
      requires |left| == 1 ==> End(msglist[0]) < iov.Length
      modifies iov, msglist, this`left, this`msgcurr
      ensures var all := Datagrams(Headed(old(left), requestId));
        sent <= all && |sent| == Least(Successes(takes), |all|) && (done ==> sent == all)
    {
      hide Join, Covers, Headed, Roomy, Sending, SameEnds, Gone, Full, Datagrams;
      ghost var (was, h, ends) := (left, Headed(left, requestId), msglist[..]);
      ghost var all := Datagrams(h);
      HeadedFull(was, requestId);
      SendingCount();
      SameEndsRefl(ends);
      assert |was| == 1 ==> ends[0] == msglist[0];
      sent, done := [], false;
      var k := 0;
      while k < |takes| && !done
        invariant Sending() && k <= |takes| && SameEnds(ends, msglist[..]) && msgused == |was|
        invariant if k == 0 then left == was && sent == [] else Gone(h, left, |sent|)
        invariant sent <= all && |sent| == Least(Successes(takes[..k]), |all|)
        invariant done ==> sent == all
      {
        SendingCount();
        if msgcurr == 0 {
          Rebuilt(was, left, requestId, k == 0, |sent|);
          OnlyEnd(ends);
          BuildUdpHeaders();
        }
        assert takes[..k + 1][..k] == takes[..k];
        ghost var (n, list) := (|sent|, msglist[..]);
        var r := SendOne(takes[k], h, n);
        SameEndsTrans(ends, list, msglist[..]);
        if r == Complete {
          done := true;
        } else if r == Incomplete {
          sent := sent + [all[n]];
        }
        k := k + 1;
      }
      SuccessesGrow(takes, k);
      assert takes[..|takes|] == takes;
    }

    /** One sendmsg, which takes the whole datagram or tells to try again. */
    method SendOne(take: bool, ghost h: seq<seq<Iov>>, ghost n: nat) returns (r: TransmitResult)
      requires Sending() && Full(h) && Gone(h, left, n)
      modifies iov, msglist, this`left, this`msgcurr
      ensures Sending() && SameEnds(old(msglist[..]), msglist[..])
      ensures r == if n == |h| then Complete else if take then Incomplete else SoftError
      ensures n <= |h| && Gone(h, left, if r == Incomplete then n + 1 else n)
    {
      hide Join, Covers, Sending, SameEnds, Gone, Full, LeftOver, Skipped, Bytes, Offered;
      ghost var before := left;
      var bytes := MsgBytes();
      OneSent(h, before, h, n);
      r := Transmit(if take then bytes else -1, !take);
      OneSent(h, before, left, n);
    }

    lemma SendingCount()
      requires Sending()
      ensures msgcurr + |left| == msgused <= msglist.Length
    {
    }

    /** What is left of a single datagram that has been sent is where it ended. */
    lemma OnlyEnd(ends: seq<MsgHdr>)
      requires Sending() && msgcurr == 0 && SameEnds(ends, msglist[..])
      requires |left| == 1 ==> ends != [] && End(ends[0]) < iov.Length
      ensures |left| == 1 && left[0] == [] ==> msglist[0].first < iov.Length
    {
      if |left| == 1 {
        assert msglist[..][0] == msglist[0];
        assert Covers(msglist[0], iov, iov[..], left[0]);
      }
    }

    /** A connection in conn_mwrite, for any counts sendmsg may return. */
    method SendAll(counts: seq<nat>) returns (ghost sent: seq<Byte>, done: bool)
      requires Sending() && forall n :: n in counts ==> n > 0
      modifies iov, msglist, this`left, this`msgcurr
      ensures Sending() && sent + Bytes(left) == Bytes(old(left))
      ensures done ==> sent == Bytes(old(left))
      ensures Solid(old(left)) && |counts| > |Bytes(old(left))| ==> done
    {
      hide Join, Bytes, Offered, Solid;
      sent, done := [], false;
      var k := 0;
      while k < |counts| && !done
        invariant Sending() && k <= |counts| && sent + Bytes(left) == Bytes(old(left))
        invariant done ==> Bytes(left) == []
        invariant Solid(old(left)) ==> Solid(left) && (done || |Bytes(left)| + k <= |Bytes(old(left))|)
      {
        var n := MsgBytes();
        var res: nat := if counts[k] <= n then counts[k] else n;
        OfferedPart(left);
        Regroup(sent, Bytes(left), res);
        ghost var taken := Bytes(left)[..res];
        assert counts[k] in counts;
        var r := Transmit(res, false);
        if r == Incomplete { sent := sent + taken; }
        if r == Complete { done := true; }
        k := k + 1;
      }
    }

    /** conn_mwrite with a reply that has just been built, on TCP: whatever counts sendmsg
        returns, what has been sent is the front of the reply, and all of it in the end. */
    method SendReply(counts: seq<nat>) returns (ghost sent: seq<Byte>, done: bool)
      requires Valid() && !udp && msgcurr == 0 && forall n :: n in counts ==> n > 0
      modifies iov, msglist, this`left, this`msgcurr
      ensures Sending() && sent + Bytes(left) == Body(msgs, false) && (done ==> sent == Body(msgs, false))
    {
      hide Join, Sending, Valid, Body, Bytes, Solid;
      StartSending();
      BytesAreBody(msgs);
      sent, done := SendAll(counts);
    }

    /** The same on UDP: the datagrams go out one by one, each with its header, as many as
        there are successful turns. */
    method SendReplyUdp(takes: seq<bool>) returns (ghost sent: seq<seq<Byte>>, done: bool)
      requires Valid() && udp && msgcurr == 0 && (|msgs| == 1 ==> iovused < iov.Length)
      modifies iov, msglist, this`left, this`msgcurr
      ensures var all := Datagrams(Headed(msgs, requestId));
        sent <= all && |sent| == Least(Successes(takes), |all|) && (done ==> sent == all)
    {
      hide Join, Sending, Valid, Roomy, Headed, Datagrams;
      if |msgs| == 1 { SoleEnd(); }
      StartSending();
      sent, done := SendDatagrams(takes);
    }

    /** A single message ends where the used entries end. */
    lemma SoleEnd()
      requires Valid() && |msgs| == 1
      ensures msglist.Length > 0 && End(msglist[0]) == iovused
    {
      LastOffset(msgs);
    }
  }

  /** On TCP nothing but the reply is sent. */
  lemma {:induction false} BytesAreBody(msgs: seq<seq<Iov>>)
    ensures Bytes(msgs) == Body(msgs, false)
  {
    if msgs != [] {
      var n := |msgs| - 1;
      BytesAreBody(msgs[..n]);
      BytesMore(msgs[..n], msgs[n]);
      assert msgs[..n] + [msgs[n]] == msgs;
    }
  }

  lemma {:induction false} BytesMore(msgs: seq<seq<Iov>>, m: seq<Iov>)
    ensures Bytes(msgs + [m]) == Bytes(msgs) + Join(m)
  {
    hide Join;
    if msgs == [] {
      assert [m][1..] == [];
      assert msgs + [m] == [m];
    } else {
      assert (msgs + [m])[0] == msgs[0];
      BytesMore(msgs[1..], m);
      assert (msgs + [m])[1..] == msgs[1..] + [m];
    }
  }

  /** What a client makes of the datagrams it has received, in whatever order: the payloads
      by sequence number. */
  ghost predicate Assembled(received: seq<seq<Byte>>, order: seq<nat>, out: seq<Byte>) {
    && (forall j :: 0 <= j < |order| ==> order[j] < |received| && |received[order[j]]| >= UDP_HEADER_SIZE)
    && (forall j :: 0 <= j < |order| ==> SeqNo(received[order[j]]) == j)
    && out == Stripped(received, order)
  }

  function Stripped(received: seq<seq<Byte>>, order: seq<nat>): seq<Byte>
    requires forall j :: 0 <= j < |order| ==> order[j] < |received| && |received[order[j]]| >= UDP_HEADER_SIZE
  {
    if order == [] then [] else
      var n := |order| - 1;
      Stripped(received, order[..n]) + received[order[n]][UDP_HEADER_SIZE..]
  }

  /** The datagrams of a reply, with the headers filled in, can be put together from any
      order of arrival, repeated or not. */
  lemma AnyOrder(msgs: seq<seq<Iov>>, requestId: nat, received: seq<seq<Byte>>, order: seq<nat>, out: seq<Byte>)
    requires Sized(msgs, true) && |msgs| <= 65536
    requires forall d :: d in received ==> d in Datagrams(Headed(msgs, requestId))
    requires |order| == |msgs| && Assembled(received, order, out)
    ensures out == Body(msgs, true)
  {
    hide Join, Header, Sized, Body;
    var h := Headed(msgs, requestId);
    assert forall i :: 0 <= i < |msgs| ==> msgs[i] != [] by { SizedHeads(msgs); }
    forall j | 0 <= j < |order| ensures received[order[j]] == Join(h[j]) {
      assert received[order[j]] in received;
      var i :| 0 <= i < |h| && received[order[j]] == Datagrams(h)[i];
      SeqNoOf(h[i], requestId, i, |msgs|);
    }
    HeadedFull(msgs, requestId);
    StrippedIs(h, received, order);
    assert h[..|order|] == h;
    SameBody(h, msgs);
  }

  lemma SizedHeads(msgs: seq<seq<Iov>>)
    requires Sized(msgs, true)
    ensures forall i :: 0 <= i < |msgs| ==> msgs[i] != []
  {
  }

  /** The body is made of what comes behind the headers. */
  lemma {:induction false} SameBody(h: seq<seq<Iov>>, msgs: seq<seq<Iov>>)
    requires |h| == |msgs| && forall i :: 0 <= i < |h| ==> h[i] != [] && msgs[i] != [] && h[i][1..] == msgs[i][1..]
    ensures Body(h, true) == Body(msgs, true)
  {
    hide Join;
    if h != [] {
      var n := |h| - 1;
      SameBody(h[..n], msgs[..n]);
    }
  }

  lemma {:induction false} StrippedIs(h: seq<seq<Iov>>, received: seq<seq<Byte>>, order: seq<nat>)
    requires Full(h) && |order| <= |h|
    requires forall j :: 0 <= j < |order| ==>
      order[j] < |received| && |received[order[j]]| >= UDP_HEADER_SIZE && received[order[j]] == Join(h[j])
    ensures Stripped(received, order) == Body(h[..|order|], true)
    decreases |order|
  {
    hide Join;
    if order != [] {
      var n := |order| - 1;
      StrippedIs(h, received, order[..n]);
      assert h[..|order|][..n] == h[..n];
      PayloadOf(h[n]);
      assert Stripped(received, order) == Stripped(received, order[..n]) + Join(h[n])[UDP_HEADER_SIZE..];
    }
  }

  lemma PayloadOf(m: seq<Iov>)
    requires m != [] && |m[0]| == UDP_HEADER_SIZE
    ensures |Join(m)| >= UDP_HEADER_SIZE && Join(m)[UDP_HEADER_SIZE..] == Join(Payload(m, true))
  {
    JoinHead(m);
  }

  lemma SeqNoOf(m: seq<Iov>, requestId: nat, i: nat, n: nat)
    requires m != [] && m[0] == Header(requestId, i, n) && i < 65536
    ensures |Join(m)| >= UDP_HEADER_SIZE && SeqNo(Join(m)) == i
  {
    JoinHead(m);
  }

  /** The first of the messages has lost its first res bytes, to the end of an entry if there
      is nothing left. */
  ghost predicate LeftOver(was: seq<seq<Iov>>, left: seq<seq<Iov>>, res: int) {
    && was != [] && |left| == |was| && left[1..] == was[1..] && 0 <= res <= |Join(was[0])|
    && Join(left[0]) == Join(was[0])[res..] && (left[0] == [] || |Join(left[0])| > 0)
  }

  ghost predicate SameEnds(a: seq<MsgHdr>, b: seq<MsgHdr>) {
    |a| == |b| && forall i :: 0 <= i < |a| ==> End(a[i]) == End(b[i])
  }

  function Datagrams(msgs: seq<seq<Iov>>): (r: seq<seq<Byte>>)
    ensures |r| == |msgs|
  {
    seq(|msgs|, i requires 0 <= i < |msgs| => Join(msgs[i]))
  }

  function Successes(takes: seq<bool>): nat {
    if takes == [] then 0 else Successes(takes[..|takes| - 1]) + if takes[|takes| - 1] then 1 else 0
  }

  lemma {:induction false} SuccessesGrow(takes: seq<bool>, k: nat)
    requires k <= |takes|
    ensures Successes(takes[..k]) <= Successes(takes)
    decreases |takes|
  {
    if k < |takes| {
      assert takes[..|takes| - 1][..k] == takes[..k];
      SuccessesGrow(takes[..|takes| - 1], k);
    } else {
      assert takes[..k] == takes;
    }
  }

  function Least(x: nat, y: nat): nat { if x < y then x else y }

  /** n datagrams of h have been sent; the last one of them may not have been skipped yet. */
  predicate Gone(h: seq<seq<Iov>>, left: seq<seq<Iov>>, n: nat) {
    n <= |h| && (left == h[n..] || (n > 0 && left == [[]] + h[n..]))
  }

  /** Every datagram has something to send: its header. */
  ghost predicate Full(h: seq<seq<Iov>>) {
    forall i :: 0 <= i < |h| ==> h[i] != [] && |h[i][0]| == UDP_HEADER_SIZE && |Join(h[i])| >= UDP_HEADER_SIZE
  }

  lemma HeadedFull(was: seq<seq<Iov>>, requestId: nat)
    requires forall i :: 0 <= i < |was| ==> was[i] != []
    ensures Full(Headed(was, requestId))
  {
    hide Header, Join;
    var h := Headed(was, requestId);
    forall i | 0 <= i < |h| ensures |Join(h[i])| >= UDP_HEADER_SIZE { JoinHead(h[i]); }
  }

  /** Building the headers again changes nothing. */
  lemma Rebuilt(was: seq<seq<Iov>>, left: seq<seq<Iov>>, requestId: nat, first: bool, n: nat)
    requires Roomy(was) && (forall i :: 0 <= i < |was| ==> was[i] != []) && |left| == |was|
    requires if first then left == was && n == 0 else Gone(Headed(was, requestId), left, n)
    ensures Roomy(left) && Gone(Headed(was, requestId), Headed(left, requestId), n)
  {
    hide Header;
    var h := Headed(was, requestId);
    if !first {
      assert n == 0 || n == 1;
      if n == 0 { assert h[0..] == h; assert Headed(left, requestId) == h; }
      else { assert Headed(left, requestId) == left; }
    }
  }

  lemma OneSent(h: seq<seq<Iov>>, before: seq<seq<Iov>>, after: seq<seq<Iov>>, n: nat)
    requires Full(h) && Gone(h, before, n)
    ensures n <= |h| && (Skipped(before) == [] <==> n == |h|)
    ensures n < |h| ==> |Offered(before)| > 0
    ensures after == Skipped(before) ==> Gone(h, after, n)
    ensures LeftOver(Skipped(before), after, |Offered(before)|) ==> n < |h| && Gone(h, after, n + 1)
  {
    hide Join;
    var v := Skipped(before);
    assert ([[]] + h[n..])[1..] == h[n..];
    assert v == h[n..];
    if LeftOver(v, after, |Offered(before)|) {
      assert after[0] == [] by { assert |Join(after[0])| == 0; }
      assert after == [[]] + after[1..] && v[1..] == h[n + 1..];
    }
  }

  lemma SameEndsRefl(a: seq<MsgHdr>) ensures SameEnds(a, a) {}

  lemma SameEndsTrans(a: seq<MsgHdr>, b: seq<MsgHdr>, c: seq<MsgHdr>)
    requires SameEnds(a, b) && SameEnds(b, c)
    ensures SameEnds(a, c)
  {
  }

  lemma SentAll(left: seq<seq<Iov>>)
    ensures left == [] ==> Bytes(left) == []
  {
  }

  lemma ConsumedBytes(was: seq<seq<Iov>>, left: seq<seq<Iov>>, res: nat)
    requires was != [] && |left| == |was| && left[1..] == was[1..] && res <= |Join(was[0])|
    requires Join(left[0]) == Join(was[0])[res..] && (left[0] == [] || |Join(left[0])| > 0)
    ensures res <= |Bytes(was)| && Bytes(left) == Bytes(was)[res..]
    ensures Solid(was) ==> Solid(left)
  {
    hide Join;
    assert Bytes(left) == Join(left[0]) + Bytes(left[1..]) && Bytes(was) == Join(was[0]) + Bytes(was[1..]);
    if Solid(was) {
      forall k | 0 <= k < |left| ensures (k == 0 && left[k] == []) || |Join(left[k])| > 0 {
        if k > 0 { assert left[k] == left[1..][k - 1] == was[k]; }
      }
    }
  }

  lemma OfferedPart(left: seq<seq<Iov>>)
    ensures |Offered(left)| <= |Bytes(left)|
    ensures Solid(left) && Skipped(left) != [] ==> |Offered(left)| > 0
  {
    JoinNothing<Byte>();
  }

  datatype TransmitResult = Complete | Incomplete | SoftError | HardError

  /** A message that has been sent to the end is left behind. */
  function Skipped(left: seq<seq<Iov>>): seq<seq<Iov>> { if left != [] && left[0] == [] then left[1..] else left }

  /** What sendmsg is given. */
  function Offered(left: seq<seq<Iov>>): seq<Byte> {
    if Skipped(left) == [] then [] else Join(Skipped(left)[0])
  }

  /** All bytes of the messages, headers included. */
  function Bytes(left: seq<seq<Iov>>): seq<Byte> {
    if left == [] then [] else Join(left[0]) + Bytes(left[1..])
  }

  /** Every message that has segments has bytes. */
  ghost predicate Solid(left: seq<seq<Iov>>) {
    forall k :: 0 <= k < |left| ==> (k == 0 && left[k] == []) || |Join(left[k])| > 0
  }

  /** Every datagram still has its header slot, but the first may have been sent. */
  ghost predicate Roomy(left: seq<seq<Iov>>) {
    forall i :: 0 <= i < |left| ==> (i == 0 && left[i] == []) || (left[i] != [] && |left[i][0]| == UDP_HEADER_SIZE)
  }

  /** The datagrams with their headers filled in. */
  function Headed(left: seq<seq<Iov>>, requestId: nat): (r: seq<seq<Iov>>)
    ensures |r| == |left|
  {
    seq(|left|, i requires 0 <= i < |left| =>
      if left[i] == [] then [] else [Header(requestId, i, |left|)] + left[i][1..])
  }

  /** Where a message ends in the array. */
  function End(m: MsgHdr): nat { m.first + m.iovlen }

  /** m delimits the segments segs, the first of which may differ. */
  ghost predicate CoversRest(m: MsgHdr, base: array<Iov>, a: seq<Iov>, segs: seq<Iov>) {
    && m.base == base && m.iovlen == |segs| && m.first + m.iovlen <= |a|
    && (segs != [] ==> a[m.first + 1..m.first + m.iovlen] == segs[1..])
  }

  /** Before round i of build_udp_headers. */
  ghost predicate Writing(l: seq<MsgHdr>, base: array<Iov>, a: seq<Iov>, was: seq<seq<Iov>>, requestId: nat, i: nat) {
    && |was| <= |l|
    && (forall j :: 0 <= j < i && j < |was| ==> Covers(l[j], base, a, Headed(was, requestId)[j]))
    && (forall j :: i <= j < |was| ==> CoversRest(l[j], base, a, was[j]))
  }

  lemma RestCovered(l: seq<MsgHdr>, base: array<Iov>, a: seq<Iov>, was: seq<seq<Iov>>)
    requires |was| <= |l| && forall j :: 0 <= j < |was| ==> Covers(l[j], base, a, was[j])
    ensures forall j :: 0 <= j < |was| ==> CoversRest(l[j], base, a, was[j])
  {
    forall j | 0 <= j < |was| ensures CoversRest(l[j], base, a, was[j]) {
      var m := l[j];
      if was[j] != [] { assert a[m.first..m.first + m.iovlen][1..] == a[m.first + 1..m.first + m.iovlen]; }
    }
  }

  /** One behind the other. */
  ghost predicate Behind(l: seq<MsgHdr>, was: seq<seq<Iov>>) {
    |was| <= |l| && forall i, j :: 0 <= i < j < |was| ==> End(l[i]) <= l[j].first
  }

  /** At most the first one empty. */
  ghost predicate Apart(l: seq<MsgHdr>, was: seq<seq<Iov>>) {
    Behind(l, was) && forall j :: 0 < j < |was| ==> was[j] != []
  }

  lemma RoomyApart(l: seq<MsgHdr>, left: seq<seq<Iov>>)
    requires Behind(l, left) && Roomy(left)
    ensures Apart(l, left)
  {
  }

  lemma FirstInside(l: seq<MsgHdr>, base: array<Iov>, a: seq<Iov>, was: seq<seq<Iov>>, requestId: nat, i: nat)
    requires Apart(l, was) && i < |was| && Writing(l, base, a, was, requestId, i)
    requires |was| == 1 && was[0] == [] ==> l[0].first < |a|
    ensures l[i].base == base && l[i].first < |a|
  {
    assert CoversRest(l[i], base, a, was[i]);
    if was[i] == [] && |was| > 1 { assert CoversRest(l[1], base, a, was[1]); }
  }

  /** The header of message i changes no other message that has its header already, and of
      the others at most the slot that is still to be written. */
  lemma HeaderWritten(l: seq<MsgHdr>, base: array<Iov>, a: seq<Iov>, was: seq<seq<Iov>>, requestId: nat, i: nat)
    requires Apart(l, was) && i < |was| && l[i].first < |a| && Writing(l, base, a, was, requestId, i)
    ensures Writing(l, base, a[l[i].first := Header(requestId, i, |was|)], was, requestId, i + 1)
  {
    hide Header, Covers, CoversRest;
    var (k, h) := (l[i].first, Header(requestId, i, |was|));
    forall j | 0 <= j <= i ensures Covers(l[j], base, a[k := h], Headed(was, requestId)[j]) {
      if j < i {
        CoversBelow(l[j], base, a, Headed(was, requestId)[j], k, h);
      } else {
        HeaderPut(l[i], base, a, was[i], h);
      }
    }
    forall j | i < j < |was| ensures CoversRest(l[j], base, a[k := h], was[j]) {
      RestApart(l[j], base, a, was[j], k, h);
    }
  }

  lemma AllWritten(l: seq<MsgHdr>, base: array<Iov>, a: seq<Iov>, was: seq<seq<Iov>>, requestId: nat)
    requires Apart(l, was) && Writing(l, base, a, was, requestId, |was|)
    ensures Apart(l, Headed(was, requestId))
    ensures forall j :: 0 <= j < |was| ==> Covers(l[j], base, a, Headed(was, requestId)[j])
  {
  }

  lemma CoversBelow(m: MsgHdr, base: array<Iov>, a: seq<Iov>, segs: seq<Iov>, k: nat, v: Iov)
    requires Covers(m, base, a, segs) && End(m) <= k < |a|
    ensures Covers(m, base, a[k := v], segs)
  {
  }

  lemma RestApart(m: MsgHdr, base: array<Iov>, a: seq<Iov>, segs: seq<Iov>, k: nat, v: Iov)
    requires CoversRest(m, base, a, segs) && k <= m.first && k < |a|
    ensures CoversRest(m, base, a[k := v], segs)
  {
  }

  lemma HeaderPut(m: MsgHdr, base: array<Iov>, a: seq<Iov>, segs: seq<Iov>, h: Iov)
    requires CoversRest(m, base, a, segs) && m.first < |a|
    ensures Covers(m, base, a[m.first := h], if segs == [] then [] else [h] + segs[1..])
  {
    var b := a[m.first := h];
    if segs != [] {
      assert b[m.first + 1..m.first + m.iovlen] == a[m.first + 1..m.first + m.iovlen];
      assert b[m.first..m.first + m.iovlen] == [h] + b[m.first + 1..m.first + m.iovlen];
    }
  }

  /** m delimits the segments segs of the array `base` with contents `a`. */
  ghost predicate Covers(m: MsgHdr, base: array<Iov>, a: seq<Iov>, segs: seq<Iov>) {
    m.base == base && m.iovlen == |segs| && m.first + m.iovlen <= |a| && a[m.first..m.first + m.iovlen] == segs
  }

  lemma OffsetCovers(msgs: seq<seq<Iov>>, base: array<Iov>, a: seq<Iov>, i: nat)
    requires i < |msgs| && |Join(msgs)| <= |a| && a[..|Join(msgs)|] == Join(msgs)
    ensures Covers(MsgHdr(base, Offset(msgs, i), |msgs[i]|), base, a, msgs[i])
  {
    OffsetSlice(msgs, i);
    var (x, y) := (Offset(msgs, i), Offset(msgs, i) + |msgs[i]|);
    PrefixSlice(a, |Join(msgs)|, x, y);
  }

  /** The messages of a finished reply lie one behind the other. */
  lemma Laid(msgs: seq<seq<Iov>>, base: array<Iov>, a: seq<Iov>, l: seq<MsgHdr>)
    requires |Join(msgs)| <= |a| && a[..|Join(msgs)|] == Join(msgs)
    requires |msgs| <= |l| && forall i :: 0 <= i < |msgs| ==> l[i] == MsgHdr(base, Offset(msgs, i), |msgs[i]|)
    ensures forall i :: 0 <= i < |msgs| ==> Covers(l[i], base, a, msgs[i])
    ensures Behind(l, msgs)
  {
    hide Join, Offset, Covers;
    forall i | 0 <= i < |msgs| ensures Covers(l[i], base, a, msgs[i]) { OffsetCovers(msgs, base, a, i); }
    forall i, j | 0 <= i < j < |msgs| ensures End(l[i]) <= l[j].first {
      OffsetMore(msgs, i);
      OffsetMonotone(msgs, i + 1, j);
    }
  }

  lemma PrefixSlice<T>(a: seq<T>, n: nat, x: nat, y: nat)
    requires x <= y <= n <= |a|
    ensures a[..n][x..y] == a[x..y]
  {
  }

  lemma CoversTail(m: MsgHdr, base: array<Iov>, a: seq<Iov>, segs: seq<Iov>)
    requires Covers(m, base, a, segs) && segs != []
    ensures Covers(MsgHdr(m.base, m.first + 1, m.iovlen - 1), base, a, segs[1..])
  {
  }

  lemma FirstSegment(m: MsgHdr, base: array<Iov>, a: seq<Iov>, segs: seq<Iov>)
    requires Covers(m, base, a, segs)
    ensures m.base == base && m.iovlen == |segs| && (segs != [] ==> m.first < |a| && a[m.first] == segs[0])
  {
    assert segs != [] ==> a[m.first..m.first + m.iovlen][0] == a[m.first];
  }

  lemma CoversHead(m: MsgHdr, base: array<Iov>, a: seq<Iov>, segs: seq<Iov>, n: nat)
    requires Covers(m, base, a, segs) && segs != [] && n <= |segs[0]|
    ensures m.first < |a| && a[m.first] == segs[0]
    ensures Covers(m, base, a[m.first := segs[0][n..]], [segs[0][n..]] + segs[1..])
  {
    FirstSegment(m, base, a, segs);
  }

  lemma CoversApart(m: MsgHdr, base: array<Iov>, a: seq<Iov>, segs: seq<Iov>, k: nat, v: Iov)
    requires Covers(m, base, a, segs) && k < m.first && k < |a|
    ensures Covers(m, base, a[k := v], segs)
  {
  }

  lemma ShorterJoin(segs: seq<Iov>, n: nat)
    requires segs != [] && n <= |segs[0]|
    ensures n <= |Join(segs)| && Join([segs[0][n..]] + segs[1..]) == Join(segs)[n..]
  {
    JoinHead(segs);
    JoinHead([segs[0][n..]] + segs[1..]);
    assert ([segs[0][n..]] + segs[1..])[1..] == segs[1..];
  }

  lemma JoinNothing<T>()
    ensures Join<T>([]) == []
  {
  }

  lemma OffsetSlice(msgs: seq<seq<Iov>>, k: nat)
    requires k < |msgs|
    ensures Offset(msgs, k) + |msgs[k]| <= |Join(msgs)|
    ensures Join(msgs)[Offset(msgs, k)..Offset(msgs, k) + |msgs[k]|] == msgs[k]
  {
    assert msgs == msgs[..k] + msgs[k..];
    JoinSplit(msgs[..k], msgs[k..]);
    JoinHead(msgs[k..]);
  }

  lemma {:induction false} OffsetMonotone(msgs: seq<seq<Iov>>, j: nat, k: nat)
    requires j <= k <= |msgs|
    ensures Offset(msgs, j) <= Offset(msgs, k)
  {
    if j < k {
      OffsetMonotone(msgs, j, k - 1);
      OffsetMore(msgs, k - 1);
    }
  }

  lemma Regroup(a: seq<Byte>, b: seq<Byte>, k: nat)
    requires k <= |b|
    ensures a + b[..k] + b[k..] == a + b
  {
    assert b[..k] + b[k..] == b;
  }

  lemma ExtendsTrans(a: seq<seq<Iov>>, b: seq<seq<Iov>>, c: seq<seq<Iov>>)
    requires Extends(a, b) && Extends(b, c)
    ensures Extends(a, c)
  {
  }

  /** The eight bytes in front of a datagram: request, sequence number, number of datagrams. */
  function Header(requestId: nat, i: nat, n: nat): (h: Iov)
    ensures |h| == UDP_HEADER_SIZE
  {
    [Octet(requestId / 256), Octet(requestId), Octet(i / 256), Octet(i), Octet(n / 256), Octet(n), 0, 0]
  }

  /** Two bytes of a datagram, most significant first. */
  function Short(d: seq<Byte>, k: nat): nat
    requires k + 1 < |d|
  {
    var (high: nat, low: nat) := (d[k], d[k + 1]);
    high * 256 + low
  }

  /** The frame header as protocol.txt has it: request id, sequence number, number of datagrams
      in 16 bits each, and a field that is 0; below 2^16 nothing is cut off. */
  lemma HeaderLaw(requestId: nat, i: nat, n: nat)
    ensures var h := Header(requestId, i, n);
      && Short(h, 0) == requestId % 0x1_0000 && Short(h, 2) == i % 0x1_0000 && Short(h, 4) == n % 0x1_0000
      && Short(h, 6) == 0 && SeqNo(h) == Short(h, 2)
  {
  }

  /** The sequence number a client reads out of a datagram. */
  function SeqNo(d: seq<Byte>): nat
    requires |d| >= UDP_HEADER_SIZE
  {
    var (high: nat, low: nat) := (d[2], d[3]);
    high * 256 + low
  }

  /** Messages are only added to at the end. */
  ghost predicate Extends(a: seq<seq<Iov>>, b: seq<seq<Iov>>) {
    && |a| <= |b|
    && (a != [] ==> a[..|a| - 1] == b[..|a| - 1] && a[|a| - 1] <= b[|a| - 1])
  }

  lemma ExtendsRefl(a: seq<seq<Iov>>) ensures Extends(a, a) {}

  lemma ExtendsMore(a: seq<seq<Iov>>, b: seq<seq<Iov>>, m: seq<Iov>)
    requires Extends(a, b)
    ensures Extends(a, b + [m])
  {
  }

  lemma ExtendsLonger(a: seq<seq<Iov>>, b: seq<seq<Iov>>, piece: Iov)
    requires Extends(a, b) && b != []
    ensures Extends(a, Longer(b, piece))
  {
  }

  lemma SizedLast(msgs: seq<seq<Iov>>, udp: bool)
    requires Sized(msgs, udp) && msgs != []
    ensures udp ==> msgs[|msgs| - 1] != []
    ensures |msgs[|msgs| - 1]| <= IOV_MAX
    ensures Limited(udp, |msgs| - 1) ==> |Join(msgs[|msgs| - 1])| <= UDP_MAX_PAYLOAD_SIZE
  {
  }

  lemma SizedLonger(msgs: seq<seq<Iov>>, udp: bool, piece: Iov)
    requires Sized(msgs, udp) && msgs != [] && |msgs[|msgs| - 1]| < IOV_MAX
    requires Limited(udp, |msgs| - 1) ==> |Join(msgs[|msgs| - 1])| + |piece| <= UDP_MAX_PAYLOAD_SIZE
    ensures Sized(Longer(msgs, piece), udp)
  {
    JoinMore(msgs[|msgs| - 1], piece);
  }

  lemma BodyNewMessage(msgs: seq<seq<Iov>>, udp: bool)
    ensures Body(msgs + [if udp then [NO_HEADER] else []], udp) == Body(msgs, udp)
    ensures Join([NO_HEADER]) == NO_HEADER && Join<Byte>([]) == []
  {
    var m := if udp then [NO_HEADER] else [];
    assert (msgs + [m])[..|msgs|] == msgs;
    assert Payload(m, udp) == [];
    assert [NO_HEADER][..0] == [];
  }
}
