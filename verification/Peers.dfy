/** Setting up the connections between ramcube nodes: of two peers the one with the greater
    address connects first, the other connects back.  One role (backup, ping, coordinator)
    at a time; the roles use separate arrays and do not interact. */
module Peers {
  import opened Seqs

  const MAX_NEIGHBORS: nat := 128

  type Word = w: nat | w < 0x1_0000_0000

  /** What inet_aton makes of an address, and a port. */
  datatype Addr = Addr(ip: Word, port: nat)

  /** Assigning a 32-bit unsigned number to an int. */
  function Signed(w: Word): int {
    var x: int := w;
    if x < 0x8000_0000 then x else x - 0x1_0000_0000
  }

  /** inet_addr_compare. */
  function Compare(x: Addr, y: Addr): (r: int) {
    if Signed(x.ip) < Signed(y.ip) then -1
    else if Signed(x.ip) > Signed(y.ip) then 1
    else if x.port < y.port then -1
    else if x.port > y.port then 1
    else 0
  }

  predicate Less(x: Addr, y: Addr) { Compare(x, y) < 0 }

  /** The comparison is a strict total order, the same seen from either side, although it
      compares addresses as signed numbers in network byte order. */
  lemma CompareIsOrder(x: Addr, y: Addr, z: Addr)
    ensures Compare(x, y) == 0 <==> x == y
    ensures Compare(x, y) == 0 - Compare(y, x)
    ensures Less(x, y) && Less(y, z) ==> Less(x, z)
    ensures x == y || Less(x, y) || Less(y, x)
  {
  }

  /** The number inet_aton makes of a.b.c.d on a little-endian machine. */
  function Inet(a: Octet, b: Octet, c: Octet, d: Octet): Word { a + 0x100 * b + 0x1_0000 * c + 0x100_0000 * d }

  type Octet = b: nat | b < 0x100

  /** On the octets: the last one decides first, from 128 on it counts as negative, then the
      others from right to left, then the ports. */
  lemma LastOctetFirst(a: Octet, b: Octet, c: Octet, d: Octet, e: Octet, f: Octet, g: Octet, h: Octet, p: nat, q: nat)
    ensures Less(Addr(Inet(a, b, c, d), p), Addr(Inet(e, f, g, h), q)) <==>
      if d != h then (if (d < 128) == (h < 128) then d < h else d >= 128)
      else if c != g then c < g
      else if b != f then b < f
      else if a != e then a < e
      else p < q
  {
  }

  // ----- one node

  datatype Node = Node(peers: seq<Addr>, outs: seq<Addr>, ins: seq<Addr>, started: bool)

  function Smaller(me: Addr, peers: seq<Addr>): (s: seq<Addr>)
    ensures |s| <= |peers|
    ensures forall x :: x in s <==> x in peers && Less(x, me)
  {
    if peers == [] then [] else
      var n := |peers| - 1;
      Smaller(me, peers[..n]) + if Less(peers[n], me) then [peers[n]] else []
  }

  /** init_smaller_proxies: a TYPE message goes to every smaller peer. */
  function Started(me: Addr, n: Node): (Node, seq<Addr>) {
    var s := Smaller(me, n.peers);
    (n.(outs := n.outs + s, started := true), s)
  }

  /** push_back_proxy: a connection that finds no slot is not recorded. */
  function Pushed(l: seq<Addr>, peer: Addr): seq<Addr> { if |l| < MAX_NEIGHBORS then l + [peer] else l }

  /** process_command_TYPE from `peer`, and to whom this node connects because of it. */
  function Accepted(me: Addr, n: Node, peer: Addr): (Node, seq<Addr>) {
    if peer !in n.peers then (n, [])
    else
      var back := if Less(me, peer) then [peer] else [];
      (n.(ins := Pushed(n.ins, peer), outs := n.outs + back), back)
  }

  lemma SmallerNone(me: Addr)
    ensures Smaller(me, []) == []
  {
  }

  lemma SmallerMore(me: Addr, peers: seq<Addr>, i: nat)
    requires i < |peers|
    ensures Smaller(me, peers[..i + 1])
        == Smaller(me, peers[..i]) + if Compare(me, peers[i]) > 0 then [peers[i]] else []
  {
    assert peers[..i + 1][..i] == peers[..i];
    CompareIsOrder(me, peers[i], me);
  }

  lemma {:induction false} SmallerGrows(me: Addr, peers: seq<Addr>, i: nat)
    requires i <= |peers|
    ensures |Smaller(me, peers[..i])| <= |Smaller(me, peers)|
    decreases |peers|
  {
    if i < |peers| {
      assert peers[..|peers| - 1][..i] == peers[..i];
      SmallerGrows(me, peers[..|peers| - 1], i);
    } else {
      assert peers[..i] == peers;
    }
  }

  /** An array of pointers that ends at the first NULL. */
  ghost predicate Spells(a: seq<Option<Addr>>, l: seq<Addr>) {
    && |l| <= |a|
    && (forall i :: 0 <= i < |l| ==> a[i] == Some(l[i]))
    && (forall i :: |l| <= i < |a| ==> a[i] == None)
  }

  class Tables {
    const me: Addr
    const sins: array<Option<Addr>>
    const outs: array<Option<Addr>>
    const ins: array<Option<Addr>>
    ghost var node: Node

    ghost predicate Valid()
      reads this, sins, outs, ins
    {
      && sins.Length == outs.Length == ins.Length == MAX_NEIGHBORS
      && sins != outs && sins != ins && outs != ins
      && Spells(sins[..], node.peers) && Spells(outs[..], node.outs) && Spells(ins[..], node.ins)
    }

    /** push_back_proxy: -1 when the array is full. */
    method PushBackProxy(proxies: array<Option<Addr>>, cp: Addr, ghost l: seq<Addr>) returns (r: int)
      requires proxies.Length == MAX_NEIGHBORS && Spells(proxies[..], l)
      modifies proxies
      ensures r == if |l| < MAX_NEIGHBORS then 0 else -1
      ensures Spells(proxies[..], Pushed(l, cp))
    {
      var i := 0;
      while i < MAX_NEIGHBORS
        invariant i <= |l| && Spells(proxies[..], l)
      {
        if proxies[i] == None {
          proxies[i] := Some(cp);
          return 0;
        }
        i := i + 1;
      }
      r := -1;
    }

    /** connect_and_return_ConnProxy, for a connection that can be started; it asserts that
        there is a slot. */
    method Connect(peer: Addr)
      requires Valid() && |node.outs| < MAX_NEIGHBORS
      modifies this, outs
      ensures Valid() && node == old(node).(outs := old(node).outs + [peer])
    {
      var rtn := PushBackProxy(outs, peer, node.outs);
      assert rtn == 0;
      node := node.(outs := node.outs + [peer]);
    }

    method InitSmallerProxies() returns (sent: seq<Addr>)
      requires Valid() && |node.outs| + |Smaller(me, node.peers)| <= MAX_NEIGHBORS
      modifies this, outs
      ensures Valid() && node == Started(me, old(node)).0 && sent == Started(me, old(node)).1
    {
      hide Compare, Less, Smaller;
      sent := [];
      ghost var n := node;
      var i := 0;
      SmallerNone(me);
      while i < MAX_NEIGHBORS && sins[i] != None
        invariant i <= |n.peers| && Valid()
        invariant sent == Smaller(me, n.peers[..i]) && node == n.(outs := n.outs + sent)
      {
        SmallerMore(me, n.peers, i);
        SmallerGrows(me, n.peers, i + 1);
        var peer := sins[i].value;
        if Compare(me, peer) > 0 {
          Connect(peer);
          sent := sent + [peer];
        }
        i := i + 1;
      }
      assert n.peers[..i] == n.peers;
      node := node.(started := true);
      assert sent == Smaller(me, n.peers);
      assert node == Started(me, n).0;
    }

    method ProcessCommandType(peer: Addr) returns (ok: bool, sent: seq<Addr>)
      requires Valid() && (peer in node.peers && Less(me, peer) ==> |node.outs| < MAX_NEIGHBORS)
      modifies this, outs, ins
      ensures Valid() && node == Accepted(me, old(node), peer).0 && sent == Accepted(me, old(node), peer).1
      ensures ok <==> peer in old(node).peers
    {
      ghost var n := node;
      assert n.outs + [] == n.outs;
      var isMyPeer, i := false, 0;
      sent := [];
      while i < MAX_NEIGHBORS && sins[i] != None
        invariant i <= |n.peers| && !isMyPeer && peer !in n.peers[..i]
      {
        if sins[i].value == peer {
          isMyPeer := true;
          break;
        }
        i := i + 1;
      }
      if !isMyPeer {
        assert node.peers[..i] == node.peers;
        return false, [];
      }
      var _ := PushBackProxy(ins, peer, node.ins);
      node := node.(ins := Pushed(node.ins, peer));
      if Compare(me, peer) < 0 {
        Connect(peer);
        sent := [peer];
      }
      ok := true;
    }

    /** get_backup_proxy_by_key: the hash picks one of the outgoing connections. */
    method GetBackupProxyByKey(hv: nat) returns (cp: Option<Addr>)
      requires Valid()
      ensures cp == if node.outs == [] then None else Some(node.outs[hv % |node.outs|])
    {
      var i := 0;
      while i < MAX_NEIGHBORS && outs[i] != None
        invariant i <= |node.outs|
      {
        i := i + 1;
      }
      if i == 0 { return None; }
      cp := outs[hv % i];
    }
  }

  // ----- the network

  /** All nodes, and the TYPE messages on their way, as sender and receiver. */
  datatype Net = Net(nodes: map<Addr, Node>, flight: multiset<(Addr, Addr)>)

  datatype Step = Boot(me: Addr) | Deliver(from: Addr, me: Addr)

  function Messages(me: Addr, to: seq<Addr>): multiset<(Addr, Addr)> {
    if to == [] then multiset{} else
      var n := |to| - 1;
      Messages(me, to[..n]) + multiset{(me, to[n])}
  }

  lemma {:induction false} MessagesCount(me: Addr, to: seq<Addr>, x: Addr, y: Addr)
    ensures Messages(me, to)[(x, y)] == if x == me then multiset(to)[y] else 0
  {
    if to != [] {
      var n := |to| - 1;
      MessagesCount(me, to[..n], x, y);
      assert to == to[..n] + [to[n]];
    }
  }

  predicate Enabled(w: Net, s: Step) {
    match s
    case Boot(a) => a in w.nodes && !w.nodes[a].started
    case Deliver(x, y) => (x, y) in w.flight && y in w.nodes && w.nodes[y].started
  }

  function Next(w: Net, s: Step): Net
    requires Enabled(w, s)
  {
    match s
    case Boot(a) =>
      var (n, sent) := Started(a, w.nodes[a]);
      Net(w.nodes[a := n], w.flight + Messages(a, sent))
    case Deliver(x, y) =>
      var (n, sent) := Accepted(y, w.nodes[y], x);
      Net(w.nodes[y := n], w.flight - multiset{(x, y)} + Messages(y, sent))
  }

  /** How often x occurs. */
  function Times(l: seq<Addr>, x: Addr): nat { multiset(l)[x] }

  /** The two nodes of a pair, big has the greater address; the messages between them. */
  ghost predicate Settled(big: Addr, small: Addr, a: Node, b: Node, down: nat, up: nat) {
    && Times(a.outs, small) == (if a.started && small in a.peers then 1 else 0)
    && (if big in b.peers then Times(a.outs, small) == Times(b.ins, big) + down
        else Times(b.ins, big) == 0 && down <= Times(a.outs, small))
    && Times(b.outs, big) == Times(b.ins, big)
    && Times(b.outs, big) == Times(a.ins, small) + up
  }

  ghost predicate Alone(me: Addr, n: Node, flight: multiset<(Addr, Addr)>) {
    Times(n.outs, me) == 0 && Times(n.ins, me) == 0 && flight[(me, me)] == 0
  }

  /** The array of peers: no address twice, and no more than there is room for. */
  ghost predicate Listed(peers: seq<Addr>) { NoDup(peers) && |peers| <= MAX_NEIGHBORS }

  /** What holds between every two nodes at all times. */
  ghost predicate Inv(w: Net) {
    && (forall a :: a in w.nodes ==> Listed(w.nodes[a].peers) && Alone(a, w.nodes[a], w.flight))
    && (forall a, x :: a in w.nodes && x in w.nodes[a].peers ==> x in w.nodes)
    && (forall a, x :: a in w.nodes && (x in w.nodes[a].outs || x in w.nodes[a].ins) ==> x in w.nodes)
    && (forall x, y :: (x, y) in w.flight ==> x in w.nodes && y in w.nodes)
    && (forall a, b :: a in w.nodes && b in w.nodes && Less(b, a) ==>
          Settled(a, b, w.nodes[a], w.nodes[b], w.flight[(a, b)], w.flight[(b, a)]))
  }

  /** Before anything has happened.  Every listed peer runs a node. */
  ghost predicate Initial(w: Net) {
    && w.flight == multiset{}
    && (forall a :: a in w.nodes ==>
          Listed(w.nodes[a].peers) && w.nodes[a].outs == [] && w.nodes[a].ins == [] && !w.nodes[a].started)
    && (forall a, x :: a in w.nodes && x in w.nodes[a].peers ==> x in w.nodes)
  }

  lemma InitialInv(w: Net)
    requires Initial(w)
    ensures Inv(w)
  {
  }

  lemma TimesAppend(l: seq<Addr>, m: seq<Addr>, x: Addr)
    ensures Times(l + m, x) == Times(l, x) + Times(m, x)
  {
  }

  lemma TimesOne(y: Addr, x: Addr)
    ensures Times([y], x) == if x == y then 1 else 0
    ensures Times([], x) == 0
  {
  }

  lemma {:induction false} TimesSmaller(me: Addr, peers: seq<Addr>, x: Addr)
    requires NoDup(peers)
    ensures Times(Smaller(me, peers), x) == if x in peers && Less(x, me) then 1 else 0
  {
    if peers != [] {
      var n := |peers| - 1;
      TimesSmaller(me, peers[..n], x);
      TimesAppend(Smaller(me, peers[..n]), if Less(peers[n], me) then [peers[n]] else [], x);
      TimesOne(peers[n], x);
      assert x in peers <==> x in peers[..n] || x == peers[n];
    }
  }

  lemma BootPair(w: Net, c: Addr, a: Addr, b: Addr)
    requires Inv(w) && Enabled(w, Boot(c)) && a in w.nodes && b in w.nodes && Less(b, a)
    ensures var v := Next(w, Boot(c)); Settled(a, b, v.nodes[a], v.nodes[b], v.flight[(a, b)], v.flight[(b, a)])
  {
    hide Compare, Smaller;
    var sent := Smaller(c, w.nodes[c].peers);
    CompareIsOrder(a, b, a);
    MessagesCount(c, sent, a, b);
    MessagesCount(c, sent, b, a);
    TimesSmaller(c, w.nodes[c].peers, a);
    TimesSmaller(c, w.nodes[c].peers, b);
    TimesAppend(w.nodes[c].outs, sent, a);
    TimesAppend(w.nodes[c].outs, sent, b);
  }

  lemma BootInv(w: Net, c: Addr)
    requires Inv(w) && Enabled(w, Boot(c))
    ensures Inv(Next(w, Boot(c)))
  {
    hide Compare, Smaller, Settled;
    var v := Next(w, Boot(c));
    var sent := Smaller(c, w.nodes[c].peers);
    forall a | a in w.nodes ensures Alone(a, v.nodes[a], v.flight) {
      CompareIsOrder(c, a, c);
      MessagesCount(c, sent, a, a);
      TimesSmaller(c, w.nodes[c].peers, a);
      TimesAppend(w.nodes[c].outs, sent, a);
    }
    forall x, y | (x, y) in v.flight ensures x in v.nodes && y in v.nodes {
      MessagesCount(c, sent, x, y);
      assert y in sent || (x, y) in w.flight;
    }
    forall a, b | a in w.nodes && b in w.nodes && Less(b, a)
      ensures Settled(a, b, v.nodes[a], v.nodes[b], v.flight[(a, b)], v.flight[(b, a)])
    {
      BootPair(w, c, a, b);
    }
  }

  lemma {:induction false} Fits(l: seq<Addr>, m: seq<Addr>)
    requires forall x :: Times(l, x) <= 1
    requires forall x :: x in l ==> x in m
    ensures |l| <= |m|
    decreases |l|
  {
    if l != [] {
      var n := |l| - 1;
      var x := l[n];
      assert l == l[..n] + [x];
      forall y ensures Times(l[..n], y) <= 1 && (y in l[..n] ==> y in Without(m, x)) {
        TimesAppend(l[..n], [x], y);
        TimesOne(x, y);
        if y in l[..n] {
          assert Times(l[..n], y) >= 1;
          StaysIn(m, x, y);
        }
      }
      Fits(l[..n], Without(m, x));
    }
  }

  lemma StaysIn(m: seq<Addr>, x: Addr, y: Addr)
    requires y in m && y != x
    ensures y in Without(m, x)
  {
    if x in m {
      var i := IndexOf(m, x);
      var j := IndexOf(m, y);
      assert Without(m, x)[if j < i then j else j - 1] == y;
    }
  }

  lemma ListedPeer(w: Net, y: Addr, x: Addr)
    requires Inv(w) && y in w.nodes
    ensures Times(w.nodes[y].outs, x) <= 1 && Times(w.nodes[y].ins, x) <= 1
    ensures x in w.nodes[y].outs || x in w.nodes[y].ins ==> x in w.nodes[y].peers
  {
    hide Compare;
    CompareIsOrder(x, y, x);
    if x in w.nodes {
      if Less(x, y) {
        assert Settled(y, x, w.nodes[y], w.nodes[x], w.flight[(y, x)], w.flight[(x, y)]);
      } else if Less(y, x) {
        assert Settled(x, y, w.nodes[x], w.nodes[y], w.flight[(x, y)], w.flight[(y, x)]);
      } else {
        assert Alone(y, w.nodes[y], w.flight);
      }
    }
  }

  /** A message from a smaller node answers one of ours, so it comes from a listed peer. */
  lemma AnswerIsExpected(w: Net, x: Addr, y: Addr)
    requires Inv(w) && Enabled(w, Deliver(x, y)) && Less(x, y)
    ensures x in w.nodes[y].peers && Times(w.nodes[y].ins, x) == 0
  {
    hide Compare;
    assert Settled(y, x, w.nodes[y], w.nodes[x], w.flight[(y, x)], w.flight[(x, y)]);
  }

  /** A message from a greater node is the first one. */
  lemma FirstContact(w: Net, x: Addr, y: Addr)
    requires Inv(w) && Enabled(w, Deliver(x, y)) && Less(y, x)
    ensures Times(w.nodes[y].ins, x) == 0 && Times(w.nodes[y].outs, x) == 0
  {
    hide Compare;
    assert Settled(x, y, w.nodes[x], w.nodes[y], w.flight[(x, y)], w.flight[(y, x)]);
  }

  /** A peer that is listed but not in l finds room in l. */
  lemma OneMoreFits(l: seq<Addr>, m: seq<Addr>, x: Addr)
    requires forall z :: Times(l, z) <= 1 && (z in l ==> z in m)
    requires Times(l, x) == 0 && x in m
    ensures |l| < |m|
  {
    forall z ensures Times(l + [x], z) <= 1 && (z in l + [x] ==> z in m) {
      TimesAppend(l, [x], z);
      TimesOne(x, z);
    }
    Fits(l + [x], m);
  }

  /** A connection that is accepted, and the one it is answered with, find a free slot. */
  lemma RoomToAccept(w: Net, x: Addr, y: Addr)
    requires Inv(w) && Enabled(w, Deliver(x, y)) && x in w.nodes[y].peers
    ensures |w.nodes[y].ins| < MAX_NEIGHBORS && (Less(y, x) ==> |w.nodes[y].outs| < MAX_NEIGHBORS)
  {
    hide Compare, Settled;
    CompareIsOrder(x, y, x);
    assert x != y by { assert Alone(y, w.nodes[y], w.flight); }
    if Less(x, y) { AnswerIsExpected(w, x, y); } else { FirstContact(w, x, y); }
    forall z ensures Times(w.nodes[y].outs, z) <= 1 && Times(w.nodes[y].ins, z) <= 1
      && (z in w.nodes[y].outs || z in w.nodes[y].ins ==> z in w.nodes[y].peers)
    {
      ListedPeer(w, y, z);
    }
    OneMoreFits(w.nodes[y].ins, w.nodes[y].peers, x);
    if Less(y, x) { OneMoreFits(w.nodes[y].outs, w.nodes[y].peers, x); }
  }

  /** A node that starts has room for all it connects to. */
  lemma RoomToStart(w: Net, y: Addr)
    requires Inv(w) && Enabled(w, Boot(y))
    ensures |w.nodes[y].outs| + |Smaller(y, w.nodes[y].peers)| <= MAX_NEIGHBORS
  {
    hide Compare, Settled;
    var (l, s) := (w.nodes[y].outs, Smaller(y, w.nodes[y].peers));
    forall z ensures Times(l + s, z) <= 1 && (z in l + s ==> z in w.nodes[y].peers) {
      ListedPeer(w, y, z);
      TimesAppend(l, s, z);
      TimesSmaller(y, w.nodes[y].peers, z);
      if z in s { NotYetConnected(w, y, z); }
    }
    Fits(l + s, w.nodes[y].peers);
  }

  lemma NotYetConnected(w: Net, y: Addr, z: Addr)
    requires Inv(w) && Enabled(w, Boot(y)) && z in w.nodes[y].peers && Less(z, y)
    ensures Times(w.nodes[y].outs, z) == 0
  {
    hide Compare;
    assert Settled(y, z, w.nodes[y], w.nodes[z], w.flight[(y, z)], w.flight[(z, y)]);
  }

  /** What accepting a connection adds to the counts. */
  lemma AcceptedCounts(y: Addr, n: Node, x: Addr, c: Addr, d: Addr)
    requires x in n.peers ==> |n.ins| < MAX_NEIGHBORS
    ensures var (m, sent) := Accepted(y, n, x); var back := x in n.peers && Less(y, x);
      && m.peers == n.peers && m.started == n.started
      && Times(m.outs, c) == Times(n.outs, c) + (if back && c == x then 1 else 0)
      && Times(m.ins, c) == Times(n.ins, c) + (if x in n.peers && c == x then 1 else 0)
      && Messages(y, sent)[(c, d)] == (if back && c == y && d == x then 1 else 0)
  {
    hide Compare, Less;
    var sent := Accepted(y, n, x).1;
    MessagesCount(y, sent, c, d);
    TimesOne(x, c);
    TimesOne(x, d);
    TimesAppend(n.outs, [x], c);
    TimesAppend(n.ins, [x], c);
    assert n.outs + [] == n.outs;
  }

  lemma DeliverPair(w: Net, x: Addr, y: Addr, a: Addr, b: Addr)
    requires Inv(w) && Enabled(w, Deliver(x, y)) && a in w.nodes && b in w.nodes && Less(b, a)
    ensures var v := Next(w, Deliver(x, y)); Settled(a, b, v.nodes[a], v.nodes[b], v.flight[(a, b)], v.flight[(b, a)])
  {
    hide Compare, Less, Accepted, Messages, Times, Alone;
    if x in w.nodes[y].peers { RoomToAccept(w, x, y); }
    CompareIsOrder(a, b, a);
    CompareIsOrder(x, y, x);
    AcceptedCounts(y, w.nodes[y], x, a, b);
    AcceptedCounts(y, w.nodes[y], x, b, a);
    assert a != b by { Irreflexive(a); }
    assert !(Less(x, y) && Less(y, x)) by { CompareIsOrder(x, y, x); Irreflexive(x); }
    assert Settled(a, b, w.nodes[a], w.nodes[b], w.flight[(a, b)], w.flight[(b, a)]);
  }

  lemma Irreflexive(x: Addr)
    ensures !Less(x, x)
  {
  }

  lemma DeliverAlone(w: Net, x: Addr, y: Addr, a: Addr)
    requires Inv(w) && Enabled(w, Deliver(x, y)) && a in w.nodes
    ensures x != y
    ensures Alone(a, Next(w, Deliver(x, y)).nodes[a], Next(w, Deliver(x, y)).flight)
  {
    hide Compare, Settled;
    CompareIsOrder(x, y, x);
    assert x != y by { assert Alone(y, w.nodes[y], w.flight); }
    var sent := Accepted(y, w.nodes[y], x).1;
    MessagesCount(y, sent, a, a);
    TimesOne(x, a);
    TimesAppend(w.nodes[y].outs, [x], a);
    TimesAppend(w.nodes[y].ins, [x], a);
    assert w.nodes[y].outs + [] == w.nodes[y].outs;
    if x in w.nodes[y].peers { RoomToAccept(w, x, y); }
    assert Alone(a, w.nodes[a], w.flight);
  }

  lemma DeliverKnown(w: Net, x: Addr, y: Addr)
    requires Inv(w) && Enabled(w, Deliver(x, y))
    ensures var v := Next(w, Deliver(x, y));
      && (forall a, p :: a in v.nodes && (p in v.nodes[a].outs || p in v.nodes[a].ins) ==> p in v.nodes)
      && (forall p, q :: (p, q) in v.flight ==> p in v.nodes && q in v.nodes)
      && v.nodes.Keys == w.nodes.Keys && (forall a :: a in v.nodes ==> v.nodes[a].peers == w.nodes[a].peers)
  {
    hide Compare, Settled, Alone, Less, Messages, Accepted;
    var v := Next(w, Deliver(x, y));
    var sent := Accepted(y, w.nodes[y], x).1;
    AcceptedKnown(y, w.nodes[y], x);
    forall p, q | (p, q) in v.flight ensures p in v.nodes && q in v.nodes {
      MessagesCount(y, sent, p, q);
      assert q in sent || (p, q) in w.flight;
    }
  }

  /** Accepting concerns only the peer it is asked by. */
  lemma AcceptedKnown(me: Addr, n: Node, peer: Addr)
    ensures var (m, sent) := Accepted(me, n, peer);
      && m.peers == n.peers
      && (forall p :: p in m.outs ==> p in n.outs || p == peer) && (forall p :: p in m.ins ==> p in n.ins || p == peer)
      && (forall p :: p in sent ==> p == peer)
  {
    hide Less;
  }

  lemma DeliverInv(w: Net, x: Addr, y: Addr)
    requires Inv(w) && Enabled(w, Deliver(x, y))
    ensures Inv(Next(w, Deliver(x, y)))
  {
    hide Compare, Settled, Alone, Less, Next;
    var v := Next(w, Deliver(x, y));
    DeliverKnown(w, x, y);
    forall a | a in w.nodes ensures Alone(a, v.nodes[a], v.flight) { DeliverAlone(w, x, y, a); }
    forall a, b | a in w.nodes && b in w.nodes && Less(b, a)
      ensures Settled(a, b, v.nodes[a], v.nodes[b], v.flight[(a, b)], v.flight[(b, a)])
    {
      DeliverPair(w, x, y, a, b);
    }
  }

  ghost predicate IsRun(w: Net, steps: seq<Step>)
    decreases |steps|
  {
    steps != [] ==> Enabled(w, steps[0]) && IsRun(Next(w, steps[0]), steps[1..])
  }

  ghost function After(w: Net, steps: seq<Step>): Net
    requires IsRun(w, steps)
    decreases |steps|
  {
    if steps == [] then w else After(Next(w, steps[0]), steps[1..])
  }

  lemma {:induction false} RunInv(w: Net, steps: seq<Step>)
    requires Inv(w) && IsRun(w, steps)
    ensures Inv(After(w, steps))
    decreases |steps|
  {
    hide Inv, Enabled, Next;
    if steps != [] {
      match steps[0]
      case Boot(c) => BootInv(w, c); RunInv(Next(w, steps[0]), steps[1..]);
      case Deliver(x, y) => DeliverInv(w, x, y); RunInv(Next(w, steps[0]), steps[1..]);
    }
  }

  /** In every run no node ever has two connections to one peer, or two from it. */
  lemma AtMostOne(w: Net, steps: seq<Step>, a: Addr, b: Addr)
    requires Initial(w) && IsRun(w, steps)
    requires a in After(w, steps).nodes && b in After(w, steps).nodes
    ensures var v := After(w, steps);
      Times(v.nodes[a].outs, b) <= 1 && Times(v.nodes[a].ins, b) <= 1 && v.flight[(a, b)] <= 1
  {
    hide Compare, Initial;
    InitialInv(w);
    RunInv(w, steps);
    CompareIsOrder(a, b, a);
    var v := After(w, steps);
    if Less(b, a) {
      assert Settled(a, b, v.nodes[a], v.nodes[b], v.flight[(a, b)], v.flight[(b, a)]);
    } else if Less(a, b) {
      assert Settled(b, a, v.nodes[b], v.nodes[a], v.flight[(b, a)], v.flight[(a, b)]);
    } else {
      assert Alone(a, v.nodes[a], v.flight);
    }
  }

  /** Once every node has started and no message is under way: two peers have exactly one
      connection in each direction, seen from both ends, if and only if each lists the
      other. */
  lemma Connected(w: Net, steps: seq<Step>, a: Addr, b: Addr)
    requires Initial(w) && IsRun(w, steps) && After(w, steps).flight == multiset{}
    requires forall c :: c in After(w, steps).nodes ==> After(w, steps).nodes[c].started
    requires a in After(w, steps).nodes && b in After(w, steps).nodes && Less(b, a)
    ensures var (x, y) := (After(w, steps).nodes[a], After(w, steps).nodes[b]);
      (Times(x.outs, b) == 1 && Times(y.ins, a) == 1 && Times(y.outs, a) == 1 && Times(x.ins, b) == 1)
      <==> (b in x.peers && a in y.peers)
  {
    hide Compare, Initial;
    InitialInv(w);
    RunInv(w, steps);
    var v := After(w, steps);
    assert Settled(a, b, v.nodes[a], v.nodes[b], v.flight[(a, b)], v.flight[(b, a)]);
  }

  /** Connecting back never goes on: the answer to an answer is nothing. */
  lemma NoEcho(w: Net, x: Addr, y: Addr)
    requires Inv(w) && Enabled(w, Deliver(x, y)) && Less(x, y)
    ensures Next(w, Deliver(x, y)).flight == w.flight - multiset{(x, y)}
  {
    CompareIsOrder(x, y, x);
  }

  // ----- the arrays are big enough

  /** No node ever runs out of slots: each array holds listed peers, each once. */
  lemma SlotsSuffice(w: Net, y: Addr)
    requires Inv(w) && y in w.nodes
    ensures forall x :: x in w.nodes[y].outs + w.nodes[y].ins ==> x in w.nodes[y].peers
    ensures |w.nodes[y].outs| <= MAX_NEIGHBORS && |w.nodes[y].ins| <= MAX_NEIGHBORS
  {
    hide Compare;
    forall x ensures Times(w.nodes[y].outs, x) <= 1 && Times(w.nodes[y].ins, x) <= 1
      && (x in w.nodes[y].outs || x in w.nodes[y].ins ==> x in w.nodes[y].peers)
    {
      ListedPeer(w, y, x);
    }
    Fits(w.nodes[y].outs, w.nodes[y].peers);
    Fits(w.nodes[y].ins, w.nodes[y].peers);
  }
}
