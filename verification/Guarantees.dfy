/** What the cache guarantees beyond the lossy map: a reader's bytes stay as they are, the
    page mover's marks stay, what is stored is not hidden by an earlier flush, and pages are
    accounted for. */
module Guarantees {
  import opened Seqs
  import opened SlabClasses
  import opened CacheState
  import opened CacheInvariant
  import opened CacheProofs
  import opened CacheOps
  import opened Commands
  import opened LossyMap
  import opened Refinement
  import opened Runs
  import D = Decimal

  // ----- bytes under a reader, marks under the mover

  /** The part of an item that item_make_header and the data read write. */
  function BytesOf(it: Item): (Key, int, string) { (it.key, it.flags, it.data) }

  predicate SameBytes(a: map<Chunk, Item>, b: map<Chunk, Item>, p: Chunk) {
    p in a ==> p in b && BytesOf(b[p]) == BytesOf(a[p]) && (a[p].clsid == MARKED ==> b[p].clsid == MARKED)
  }

  ghost predicate Kept(s: State, t: State) { forall p :: SameBytes(s.items, t.items, p) }

  /** Somebody reads from p, or the mover has emptied it. */
  predicate Used(s: State, p: Chunk) { p in s.items && (p in s.holders || s.items[p].clsid == MARKED) }

  lemma KeptTrans(s: State, t: State, u: State)
    requires Kept(s, t) && Kept(t, u)
    ensures Kept(s, u)
  {
    forall p ensures SameBytes(s.items, u.items, p) {
      assert SameBytes(s.items, t.items, p) && SameBytes(t.items, u.items, p);
    }
  }

  lemma KeptAt(s: State, t: State, u: State, p: Chunk)
    requires SameBytes(s.items, t.items, p) && Kept(t, u)
    ensures SameBytes(s.items, u.items, p)
  {
    assert SameBytes(t.items, u.items, p);
  }

  lemma KeptRelease(s: State, p: Chunk)
    requires Inv(s) && p in s.holders
    ensures Has(s, p) && Kept(s, Release(s, p))
  {
    hide Inv;
    HolderFacts(s, p);
    ChunkFacts(s, p);
  }

  lemma KeptUnlink(s: State, p: Chunk)
    requires Inv(s) && p in s.items
    ensures Has(s, p) && Kept(s, Unlink(s, p))
  {
    hide Inv;
    ChunkFacts(s, p);
  }

  lemma KeptGet(s: State, k: Key)
    requires Inv(s)
    ensures Kept(s, Get(s, k).0)
  {
    hide Inv, Kept, Unlink, Release, Hold;
    KeptRefl(s);
    if k in s.index {
      var p := s.index[k];
      InIndex(s, k);
      HoldInv(s, p);
      KeptHold(s, p);
      var h := Hold(s, p);
      UnlinkInv(h, p);
      KeptUnlink(h, p);
      StillHeld(h, p);
      KeptRelease(Unlink(h, p), p);
      KeptTrans(s, h, Unlink(h, p));
      KeptTrans(s, Unlink(h, p), Release(Unlink(h, p), p));
    }
  }

  lemma KeptRefl(s: State) ensures Kept(s, s) {}

  lemma KeptHold(s: State, p: Chunk)
    requires Has(s, p)
    ensures Kept(s, Hold(s, p)) && p in Hold(s, p).holders && p in Hold(s, p).items
  {
  }

  lemma InIndex(s: State, k: Key)
    requires Inv(s) && k in s.index
    ensures s.index[k] in s.items && s.items[s.index[k]].refcount > 0 && s.index[k] !in s.uploads && Has(s, s.index[k])
  {
    hide Memory, Pages, Lists, Accounts, Uploads, Queued, Freed, Ordered, Clock, CasIds, Mover;
    ChunkFacts(s, s.index[k]);
  }

  lemma StillHeld(s: State, p: Chunk)
    requires Inv(s) && p in s.holders && p in s.items
    ensures Has(s, p) && p in Unlink(s, p).holders
  {
    hide Inv;
    ChunkFacts(s, p);
    HolderFacts(s, p);
  }

  lemma KeptLink(s: State, p: Chunk)
    requires Has(s, p)
    ensures Kept(s, Link(s, p)) && Link(s, p).holders == s.holders
  {
  }

  lemma KeptUpdate(s: State, p: Chunk)
    requires Has(s, p)
    ensures Kept(s, Update(s, p)) && Update(s, p).holders == s.holders
  {
  }

  lemma KeptDetail(s: State, p: Chunk, it: Item)
    requires p in s.items && BytesOf(it) == BytesOf(s.items[p]) && it.clsid == s.items[p].clsid
    ensures Kept(s, s.(items := s.items[p := it]))
  {
  }

  /** A chunk that is allocated is one nobody reads, and not marked. */
  lemma AllocKeeps(s: State, key: Key, flags: int, exptime: nat, data: string, blocked: set<Key>, memOk: bool, p: Chunk)
    requires Inv(s) && |data| >= 2 && Used(s, p)
    ensures var (t, n) := ItemAlloc(s, key, flags, exptime, data, blocked, memOk);
      SameBytes(s.items, t.items, p) && Used(t, p) && s.holders <= t.holders && n != Some(p)
  {
    hide Inv, ItemAlloc;
    ItemAllocInv(s, key, flags, exptime, data, blocked, memOk);
    AllocUnmarked(s, key, flags, exptime, data, blocked, memOk);
    var (t, n) := ItemAlloc(s, key, flags, exptime, data, blocked, memOk);
    if n.Some? {
      assert s.holders[n.value] == 0;
      assert p != n.value;
    }
  }

  lemma AllocUnmarked(s: State, key: Key, flags: int, exptime: nat, data: string, blocked: set<Key>, memOk: bool)
    requires Inv(s) && |data| >= 2
    ensures var (t, n) := ItemAlloc(s, key, flags, exptime, data, blocked, memOk);
      n.Some? && n.value in s.items ==> s.items[n.value].clsid != MARKED
  {
    hide Inv, Steal, Claim, Supply;
    var c := ClsId(s.cfg.classes, NTotal(s.cfg, key, flags, |data|));
    if c != 0 {
      LruFacts(s, c);
      NewUnmarked(s, c, memOk);
      var v := Victim(s, s.lru[c], SEARCH_TRIES, blocked);
      if v.Some? { ChunkFacts(s, v.value); }
    }
  }

  lemma NewUnmarked(s: State, c: nat, memOk: bool)
    requires Inv(s) && 1 <= c < |s.slabs|
    ensures var t := Supply(s, c, memOk);
      t.Some? && t.value.free[c][0] in s.items ==> s.items[t.value.free[c][0]].clsid != MARKED
  {
    hide Inv, Supply;
    SupplyInv(s, c, memOk);
    var t := Supply(s, c, memOk);
    if t.Some? && t.value.free[c][0] in s.items {
      var p := t.value.free[c][0];
      FreeFacts(t.value, c, p);
      ChunkFacts(s, p);
    }
  }

  lemma KeptReplaceHeld(s: State, o: Chunk, p: Chunk)
    requires Inv(s) && Pair(s, o, p)
    ensures Kept(s, ReplaceHeld(s, o, p).0)
  {
    hide Inv, Kept, Unlink, Release, Link;
    ReplaceInv(s, o, p);
    UnlinkInv(s, o);
    KeptUnlink(s, o);
    KeptLink(Unlink(s, o), p);
    KeptRelease(Replace(s, o, p), o);
    KeptTrans(s, Unlink(s, o), Replace(s, o, p));
    KeptTrans(s, Replace(s, o, p), Release(Replace(s, o, p), o));
  }

  lemma ExchangeKeeps(s: State, o: Chunk, key: Key, flags: int, exptime: nat, data: string, blocked: set<Key>,
                      memOk: bool, p: Chunk)
    requires Inv(s) && o in s.items && s.items[o].linked && o in s.holders && s.items[o].key == key && |data| >= 2
    requires Used(s, p)
    ensures SameBytes(s.items, Exchange(s, o, key, flags, exptime, data, blocked, memOk).0.items, p)
  {
    hide Inv, ItemAlloc, ReplaceHeld, Release;
    AllocPair(s, o, key, flags, exptime, data, blocked, memOk);
    AllocKeeps(s, key, flags, exptime, data, blocked, memOk, p);
    var (s1, n) := ItemAlloc(s, key, flags, exptime, data, blocked, memOk);
    match n
    case None => KeptRelease(s1, o); KeptAt(s, s1, Release(s1, o), p);
    case Some(n) =>
      var t := ReplaceHeld(s1, o, n).0;
      ReplaceHeldInv(s1, o, n);
      KeptReplaceHeld(s1, o, n);
      KeptAt(s, s1, t, p);
      NStillHeld(s1, o, n);
      KeptRelease(t, n);
      KeptAt(s, t, Release(t, n), p);
  }

  lemma NStillHeld(s: State, o: Chunk, n: Chunk)
    requires Pair(s, o, n)
    ensures n in s.holders - multiset{o}
  {
  }

  lemma SameTrans(a: map<Chunk, Item>, b: map<Chunk, Item>, c: map<Chunk, Item>, p: Chunk)
    requires SameBytes(a, b, p) && SameBytes(b, c, p)
    ensures SameBytes(a, c, p)
  {
  }

  lemma GetKeeps(s: State, k: Key, p: Chunk)
    requires Inv(s) && Used(s, p)
    ensures SameBytes(s.items, Get(s, k).0.items, p) && Used(Get(s, k).0, p)
  {
    hide Inv, Get;
    GetInv(s, k);
    KeptGet(s, k);
    assert SameBytes(s.items, Get(s, k).0.items, p);
    if Get(s, k).1.Some? { GetHolds(s, k); }
  }

  lemma StorePresentKeeps(s: State, q: Chunk, o: Chunk, verb: Verb, blocked: set<Key>, memOk: bool, p: Chunk)
    requires Inv(s) && Pair(s, o, q) && Used(s, p)
    ensures SameBytes(s.items, StorePresent(s, q, o, verb, blocked, memOk).0.items, p)
  {
    hide Inv, SameBytes, Used, Exchange, ReplaceHeld, Release, Update;
    ChunkFacts(s, o); HolderFacts(s, o); HolderFacts(s, q);
    KeptRelease(s, o);
    match verb
    case Add =>
      UpdateInv(s, o);
      KeptUpdate(s, o);
      KeptRelease(Update(s, o), o);
      KeptTrans(s, Update(s, o), Release(Update(s, o), o));
    case Cas => KeptReplaceHeld(s, o, q);
    case Set => KeptReplaceHeld(s, o, q);
    case Swap => KeptReplaceHeld(s, o, q);
    case Append =>
      var it := s.items[o];
      ExchangeKeeps(s, o, it.key, it.flags, it.exptime, Joined(it.data, s.items[q].data), blocked, memOk, p);
    case Prepend =>
      var it := s.items[o];
      ExchangeKeeps(s, o, it.key, it.flags, it.exptime, Joined(s.items[q].data, it.data), blocked, memOk, p);
  }

  lemma StoreKeeps(s: State, q: Chunk, verb: Verb, blocked: set<Key>, memOk: bool, p: Chunk)
    requires Inv(s) && q in s.items && !s.items[q].linked && q in s.holders && q !in s.uploads && Used(s, p)
    ensures SameBytes(s.items, Store(s, q, verb, blocked, memOk).0.items, p)
  {
    hide Inv, SameBytes, Used, Get, StorePresent, Link;
    var k := s.items[q].key;
    GetInv(s, k);
    GetLeaves(s, k, q);
    GetKeeps(s, k, p);
    var (t, found) := Get(s, k);
    match found
    case None =>
      ChunkFacts(t, q);
      KeptLink(t, q);
      KeptAt(s, t, Link(t, q), p);
    case Some(o) =>
      StorePresentKeeps(t, q, o, verb, blocked, memOk, p);
      SameTrans(s.items, t.items, StorePresent(t, q, o, verb, blocked, memOk).0.items, p);
  }

  lemma DeltaKeeps(s: State, k: Key, incr: bool, delta: nat, cas: nat, behind: string, blocked: set<Key>, memOk: bool,
                   p: Chunk)
    requires Inv(s) && Used(s, p)
    ensures SameBytes(s.items, AddDelta(s, k, incr, delta, cas, behind, blocked, memOk).0.items, p)
  {
    hide Inv, SameBytes, Used, Get, Exchange, Release;
    GetInv(s, k);
    GetKeeps(s, k, p);
    var (t, found) := Get(s, k);
    if found.Some? {
      var q := found.value;
      FoundFacts(s, k);
      KeptRelease(t, q);
      KeptAt(s, t, Release(t, q), p);
      var it := t.items[q];
      var value := D.Parsed(it.data, behind);
      if value.Some? {
        var text := D.Digits(Applied(incr, value.value, delta)) + "\r\n";
        ExchangeKeeps(t, q, k, it.flags, it.exptime, text, blocked, memOk, p);
        var (u, r) := Exchange(t, q, k, it.flags, it.exptime, text, blocked, memOk);
        SameTrans(s.items, t.items, u.items, p);
        if r.Stored? {
          ExchangeOld(t, q, k, it.flags, it.exptime, text, blocked, memOk);
          KeptDetail(u, q, u.items[q].(cas := r.cas));
          KeptAt(s, u, u.(items := u.items[q := u.items[q].(cas := r.cas)]), p);
        }
      }
    }
  }

  lemma KeptDelete(s: State, k: Key)
    requires Inv(s)
    ensures Kept(s, Delete(s, k).0)
  {
    hide Inv, Kept, Get, Unlink, Release;
    GetInv(s, k);
    KeptGet(s, k);
    var (t, found) := Get(s, k);
    if found.Some? {
      FoundFacts(s, k);
      UnlinkInv(t, found.value);
      KeptUnlink(t, found.value);
      StillHeld(t, found.value);
      KeptRelease(Unlink(t, found.value), found.value);
      KeptTrans(s, t, Unlink(t, found.value));
      KeptTrans(s, Unlink(t, found.value), Delete(s, k).0);
    }
  }

  lemma LookupKeeps(s: State, k: Key, exptime: nat)
    requires Inv(s)
    ensures Kept(s, GetStep(s, k).0) && Kept(s, TouchStep(s, k, exptime).0)
  {
    hide Inv, Kept, Get, Update, Release;
    GetInv(s, k);
    KeptGet(s, k);
    var (t, found) := Get(s, k);
    if found.Some? {
      FoundFacts(s, k);
      var q := found.value;
      KeptUpdate(t, q);
      KeptTrans(s, t, Update(t, q));
      ExptimeInv(t, q, exptime);
      var u := t.(items := t.items[q := t.items[q].(exptime := exptime)]);
      KeptDetail(t, q, u.items[q]);
      UpdateInv(u, q);
      KeptUpdate(u, q);
      KeptRelease(Update(u, q), q);
      KeptTrans(s, t, u);
      KeptTrans(s, u, Update(u, q));
      KeptTrans(s, Update(u, q), Release(Update(u, q), q));
    }
  }

  lemma BeginKeeps(s: State, c: Command, p: Chunk)
    requires Inv(s) && c.Begin? && |c.junk| >= 2 && Used(s, p)
    ensures SameBytes(s.items, BeginStep(s, c).0.items, p)
  {
    hide Inv, ItemAlloc, Delete;
    ItemAllocInv(s, c.key, c.flags, c.exptime, c.junk, c.blocked, c.memOk);
    AllocKeeps(s, c.key, c.flags, c.exptime, c.junk, c.blocked, c.memOk, p);
    var (t, n) := ItemAlloc(s, c.key, c.flags, c.exptime, c.junk, c.blocked, c.memOk);
    KeptDelete(t, c.key);
    KeptAt(s, t, Delete(t, c.key).0, p);
  }

  lemma CompleteKeeps(s: State, q: Chunk, verb: Verb, blocked: set<Key>, memOk: bool, p: Chunk)
    requires Inv(s) && q in s.uploads && Used(s, p)
    ensures SameBytes(s.items, CompleteStep(s, q, verb, blocked, memOk).0.items, p)
  {
    hide Inv, Store, Release;
    UploadFacts(s, q);
    FewerUploads(s, q);
    var u := s.(uploads := s.uploads - {q});
    if EndsLine(s.items[q].data) {
      StoreInv(u, q, verb, blocked, memOk);
      StoreKeeps(u, q, verb, blocked, memOk, p);
      var t := Store(u, q, verb, blocked, memOk).0;
      KeptRelease(t, q);
      KeptAt(u, t, Release(t, q), p);
    } else {
      KeptRelease(u, q);
      assert SameBytes(u.items, Release(u, q).items, p);
    }
  }

  lemma {:induction false} FlushQueueKeeps(s: State, c: nat)
    requires Inv(s) && c < |s.lru|
    ensures Kept(s, FlushQueue(s, c))
    decreases |s.lru[c]|
  {
    hide Inv, Kept, Unlink;
    KeptRefl(s);
    if s.lru[c] != [] {
      var p := s.lru[c][0];
      HeadFacts(s, c);
      if s.items[p].time >= s.oldestLive {
        UnlinkInv(s, p);
        KeptUnlink(s, p);
        FlushQueueKeeps(Unlink(s, p), c);
        KeptTrans(s, Unlink(s, p), FlushQueue(s, c));
      }
    }
  }

  lemma {:induction false} FlushFromKeeps(s: State, c: nat)
    requires Inv(s) && c <= |s.lru|
    ensures Kept(s, FlushFrom(s, c))
    decreases |s.lru| - c
  {
    hide Inv, Kept, FlushQueue;
    KeptRefl(s);
    if c < |s.lru| {
      var t := FlushQueue(s, c);
      FlushQueueInv(s, c);
      ThinnedLength(s, t, c);
      FlushQueueKeeps(s, c);
      FlushFromKeeps(t, c + 1);
      KeptTrans(s, t, FlushFrom(t, c + 1));
    }
  }

  lemma FlushKeeps(s: State)
    requires Inv(s)
    ensures Kept(s, FlushAll(s))
  {
    hide Inv, FlushFrom;
    IndexFacts(s);
    ClockInv(s, s.now, s.now - 1);
    var t := s.(oldestLive := s.now - 1);
    FlushFromKeeps(t, 0);
    forall p ensures SameBytes(s.items, FlushAll(s).items, p) { assert SameBytes(t.items, FlushAll(s).items, p); }
  }

  lemma MoveKeeps(s: State, blocked: set<Key>, p: Chunk)
    requires Inv(s) && s.rebal.signal == 2 && !s.rebal.done
    ensures SameBytes(s.items, MoveStep(s, blocked).items, p)
  {
    hide Inv;
    MoveChunkInv(s, blocked);
  }

  /** The page that leaves its class is not read from. */
  lemma EndKeeps(s: State, p: Chunk)
    requires Inv(s) && s.rebal.signal == 2 && s.rebal.done && p in s.holders && p in s.items
    ensures SameBytes(s.items, EndStep(s).items, p)
  {
    hide Inv;
    FinishMoveInv(s);
    if p.page == s.rebal.page { DrainedPageIdle(s, p); }
  }

  /** Whatever the step: the bytes of an item that somebody reads from do not change, and a
      chunk the mover has emptied stays marked until its page is handed over. */
  lemma StepKeeps(s: State, c: Command, p: Chunk)
    requires Inv(s) && Enabled(s, c) && p in s.items
    requires (p in s.holders && p !in s.uploads) || (s.items[p].clsid == MARKED && !c.EndMove?)
    ensures SameBytes(s.items, Step(s, c).0.items, p)
  {
    hide Inv, Kept, SameBytes, BeginStep, CompleteStep, GetStep, TouchStep, Delete, AddDelta, FlushAll, AskStep,
         StartMove, MoveStep, EndStep, AbortStep, DoneStep;
    assert Used(s, p);
    match c
    case Begin(_, _, _, _, _, _, _, _) => BeginKeeps(s, c, p);
    case Fill(q, bytes) => FillKeeps(s, q, bytes, p);
    case Complete(q, verb, blocked, memOk) => CompleteKeeps(s, q, verb, blocked, memOk, p);
    case Abort(q) => AbortKeeps(s, q); KeptHere(s, AbortStep(s, q), p);
    case GetKey(k) => LookupKeeps(s, k, 0); KeptHere(s, GetStep(s, k).0, p);
    case Done(q) => DoneKeeps(s, q); KeptHere(s, DoneStep(s, q), p);
    case DeleteKey(k) => KeptDelete(s, k); KeptHere(s, Delete(s, k).0, p);
    case TouchKey(k, exptime) => LookupKeeps(s, k, exptime); KeptHere(s, TouchStep(s, k, exptime).0, p);
    case Delta(k, incr, delta, cas, behind, blocked, memOk) =>
      DeltaKeeps(s, k, incr, delta, cas, behind, blocked, memOk, p);
    case Flush => FlushKeeps(s); KeptHere(s, FlushAll(s), p);
    case Tick(now) => KeptRefl(s); KeptHere(s, s, p);
    case AskMove(src, dst) => MoverOnly(s, src, dst, p);
    case BeginMove => MoverOnly(s, 0, 0, p);
    case MoveOne(blocked) => MoveKeeps(s, blocked, p);
    case EndMove => EndKeeps(s, p);
  }

  lemma KeptHere(s: State, t: State, p: Chunk)
    requires Kept(s, t)
    ensures SameBytes(s.items, t.items, p)
  {
  }

  lemma MoverOnly(s: State, src: int, dst: int, p: Chunk)
    requires Inv(s)
    ensures SameBytes(s.items, AskStep(s, src, dst).items, p) && SameBytes(s.items, StartMove(s).items, p)
  {
    hide Inv;
  }

  lemma FillKeeps(s: State, q: Chunk, bytes: string, p: Chunk)
    requires Inv(s) && q in s.uploads && q in s.items && Used(s, p) && (p !in s.uploads || s.items[p].clsid == MARKED)
    ensures SameBytes(s.items, FillStep(s, q, bytes).items, p)
  {
    hide Inv;
    UploadFacts(s, q);
    ChunkFacts(s, q);
  }

  lemma AbortKeeps(s: State, q: Chunk)
    requires Inv(s) && q in s.uploads
    ensures Kept(s, AbortStep(s, q))
  {
    hide Inv;
    UploadFacts(s, q);
    FewerUploads(s, q);
    KeptRelease(s.(uploads := s.uploads - {q}), q);
  }

  lemma DoneKeeps(s: State, q: Chunk)
    requires Inv(s) && q in s.holders
    ensures Kept(s, DoneStep(s, q))
  {
    hide Inv;
    KeptRelease(s, q);
  }

  // ----- a reader keeps its reference until it gives it back

  predicate Reads(s: State, p: Chunk) { p in s.items && p in s.holders && p !in s.uploads }

  /** Only its own release takes a reader's reference away. */
  lemma StepHolders(s: State, c: Command, p: Chunk)
    requires Inv(s) && Enabled(s, c) && Reads(s, p) && c != Done(p)
    ensures var t := Step(s, c).0; p in t.holders && p !in t.uploads
  {
    hide Inv, BeginStep, CompleteStep, GetStep, TouchStep, Delete, AddDelta, FlushAll, MoveStep, EndStep, StartMove,
         AskStep, FillStep, AbortStep, DoneStep;
    match c
    case Begin(_, _, _, _, _, _, _, _) => BeginHolders(s, c, p);
    case Complete(q, verb, blocked, memOk) => CompleteHolders(s, q, verb, blocked, memOk, p);
    case GetKey(k) => LookupHolders(s, k, 0, p);
    case TouchKey(k, exptime) => LookupHolders(s, k, exptime, p);
    case DeleteKey(k) => DeleteInv(s, k);
    case Delta(k, incr, delta, cas, behind, blocked, memOk) =>
      AddDeltaInv(s, k, incr, delta, cas, behind, blocked, memOk);
    case Flush => FlushAllInv(s);
    case MoveOne(blocked) => MoveHolders(s, blocked, p);
    case _ => OtherHolders(s, c, p);
  }

  lemma OtherHolders(s: State, c: Command, p: Chunk)
    requires Inv(s) && Enabled(s, c) && Reads(s, p) && c != Done(p)
    requires c.Fill? || c.Abort? || c.Done? || c.Tick? || c.AskMove? || c.BeginMove? || c.EndMove?
    ensures var t := Step(s, c).0; p in t.holders && p !in t.uploads
  {
    hide Inv;
  }

  lemma BeginHolders(s: State, c: Command, p: Chunk)
    requires Inv(s) && c.Begin? && |c.junk| >= 2 && Reads(s, p)
    ensures var t := BeginStep(s, c).0; p in t.holders && p !in t.uploads
  {
    hide Inv, ItemAlloc, Delete;
    ItemAllocInv(s, c.key, c.flags, c.exptime, c.junk, c.blocked, c.memOk);
    DeleteInv(ItemAlloc(s, c.key, c.flags, c.exptime, c.junk, c.blocked, c.memOk).0, c.key);
  }

  lemma CompleteHolders(s: State, q: Chunk, verb: Verb, blocked: set<Key>, memOk: bool, p: Chunk)
    requires Inv(s) && q in s.uploads && Reads(s, p)
    ensures var t := CompleteStep(s, q, verb, blocked, memOk).0; p in t.holders && p !in t.uploads
  {
    hide Inv, Store;
    UploadFacts(s, q);
    FewerUploads(s, q);
    StoreInv(s.(uploads := s.uploads - {q}), q, verb, blocked, memOk);
  }

  lemma LookupHolders(s: State, k: Key, exptime: nat, p: Chunk)
    requires Inv(s) && Reads(s, p)
    ensures var t := GetStep(s, k).0; p in t.holders && p !in t.uploads
    ensures var t := TouchStep(s, k, exptime).0; p in t.holders && p !in t.uploads
  {
    hide Inv, Get, Update;
    GetInv(s, k);
    var (t, found) := Get(s, k);
    if found.Some? {
      FoundFacts(s, k);
      UpdateHolds(t, found.value);
      UpdateHolds(t.(items := t.items[found.value := t.items[found.value].(exptime := exptime)]), found.value);
    }
  }

  lemma MoveHolders(s: State, blocked: set<Key>, p: Chunk)
    requires Inv(s) && s.rebal.signal == 2 && !s.rebal.done && Reads(s, p)
    ensures var t := MoveStep(s, blocked); p in t.holders && p !in t.uploads
  {
    hide Inv;
    MoveChunkInv(s, blocked);
    ChunkFacts(s, p);
  }

  ghost function StateAfter(s: State, h: seq<Event>): (t: State)
    requires Inv(s) && IsRun(s, h)
    ensures Inv(t)
    decreases |h|
  {
    if h == [] then s else StepInv(s, h[0].command); StateAfter(Step(s, h[0].command).0, h[1..])
  }

  /** From a hit until it is released, over every interleaving of commands and background
      steps, the bytes of the item a reader was given do not change. */
  lemma {:induction false} ReaderUndisturbed(s: State, h: seq<Event>, p: Chunk)
    requires Inv(s) && IsRun(s, h) && Reads(s, p)
    requires forall e :: e in h ==> e.command != Done(p)
    ensures var t := StateAfter(s, h); Reads(t, p) && BytesOf(t.items[p]) == BytesOf(s.items[p])
    decreases |h|
  {
    hide Inv, Enabled, Step;
    if h != [] {
      var c := h[0].command;
      assert h[0] in h;
      StepInv(s, c);
      StepKeeps(s, c, p);
      StepHolders(s, c, p);
      assert forall e :: e in h[1..] ==> e in h;
      ReaderUndisturbed(Step(s, c).0, h[1..], p);
    }
  }

  // ----- what a store links

  /** The item under k was linked in the current second. */
  ghost predicate JustLinked(s: State, k: Key) {
    k in s.index && s.index[k] in s.items && s.items[s.index[k]].linked && s.items[s.index[k]].time == s.now
  }

  lemma ReplaceLinks(s: State, o: Chunk, q: Chunk)
    requires Inv(s) && Pair(s, o, q)
    ensures JustLinked(ReplaceHeld(s, o, q).0, s.items[q].key)
  {
    hide Inv;
    ReplaceInv(s, o, q);
    ChunkFacts(s, o);
    ChunkFacts(s, q);
  }

  lemma ReleaseLinked(s: State, p: Chunk, k: Key)
    requires Has(s, p) && JustLinked(s, k)
    ensures JustLinked(Release(s, p), k)
  {
  }

  lemma ExchangeLinks(s: State, o: Chunk, key: Key, flags: int, exptime: nat, data: string, blocked: set<Key>,
                      memOk: bool)
    requires Inv(s) && o in s.items && s.items[o].linked && o in s.holders && s.items[o].key == key && |data| >= 2
    ensures var (t, r) := Exchange(s, o, key, flags, exptime, data, blocked, memOk);
      r.Stored? ==> JustLinked(t, key)
  {
    hide Inv, ItemAlloc, ReplaceHeld, Release, JustLinked;
    AllocPair(s, o, key, flags, exptime, data, blocked, memOk);
    ItemAllocInv(s, key, flags, exptime, data, blocked, memOk);
    var (s1, n) := ItemAlloc(s, key, flags, exptime, data, blocked, memOk);
    if n.Some? {
      ReplaceLinks(s1, o, n.value);
      ReplaceHeldInv(s1, o, n.value);
      ReplaceKeeps(s1, o, n.value);
      ReleaseLinked(ReplaceHeld(s1, o, n.value).0, n.value, key);
    }
  }

  lemma StoreLinks(s: State, q: Chunk, verb: Verb, blocked: set<Key>, memOk: bool)
    requires Inv(s) && q in s.items && !s.items[q].linked && q in s.holders && q !in s.uploads
    ensures var (t, r) := Store(s, q, verb, blocked, memOk);
      r.Stored? ==> JustLinked(t, s.items[q].key)
  {
    hide Inv, Get, Exchange, ReplaceHeld, JustLinked, Link, Release, Update;
    var k := s.items[q].key;
    GetInv(s, k);
    GetLeaves(s, k, q);
    var (t, found) := Get(s, k);
    match found
    case None => ChunkFacts(t, q); LinkLinks(t, q);
    case Some(o) =>
      ChunkFacts(t, o);
      HolderFacts(t, o);
      HolderFacts(t, q);
      match verb
      case Add =>
      case Cas => ReplaceLinks(t, o, q);
      case Set => ReplaceLinks(t, o, q);
      case Swap => ReplaceLinks(t, o, q);
      case Append =>
        ExchangeLinks(t, o, k, t.items[o].flags, t.items[o].exptime, Joined(t.items[o].data, t.items[q].data),
            blocked, memOk);
      case Prepend =>
        ExchangeLinks(t, o, k, t.items[o].flags, t.items[o].exptime, Joined(t.items[q].data, t.items[o].data),
            blocked, memOk);
  }

  lemma LinkLinks(s: State, p: Chunk)
    requires Has(s, p)
    ensures JustLinked(Link(s, p), s.items[p].key)
  {
  }

  // ----- what a flush hides

  /** A lookup of k does not take its item for flushed. */
  ghost predicate Shown(s: State, k: Key) {
    k in s.index ==> s.index[k] in s.items && !Flushed(s, s.items[s.index[k]])
  }

  ghost predicate NoneHidden(s: State, t: State) { forall k :: Shown(s, k) ==> Shown(t, k) }

  lemma QuietHides(s: State, t: State)
    requires Quiet(s, t)
    ensures NoneHidden(s, t)
  {
    forall k | Shown(s, k) ensures Shown(t, k) { assert KeyKept(s, t, k); }
  }

  lemma WroteHides(s: State, t: State, k: Key, e: Entry)
    requires Wrote(s, t, k, e)
    ensures NoneHidden(s, t)
  {
    forall j | Shown(s, j) ensures Shown(t, j) { if j != k { assert KeyKept(s, t, j); } }
  }

  lemma HidesTrans(s: State, t: State, u: State)
    requires NoneHidden(s, t) && NoneHidden(t, u)
    ensures NoneHidden(s, u)
  {
    forall k | Shown(s, k) ensures Shown(u, k) { assert Shown(t, k); }
  }

  lemma StorePresentHides(s: State, p: Chunk, o: Chunk, verb: Verb, blocked: set<Key>, memOk: bool)
    requires Inv(s) && Pair(s, o, p) && !Flushed(s, s.items[o])
    ensures NoneHidden(s, StorePresent(s, p, o, verb, blocked, memOk).0)
  {
    hide Inv, Wrote, Quiet, NoneHidden, Release, Exchange, ReplaceHeld, Update;
    PairChunks(s, o, p);
    HolderFacts(s, o);
    HolderFacts(s, p);
    QuietRelease(s, o);
    QuietHides(s, Release(s, o));
    var (t, r) := StorePresent(s, p, o, verb, blocked, memOk);
    var it := s.items[p];
    match verb
    case Add =>
      QuietUpdate(s, o);
      UpdateInv(s, o);
      QuietRelease(Update(s, o), o);
      QuietTrans(s, Update(s, o), Release(Update(s, o), o));
      QuietHides(s, t);
    case Append => ExchangeHides(s, o, Joined(s.items[o].data, it.data), blocked, memOk);
    case Prepend => ExchangeHides(s, o, Joined(it.data, s.items[o].data), blocked, memOk);
    case _ =>
      ReplaceWrote(s, o, p);
      var (u, x) := ReplaceHeld(s, o, p);
      WroteHides(s, u, it.key, Entry(it.flags, it.data, it.exptime, x.cas));
  }

  lemma ExchangeHides(s: State, o: Chunk, data: string, blocked: set<Key>, memOk: bool)
    requires Inv(s) && o in s.items && s.items[o].linked && o in s.holders && |data| >= 2
    ensures var it := s.items[o]; NoneHidden(s, Exchange(s, o, it.key, it.flags, it.exptime, data, blocked, memOk).0)
  {
    hide Inv, Wrote, Quiet, NoneHidden, Exchange;
    var it := s.items[o];
    ExchangeWrote(s, o, it.key, it.flags, it.exptime, data, blocked, memOk);
    var (t, r) := Exchange(s, o, it.key, it.flags, it.exptime, data, blocked, memOk);
    if r.Stored? { WroteHides(s, t, it.key, Entry(it.flags, data, it.exptime, r.cas)); } else { QuietHides(s, t); }
  }

  lemma FoundShown(s: State, k: Key)
    requires Inv(s) && Get(s, k).1.Some?
    ensures var (t, p) := Get(s, k); p.value in t.items && !Flushed(t, t.items[p.value])
  {
    hide Inv;
    IndexFacts(s);
  }

  lemma StoreHides(s: State, q: Chunk, verb: Verb, blocked: set<Key>, memOk: bool)
    requires Inv(s) && q in s.items && !s.items[q].linked && q in s.holders && q !in s.uploads
    ensures NoneHidden(s, Store(s, q, verb, blocked, memOk).0)
  {
    hide Inv, Wrote, Quiet, NoneHidden, Get, StorePresent, Link;
    var k := s.items[q].key;
    GetInv(s, k);
    GetLeaves(s, k, q);
    QuietGet(s, k);
    var (t, found) := Get(s, k);
    QuietHides(s, t);
    match found
    case None =>
      ChunkFacts(t, q);
      WroteLink(t, q);
      WroteHides(t, Link(t, q), k, EntryOf(Link(t, q), q));
      HidesTrans(s, t, Link(t, q));
    case Some(o) =>
      FoundShown(s, k);
      StorePresentHides(t, q, o, verb, blocked, memOk);
      HidesTrans(s, t, StorePresent(t, q, o, verb, blocked, memOk).0);
  }

  lemma CompleteHides(s: State, q: Chunk, verb: Verb, blocked: set<Key>, memOk: bool)
    requires Inv(s) && q in s.uploads
    ensures NoneHidden(s, CompleteStep(s, q, verb, blocked, memOk).0)
  {
    hide Inv, Quiet, NoneHidden, Store, Release;
    UploadFacts(s, q);
    FewerUploads(s, q);
    var u := s.(uploads := s.uploads - {q});
    SameItems(s, u);
    ChunkFacts(u, q);
    if EndsLine(s.items[q].data) {
      StoreHides(u, q, verb, blocked, memOk);
      StoreInv(u, q, verb, blocked, memOk);
      var t := Store(u, q, verb, blocked, memOk).0;
      HolderFacts(t, q);
      ChunkFacts(t, q);
      QuietRelease(t, q);
      QuietHides(t, Release(t, q));
      HidesTrans(u, t, Release(t, q));
      HidesTrans(s, u, Release(t, q));
    } else {
      QuietRelease(u, q);
      QuietHides(u, Release(u, q));
      HidesTrans(s, u, Release(u, q));
    }
  }

  lemma SameItems(s: State, t: State)
    requires Inv(s) && t.index == s.index && t.oldestLive == s.oldestLive && t.now >= s.now
    requires forall p :: p in s.items && s.items[p].linked ==> p in t.items && t.items[p].time == s.items[p].time
    ensures NoneHidden(s, t)
  {
    hide Inv;
    IndexFacts(s);
  }

  lemma DeltaHides(s: State, c: Command)
    requires Inv(s) && c.Delta?
    ensures NoneHidden(s, AddDelta(s, c.key, c.incr, c.delta, c.cas, c.behind, c.blocked, c.memOk).0)
  {
    hide Inv, Quiet, NoneHidden, Get, Release, Exchange, Restamp;
    var k := c.key;
    QuietGet(s, k);
    GetInv(s, k);
    var (t, found) := Get(s, k);
    QuietHides(s, t);
    match found
    case None =>
    case Some(p) =>
      FoundFacts(s, k);
      QuietRelease(t, p);
      QuietHides(t, Release(t, p));
      HidesTrans(s, t, Release(t, p));
      var it := t.items[p];
      var value := D.Parsed(it.data, c.behind);
      if value.Some? {
        var text := D.Digits(Applied(c.incr, value.value, c.delta)) + "\r\n";
        ExchangeHides(t, p, text, c.blocked, c.memOk);
        ExchangeInv(t, p, k, it.flags, it.exptime, text, c.blocked, c.memOk);
        var (u, r) := Exchange(t, p, k, it.flags, it.exptime, text, c.blocked, c.memOk);
        HidesTrans(s, t, u);
        if r.Stored? {
          ExchangeOld(t, p, k, it.flags, it.exptime, text, c.blocked, c.memOk);
          QuietRestamp(u, p, r.cas);
          QuietHides(u, Restamp(u, p, r.cas));
          HidesTrans(s, u, Restamp(u, p, r.cas));
        }
      }
  }

  lemma BeginHides(s: State, c: Command)
    requires Inv(s) && c.Begin? && |c.junk| >= 2
    ensures NoneHidden(s, BeginStep(s, c).0)
  {
    hide Inv, Quiet, NoneHidden, ItemAlloc, Delete;
    QuietAlloc(s, c.key, c.flags, c.exptime, c.junk, c.blocked, c.memOk);
    ItemAllocInv(s, c.key, c.flags, c.exptime, c.junk, c.blocked, c.memOk);
    var (t, n) := ItemAlloc(s, c.key, c.flags, c.exptime, c.junk, c.blocked, c.memOk);
    QuietHides(s, t);
    match n
    case None =>
      QuietDelete(t, c.key);
      QuietHides(t, Delete(t, c.key).0);
      HidesTrans(s, t, Delete(t, c.key).0);
    case Some(p) =>
      SameItems(t, BeginStep(s, c).0);
      HidesTrans(s, t, BeginStep(s, c).0);
  }

  lemma LookupHides(s: State, k: Key, exptime: nat)
    requires Inv(s)
    ensures NoneHidden(s, GetStep(s, k).0) && NoneHidden(s, TouchStep(s, k, exptime).0)
  {
    hide Inv, Quiet, NoneHidden, Get, Update, Release;
    QuietGet(s, k);
    GetInv(s, k);
    var (t, found) := Get(s, k);
    QuietHides(s, t);
    match found
    case None =>
    case Some(p) =>
      FoundFacts(s, k);
      FoundShown(s, k);
      QuietUpdate(t, p);
      QuietHides(t, Update(t, p));
      HidesTrans(s, t, Update(t, p));
      ExptimeInv(t, p, exptime);
      var u := t.(items := t.items[p := t.items[p].(exptime := exptime)]);
      SameItems(t, u);
      UpdateInv(u, p);
      QuietUpdate(u, p);
      UpdateHolds(u, p);
      var w := Update(u, p);
      ChunkFacts(w, p);
      QuietRelease(w, p);
      QuietTrans(u, w, Release(w, p));
      QuietHides(u, Release(w, p));
      HidesTrans(s, t, u);
      HidesTrans(s, u, Release(w, p));
  }

  lemma ReleaseHides(s: State, c: Command)
    requires Inv(s) && Enabled(s, c) && (c.Abort? || c.Done? || c.Fill?)
    ensures NoneHidden(s, Step(s, c).0)
  {
    hide Inv, Quiet, NoneHidden, Release;
    match c
    case Fill(p, bytes) => SameItems(s, FillStep(s, p, bytes));
    case Done(p) =>
      HolderFacts(s, p);
      ChunkFacts(s, p);
      QuietRelease(s, p);
      QuietHides(s, Release(s, p));
    case Abort(p) =>
      UploadFacts(s, p);
      FewerUploads(s, p);
      var u := s.(uploads := s.uploads - {p});
      SameItems(s, u);
      ChunkFacts(u, p);
      QuietRelease(u, p);
      QuietHides(u, Release(u, p));
      HidesTrans(s, u, Release(u, p));
  }

  /** No step but flush_all hides anything. */
  lemma StepHides(s: State, c: Command)
    requires Inv(s) && Enabled(s, c) && !c.Flush?
    ensures NoneHidden(s, Step(s, c).0)
  {
    hide Inv, Quiet, NoneHidden, BeginStep, CompleteStep, GetStep, TouchStep, Delete, AddDelta, AskStep,
        StartMove, MoveStep, EndStep;
    match c
    case Begin(_, _, _, _, _, _, _, _) => BeginHides(s, c);
    case Complete(q, verb, blocked, memOk) => CompleteHides(s, q, verb, blocked, memOk);
    case GetKey(k) => LookupHides(s, k, 0);
    case TouchKey(k, exptime) => LookupHides(s, k, exptime);
    case DeleteKey(k) => QuietDelete(s, k); QuietHides(s, Delete(s, k).0);
    case Delta(_, _, _, _, _, _, _) => DeltaHides(s, c);
    case Tick(now) => SameItems(s, s.(now := now));
    case AskMove(src, dst) => MoverHides(s, src, dst);
    case BeginMove => MoverHides(s, 0, 0);
    case MoveOne(blocked) => QuietMove(s, blocked); QuietHides(s, MoveStep(s, blocked));
    case EndMove => QuietEnd(s); QuietHides(s, EndStep(s));
    case _ => ReleaseHides(s, c);
  }

  lemma MoverHides(s: State, src: int, dst: int)
    requires Inv(s)
    ensures NoneHidden(s, AskStep(s, src, dst)) && NoneHidden(s, StartMove(s))
  {
    hide Inv, NoneHidden;
    SameItems(s, AskStep(s, src, dst));
    SameItems(s, StartMove(s));
  }

  /** Event e has stored an item under k. */
  predicate StoresUnder(s: State, e: Event, k: Key) {
    match e.command
    case Complete(p, _, _, _) => p in s.items && s.items[p].key == k && e.reply.Finished? && e.reply.outcome.Stored?
    case Delta(key, _, _, _, _, _, _) => key == k && e.reply.Counted? && e.reply.result.DeltaOk?
    case _ => false
  }

  lemma LinkedShown(s: State, k: Key)
    requires Inv(s) && JustLinked(s, k)
    ensures Shown(s, k)
  {
    hide Inv;
    IndexFacts(s);
  }

  lemma DeltaLinks(s: State, c: Command)
    requires Inv(s) && c.Delta?
    ensures var (t, r) := AddDelta(s, c.key, c.incr, c.delta, c.cas, c.behind, c.blocked, c.memOk);
      r.DeltaOk? ==> JustLinked(t, c.key)
  {
    hide Inv, Get, Exchange, Release;
    var k := c.key;
    GetInv(s, k);
    var (t, found) := Get(s, k);
    if found.Some? {
      var p := found.value;
      FoundFacts(s, k);
      var it := t.items[p];
      var value := D.Parsed(it.data, c.behind);
      if value.Some? {
        var text := D.Digits(Applied(c.incr, value.value, c.delta)) + "\r\n";
        ExchangeLinks(t, p, k, it.flags, it.exptime, text, c.blocked, c.memOk);
        var (u, r) := Exchange(t, p, k, it.flags, it.exptime, text, c.blocked, c.memOk);
        if r.Stored? { ExchangeOld(t, p, k, it.flags, it.exptime, text, c.blocked, c.memOk); }
      }
    }
  }

  lemma CompleteLinks(s: State, q: Chunk, verb: Verb, blocked: set<Key>, memOk: bool)
    requires Inv(s) && q in s.uploads && q in s.items
    ensures var (t, r) := CompleteStep(s, q, verb, blocked, memOk);
      r.Finished? && r.outcome.Stored? ==> JustLinked(t, s.items[q].key)
  {
    hide Inv, Store, Release, JustLinked;
    UploadFacts(s, q);
    FewerUploads(s, q);
    var u := s.(uploads := s.uploads - {q});
    if EndsLine(s.items[q].data) {
      StoreLinks(u, q, verb, blocked, memOk);
      StoreInv(u, q, verb, blocked, memOk);
      var (t, r) := Store(u, q, verb, blocked, memOk);
      HolderFacts(t, q);
      ChunkFacts(t, q);
      if r.Stored? { ReleaseLinked(t, q, s.items[q].key); }
    }
  }

  lemma StoredShown(s: State, e: Event, k: Key)
    requires Inv(s) && Enabled(s, e.command) && e.reply == Step(s, e.command).1 && StoresUnder(s, e, k)
    ensures Shown(Step(s, e.command).0, k)
  {
    hide Inv, CompleteStep, AddDelta, JustLinked, Shown;
    var c := e.command;
    StepInv(s, c);
    match c
    case Complete(q, verb, blocked, memOk) =>
      CompleteLinks(s, q, verb, blocked, memOk);
      LinkedShown(Step(s, c).0, k);
    case Delta(_, _, _, _, _, _, _) =>
      DeltaLinks(s, c);
      LinkedShown(Step(s, c).0, k);
  }

  lemma {:induction false} RunSplit(s: State, h: seq<Event>, n: nat)
    requires Inv(s) && IsRun(s, h) && n <= |h|
    ensures IsRun(s, h[..n]) && IsRun(StateAfter(s, h[..n]), h[n..])
    ensures n < |h| ==> Enabled(StateAfter(s, h[..n]), h[n].command)
    ensures n < |h| ==> h[n].reply == Step(StateAfter(s, h[..n]), h[n].command).1
    ensures n < |h| ==> IsRun(s, h[..n + 1]) && StateAfter(s, h[..n + 1]) == Step(StateAfter(s, h[..n]), h[n].command).0
    decreases n
  {
    hide Inv, Enabled, Step;
    if n == 0 {
      assert h[0..] == h && h[..0] == [];
      if h != [] {
        StepInv(s, h[0].command);
        assert h[..1] == [h[0]] && h[..1][1..] == [];
      }
    } else {
      var c := h[0].command;
      StepInv(s, c);
      RunSplit(Step(s, c).0, h[1..], n - 1);
      assert h[..n][1..] == h[1..][..n - 1] && h[1..][n - 1..] == h[n..];
      if n < |h| { assert h[..n + 1][1..] == h[1..][..n]; }
    }
  }

  /** In every run: an item stored under k by event m is not hidden by any flush before it,
      nor is what replaces it, as long as no flush_all follows. */
  lemma StoredStaysShown(s: State, h: seq<Event>, m: nat, n: nat, k: Key)
    requires Inv(s) && IsRun(s, h) && m < n <= |h|
    requires (RunSplit(s, h, m); StoresUnder(StateAfter(s, h[..m]), h[m], k))
    requires forall j :: m < j < n ==> !h[j].command.Flush?
    ensures IsRun(s, h[..n]) && Shown(StateAfter(s, h[..n]), k)
  {
    hide Inv, Enabled, Step, Shown, StoresUnder;
    RunSplit(s, h, m);
    StoredShown(StateAfter(s, h[..m]), h[m], k);
    ShownFrom(s, h, m + 1, n, k);
  }

  lemma {:induction false} ShownFrom(s: State, h: seq<Event>, m: nat, n: nat, k: Key)
    requires Inv(s) && IsRun(s, h) && m <= n <= |h|
    requires IsRun(s, h[..m]) && Shown(StateAfter(s, h[..m]), k)
    requires forall j :: m <= j < n ==> !h[j].command.Flush?
    ensures IsRun(s, h[..n]) && Shown(StateAfter(s, h[..n]), k)
    decreases n - m
  {
    hide Inv, Enabled, Step, Shown;
    if m < n {
      RunSplit(s, h, m);
      StepHides(StateAfter(s, h[..m]), h[m].command);
      ShownFrom(s, h, m + 1, n, k);
    }
  }

  // ----- pages

  /** The chunks of page g when it is split into n. */
  function PageChunks(g: nat, n: nat): set<Chunk> { set i | 0 <= i < n :: At(g, i) }

  function ChunksOn(pages: seq<nat>, n: nat): set<Chunk> {
    if pages == [] then {} else ChunksOn(pages[..|pages| - 1], n) + PageChunks(pages[|pages| - 1], n)
  }

  lemma {:induction false} PageSize(g: nat, n: nat)
    ensures |PageChunks(g, n)| == n
  {
    if n > 0 {
      PageSize(g, n - 1);
      assert PageChunks(g, n) == PageChunks(g, n - 1) + {At(g, n - 1)};
    }
  }

  lemma {:induction false} ChunksOnHas(pages: seq<nat>, n: nat, p: Chunk)
    ensures p in ChunksOn(pages, n) <==> p.page in pages && p.idx < n
  {
    if pages != [] {
      var k := |pages| - 1;
      ChunksOnHas(pages[..k], n, p);
      assert p.page in pages <==> p.page in pages[..k] || p.page == pages[k];
    }
  }

  lemma {:induction false} ChunksOnSize(pages: seq<nat>, n: nat)
    requires NoDup(pages)
    ensures |ChunksOn(pages, n)| == |pages| * n
  {
    hide PageChunks;
    if pages != [] {
      var k := |pages| - 1;
      ChunksOnSize(pages[..k], n);
      PageSize(pages[k], n);
      var (a, b) := (ChunksOn(pages[..k], n), PageChunks(pages[k], n));
      forall p | p in a ensures p !in b {
        ChunksOnHas(pages[..k], n, p);
        OnPage(pages[k], n, p);
      }
      DisjointSize(a, b);
      OneMorePage(k, n);
    }
  }

  lemma DisjointSize(a: set<Chunk>, b: set<Chunk>)
    requires forall p :: p in a ==> p !in b
    ensures |a + b| == |a| + |b|
  {
    assert a !! b;
  }

  lemma OneMorePage(k: nat, n: nat)
    ensures (k + 1) * n == k * n + n
  {
  }

  lemma OnPage(g: nat, n: nat, p: Chunk)
    ensures p in PageChunks(g, n) <==> p.page == g && p.idx < n
  {
  }

  ghost function ClassChunks(s: State, c: nat): set<Chunk> {
    set p | p in s.items && p.page in s.owner && s.owner[p.page] == c
  }

  ghost function InUse(s: State, c: nat): set<Chunk> { set p | p in ClassChunks(s, c) && s.items[p].refcount > 0 }

  ghost function MarkedIn(s: State, c: nat): set<Chunk> { set p | p in ClassChunks(s, c) && s.items[p].clsid == MARKED }

  lemma ClassIsPages(s: State, c: nat)
    requires Inv(s) && 1 <= c < |s.slabs|
    ensures NoDup(s.slabs[c]) && c < |s.cfg.classes| == |s.free|
    ensures forall p :: p in ClassChunks(s, c) <==> p.page in s.slabs[c] && p.idx < s.cfg.classes[c].perslab
  {
    hide Memory, Lists, Accounts, Uploads, Queued, Freed, Index, Ordered, Clock, CasIds, Mover, Counters;
  }

  lemma {:induction false} ListSize(q: seq<Chunk>)
    requires NoDup(q)
    ensures |(set p | p in q)| == |q|
  {
    if q != [] {
      ListSize(q[1..]);
      assert (set p | p in q) == {q[0]} + (set p | p in q[1..]);
    }
  }

  /** slabs * perslab = sl_curr + chunks in use + chunks the mover has emptied, and of those
      there are none outside a move. */
  lemma PageAccount(s: State, c: nat)
    requires Inv(s) && 1 <= c < |s.slabs|
    ensures c < |s.cfg.classes| && c < |s.free|
    ensures |s.slabs[c]| * s.cfg.classes[c].perslab == |s.free[c]| + |InUse(s, c)| + |MarkedIn(s, c)|
    ensures s.rebal.signal != 2 || s.rebal.src != c ==> MarkedIn(s, c) == {}
  {
    hide Inv, Accounted;
    ClassIsPages(s, c);
    var n := s.cfg.classes[c].perslab;
    ChunksOnSize(s.slabs[c], n);
    forall p ensures p in ClassChunks(s, c) <==> p in ChunksOn(s.slabs[c], n) { ChunksOnHas(s.slabs[c], n, p); }
    assert ClassChunks(s, c) == ChunksOn(s.slabs[c], n);
    FreeIsSlabbed(s, c);
    ListSize(s.free[c]);
    var f := set p | p in s.free[c];
    forall p | p in ClassChunks(s, c)
      ensures p in f || p in InUse(s, c) || p in MarkedIn(s, c)
      ensures !(p in f && p in InUse(s, c)) && !(p in f && p in MarkedIn(s, c))
      ensures !(p in InUse(s, c) && p in MarkedIn(s, c))
    {
      OneOfThree(s, p);
    }
    assert ClassChunks(s, c) == f + InUse(s, c) + MarkedIn(s, c);
    assert f !! InUse(s, c) && (f + InUse(s, c)) !! MarkedIn(s, c);
    if s.rebal.signal != 2 || s.rebal.src != c {
      forall p ensures p !in MarkedIn(s, c) { if p in MarkedIn(s, c) { MarkedWhere(s, p); } }
    }
  }

  lemma FreeIsSlabbed(s: State, c: nat)
    requires Inv(s) && 1 <= c < |s.free|
    ensures NoDup(s.free[c]) && forall p :: p in s.free[c] <==> p in ClassChunks(s, c) && s.items[p].slabbed
  {
    hide Memory, Accounts, Uploads, Queued, Index, Ordered, Clock, CasIds, Mover, Counters;
  }

  /** A chunk is free, in use, or emptied by the mover, and only one of these. */
  lemma OneOfThree(s: State, p: Chunk)
    requires Inv(s) && p in s.items
    ensures var it := s.items[p];
      && (it.slabbed || it.refcount > 0 || it.clsid == MARKED)
      && !(it.slabbed && it.refcount > 0) && !(it.slabbed && it.clsid == MARKED)
      && !(it.refcount > 0 && it.clsid == MARKED)
  {
    hide Inv;
    ChunkFacts(s, p);
  }

  lemma MarkedWhere(s: State, p: Chunk)
    requires Inv(s) && Emptied(s.items, p)
    ensures s.rebal.signal == 2 && p.page in s.owner && s.owner[p.page] == s.rebal.src
  {
    hide Memory, Lists, Accounts, Uploads, Queued, Freed, Index, Ordered, Clock, CasIds, Counters;
  }

  /** The number of pages all classes have together. */
  function PageCount(slabs: seq<seq<nat>>): nat {
    if slabs == [] then 0 else PageCount(slabs[..|slabs| - 1]) + |slabs[|slabs| - 1]|
  }

  lemma {:induction false} PageCountUpdate(slabs: seq<seq<nat>>, c: nat, pages: seq<nat>)
    requires c < |slabs|
    ensures PageCount(slabs[c := pages]) == PageCount(slabs) - |slabs[c]| + |pages|
    decreases |slabs|
  {
    var n := |slabs| - 1;
    if c < n {
      PageCountUpdate(slabs[..n], c, pages);
      assert slabs[c := pages][..n] == slabs[..n][c := pages];
    } else {
      assert slabs[c := pages][..n] == slabs[..n];
    }
  }

  /** Moving a page from one class to another keeps the number of pages. */
  lemma MoveKeepsPages(s: State)
    requires Inv(s) && s.rebal.signal == 2 && s.rebal.done
    ensures PageCount(EndStep(s).slabs) == PageCount(s.slabs) && EndStep(s).owner.Keys == s.owner.Keys
  {
    hide Inv;
    MoverFacts(s);
    FinishMoveInv(s);
    var t := DropPage(s);
    PageCountUpdate(s.slabs, s.rebal.src, t.slabs[s.rebal.src]);
    PageCountUpdate(t.slabs, s.rebal.dst, t.slabs[s.rebal.dst] + [s.rebal.page]);
  }
}
