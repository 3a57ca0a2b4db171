/** The operations of items.c, slabs.c and memcached.c on the cache state.  Every one is
    defined on every state that satisfies the invariant, and keeps it. */
module CacheOps {
  import opened Seqs
  import opened SlabClasses
  import opened CacheState
  import opened CacheInvariant
  import opened CacheProofs
  import D = Decimal

  /** What no operation on items touches. */
  ghost predicate SameEnv(s: State, t: State) {
    && t.cfg == s.cfg && t.now == s.now && t.oldestLive == s.oldestLive
    && t.uploads == s.uploads && t.rebal == s.rebal
  }

  // ----- lookups

  predicate Draining(s: State, p: Chunk) { s.rebal.signal == 2 && p.page == s.rebal.page }

  predicate Flushed(s: State, it: Item) {
    s.oldestLive != 0 && s.oldestLive <= s.now && it.time <= s.oldestLive
  }

  predicate Expired(s: State, it: Item) { it.exptime != 0 && it.exptime <= s.now }

  /** do_item_get: a hit is held for the caller; an item on the page being drained, an
      item flushed or expired is unlinked instead. */
  function Get(s: State, k: Key): (r: (State, Option<Chunk>))
    requires Inv(s)
    ensures r.1.Some? ==> k in s.index && r.1.value == s.index[k] && Has(s, s.index[k]) && r.0 == Hold(s, s.index[k])
  {
    if k !in s.index then (s, None) else
      var p := s.index[k];
      ChunkFacts(s, p);
      var h := Hold(s, p);
      if Draining(s, p) || Flushed(s, s.items[p]) || Expired(s, s.items[p])
      then (Release(Unlink(h, p), p), None)
      else (h, Some(p))
  }

  /** Looking an item up only to find it dead: it goes, and no reference is left over. */
  lemma NukeInv(s: State, p: Chunk)
    requires Inv(s) && p in s.items && s.items[p].linked
    ensures Has(s, p) && Inv(Release(Unlink(Hold(s, p), p), p))
    ensures Release(Unlink(Hold(s, p), p), p).holders == s.holders
    ensures SameEnv(s, Release(Unlink(Hold(s, p), p), p))
  {
    hide Inv, Unlink;
    ChunkFacts(s, p);
    HoldInv(s, p);
    var h := Hold(s, p);
    UnlinkInv(h, p);
    ReleaseInv(Unlink(h, p), p);
  }

  lemma GetInv(s: State, k: Key)
    requires Inv(s)
    ensures Inv(Get(s, k).0) && SameEnv(s, Get(s, k).0)
    ensures Get(s, k).1.None? ==> Get(s, k).0.holders == s.holders
  {
    hide Memory, Pages, Lists, Accounts, Uploads, Queued, Freed, Ordered, Clock, CasIds, Mover, Release, Unlink;
    if k in s.index {
      var p := s.index[k];
      ChunkFacts(s, p);
      HoldInv(s, p);
      NukeInv(s, p);
    }
  }

  /** do_item_touch. */
  function Touch(s: State, k: Key, exptime: nat): (r: (State, Option<Chunk>))
    requires Inv(s)
  {
    var (t, found) := Get(s, k);
    match found
    case None => (t, None)
    case Some(p) => (t.(items := t.items[p := t.items[p].(exptime := exptime)]), found)
  }

  /** ITEM_get_cas. */
  function CasOf(s: State, p: Chunk): nat
    requires p in s.items
  {
    if s.cfg.useCas then s.items[p].cas else 0
  }

  // ----- do_item_alloc

  const SEARCH_TRIES: nat := 5
  const TAIL_REPAIR_TIME: nat := 10800

  /** The item the tail walk settles on: the oldest of the last `tries` that is not locked
      by another thread (`blocked`) and that nobody holds. */
  function Victim(s: State, q: seq<Chunk>, tries: nat, blocked: set<Key>): (v: Option<Chunk>)
    requires forall p :: p in q ==> p in s.items
    ensures v.Some? ==> v.value in q && s.items[v.value].refcount == 1
  {
    if tries == 0 || q == [] then None else
      var p := q[|q| - 1];
      if s.items[p].key in blocked || s.items[p].refcount != 1
      then Victim(s, q[..|q| - 1], tries - 1, blocked)
      else Some(p)
  }

  /** The item is one the walk can settle on. */
  predicate Takes(s: State, p: Chunk, blocked: set<Key>)
    requires p in s.items
  {
    s.items[p].key !in blocked && s.items[p].refcount == 1
  }

  /** The tail repair fires on an item that somebody holds, whose lock is free and which has
      not been touched for three hours. */
  predicate Overdue(s: State, p: Chunk, blocked: set<Key>)
    requires p in s.items
  {
    s.items[p].key !in blocked && s.items[p].refcount != 1 && s.items[p].time + TAIL_REPAIR_TIME < s.now
  }

  /** Of the last `tries` items of the queue the walk looks at those behind which there is
      none it can settle on. */
  ghost predicate Probed(s: State, q: seq<Chunk>, tries: nat, blocked: set<Key>, i: nat)
    requires forall p :: p in q ==> p in s.items
  {
    |q| - tries <= i < |q| && forall j :: i < j < |q| ==> !Takes(s, q[j], blocked)
  }

  ghost predicate NoneOverdue(s: State, q: seq<Chunk>, tries: nat, blocked: set<Key>)
    requires forall p :: p in q ==> p in s.items
  {
    forall i: nat :: i < |q| && Probed(s, q, tries, blocked, i) ==> !Overdue(s, q[i], blocked)
  }

  lemma NoneOverdueStep(s: State, q: seq<Chunk>, tries: nat, blocked: set<Key>)
    requires q != [] && tries > 0 && forall p :: p in q ==> p in s.items
    ensures var n := |q| - 1;
      NoneOverdue(s, q, tries, blocked) <==>
        !Overdue(s, q[n], blocked) && (Takes(s, q[n], blocked) || NoneOverdue(s, q[..n], tries - 1, blocked))
  {
    hide Takes, Overdue;
    var n := |q| - 1;
    assert Probed(s, q, tries, blocked, n);
    forall i: nat | i < n
      ensures Probed(s, q, tries, blocked, i)
        <==> !Takes(s, q[n], blocked) && Probed(s, q[..n], tries - 1, blocked, i)
    {
      assert forall j :: i < j < n ==> q[..n][j] == q[j];
    }
    if NoneOverdue(s, q, tries, blocked) && !Takes(s, q[n], blocked) {
      forall i: nat | i < n && Probed(s, q[..n], tries - 1, blocked, i) ensures !Overdue(s, q[..n][i], blocked) {
        assert Probed(s, q, tries, blocked, i);
      }
    }
    if !Overdue(s, q[n], blocked) && (Takes(s, q[n], blocked) || NoneOverdue(s, q[..n], tries - 1, blocked)) {
      forall i: nat | i < |q| && Probed(s, q, tries, blocked, i) ensures !Overdue(s, q[i], blocked) {
        if i < n { assert Probed(s, q[..n], tries - 1, blocked, i) && q[..n][i] == q[i]; }
      }
    }
  }

  /** The walk of do_item_alloc for such an item looks at none that the tail repair fires on. */
  ghost predicate RepairIdle(s: State, key: Key, flags: int, nbytes: nat, blocked: set<Key>)
    requires Inv(s)
  {
    var c := ClsId(s.cfg.classes, NTotal(s.cfg, key, flags, nbytes));
    c != 0 ==> (LruFacts(s, c); NoneOverdue(s, s.lru[c], SEARCH_TRIES, blocked))
  }

  predicate Stale(s: State, it: Item) {
    (it.exptime != 0 && it.exptime < s.now) || (it.time <= s.oldestLive && s.oldestLive <= s.now)
  }

  /** do_slabs_alloc before it pops: None when there is no chunk to be had.  `memOk` is
      the answer of memory_allocate. */
  function Supply(s: State, c: nat, memOk: bool): (t: Option<State>)
    requires Inv(s) && 1 <= c < |s.slabs|
    ensures t.Some? ==> c < |t.value.free| && t.value.free[c] != []
  {
    if s.free[c] != [] then Some(s)
    else if RoomForPage(s, c) && memOk then NewPageInv(s, c); Some(NewPage(s, c))
    else None
  }

  lemma SupplyInv(s: State, c: nat, memOk: bool)
    requires Inv(s) && 1 <= c < |s.slabs|
    ensures var t := Supply(s, c, memOk); t.Some? ==>
      && Inv(t.value) && SameEnv(s, t.value) && t.value.holders == s.holders && c < |t.value.free| == |t.value.slabs|
      && t.value.lru == s.lru && t.value.index == s.index && t.value.casId == s.casId
      && Grown(s.items, t.value.items)
  {
    hide Inv, NewPage, Grown, RoomForPage;
    ShapeFacts(s);
    GrownRefl(s.items);
    if RoomForPage(s, c) {
      NewPageInv(s, c);
      NextPageIsNew(s);
      PageFacts(s, s.nextPage);
      NewPageGrows(s, c);
    }
  }

  lemma ShapeFacts(s: State)
    requires Inv(s)
    ensures |s.lru| == |s.free| == |s.slabs| == |s.cfg.classes|
  {
  }

  lemma GrownRefl(items: map<Chunk, Item>)
    ensures Grown(items, items)
  {
  }

  lemma NewPageGrows(s: State, c: nat)
    requires c < |s.cfg.classes| == |s.slabs| == |s.free| == |s.lru|
    requires forall p :: p in s.items ==> p.page != s.nextPage
    ensures var t := NewPage(s, c);
      && SameEnv(s, t) && t.holders == s.holders && |t.free| == |t.slabs| == |s.slabs|
      && t.lru == s.lru && t.index == s.index && t.casId == s.casId && Grown(s.items, t.items)
  {
  }

  /** slabs_alloc, then the initialisation of the chunk. */
  function AllocNew(s: State, c: nat, key: Key, flags: int, exptime: nat, data: string, memOk: bool)
    : (State, Option<Chunk>)
    requires Inv(s) && 1 <= c < |s.slabs| && |data| >= 2
  {
    match Supply(s, c, memOk)
    case None => (s, None)
    case Some(t) =>
      SupplyInv(s, c, memOk); ClaimInv(t, c, key, flags, exptime, data);
      (Claim(t, c, key, flags, exptime, data), Some(t.free[c][0]))
  }

  /** do_item_alloc.  `data` is what the data area of the chunk holds on return. */
  function ItemAlloc(s: State, key: Key, flags: int, exptime: nat, data: string,
                     blocked: set<Key>, memOk: bool): (State, Option<Chunk>)
    requires Inv(s) && |data| >= 2
  {
    var c := ClsId(s.cfg.classes, NTotal(s.cfg, key, flags, |data|));
    if c == 0 then (s, None) else
      LruFacts(s, c);
      match Victim(s, s.lru[c], SEARCH_TRIES, blocked)
      case None => AllocNew(s, c, key, flags, exptime, data, memOk)
      case Some(v) =>
        ChunkFacts(s, v);
        if Stale(s, s.items[v]) then (Steal(s, v, key, flags, exptime, data), Some(v))
        else if Supply(s, c, memOk).Some? then AllocNew(s, c, key, flags, exptime, data, memOk)
        else if s.cfg.evictToFree then (Steal(s, v, key, flags, exptime, data), Some(v))
        else (s, None)
  }

  lemma LruFacts(s: State, c: nat)
    requires Inv(s) && 1 <= c < |s.cfg.classes|
    ensures c < |s.lru| == |s.slabs|
    ensures forall p :: p in s.lru[c] ==> p in s.items && s.items[p].linked && ClassOf(s, p) == c
  {
  }

  /** What do_item_alloc returns is a chunk nobody else holds: it was free, or linked with
      no reference but the link, or did not exist. */
  ghost predicate Allocated(s: State, t: State, n: Chunk, key: Key, flags: int, exptime: nat, data: string) {
    && s.holders[n] == 0 && n !in s.uploads
    && t.holders == s.holders + multiset{n}
    && n in t.items && t.items[n].refcount == 1 && !t.items[n].linked && !t.items[n].slabbed
    && t.items[n].key == key && t.items[n].flags == flags
    && t.items[n].exptime == exptime && t.items[n].data == data
    && (forall q :: q in s.items && q != n ==> q in t.items && t.items[q] == s.items[q])
    && (t.index == s.index || (n in s.items && s.items[n].linked && t.index == s.index - {s.items[n].key}))
    && (n in s.items && s.items[n].linked ==> t.index == s.index - {s.items[n].key})
  }

  lemma AllocNewInv(s: State, c: nat, key: Key, flags: int, exptime: nat, data: string, memOk: bool)
    requires Inv(s) && 1 <= c < |s.slabs| && |data| >= 2
    ensures var (t, n) := AllocNew(s, c, key, flags, exptime, data, memOk);
      && Inv(t) && SameEnv(s, t) && t.casId == s.casId
      && (n.None? ==> t == s)
      && (n.Some? ==> Allocated(s, t, n.value, key, flags, exptime, data))
  {
    hide Inv;
    SupplyInv(s, c, memOk);
    var s' := Supply(s, c, memOk);
    if s'.Some? {
      ClaimInv(s'.value, c, key, flags, exptime, data);
      ChunkFacts(s'.value, s'.value.free[c][0]);
      if s'.value.free[c][0] in s.uploads { UploadFacts(s, s'.value.free[c][0]); }
    }
  }

  lemma StealFacts(s: State, v: Chunk, key: Key, flags: int, exptime: nat, data: string)
    requires Inv(s) && v in s.items && s.items[v].linked && s.items[v].refcount == 1 && |data| >= 2
    ensures Has(s, v)
    ensures Inv(Steal(s, v, key, flags, exptime, data))
    ensures SameEnv(s, Steal(s, v, key, flags, exptime, data))
    ensures Allocated(s, Steal(s, v, key, flags, exptime, data), v, key, flags, exptime, data)
  {
    hide Inv;
    ChunkFacts(s, v);
    StealInv(s, v, key, flags, exptime, data);
  }

  lemma ItemAllocInv(s: State, key: Key, flags: int, exptime: nat, data: string, blocked: set<Key>, memOk: bool)
    requires Inv(s) && |data| >= 2
    ensures var (t, n) := ItemAlloc(s, key, flags, exptime, data, blocked, memOk);
      && Inv(t) && SameEnv(s, t) && t.casId == s.casId
      && (n.None? ==> t == s)
      && (n.Some? ==> Allocated(s, t, n.value, key, flags, exptime, data))
  {
    hide Inv, Allocated, AllocNew, Steal, Supply, SameEnv;
    var c := ClsId(s.cfg.classes, NTotal(s.cfg, key, flags, |data|));
    if c != 0 {
      LruFacts(s, c);
      AllocNewInv(s, c, key, flags, exptime, data, memOk);
      var v := Victim(s, s.lru[c], SEARCH_TRIES, blocked);
      if v.Some? {
        StealFacts(s, v.value, key, flags, exptime, data);
        StealCas(s, v.value, key, flags, exptime, data);
      }
    }
    SameEnvRefl(s);
  }

  lemma SameEnvRefl(s: State) ensures SameEnv(s, s) {}

  lemma StealCas(s: State, v: Chunk, key: Key, flags: int, exptime: nat, data: string)
    requires Has(s, v)
    ensures Steal(s, v, key, flags, exptime, data).casId == s.casId
  {}

  // ----- do_store_item

  datatype Verb = Add | Set | Swap | Append | Prepend | Cas     // Swap is NREAD_REPLACE
  datatype Outcome = NotStored | Stored(cas: nat) | Exists | NotFound

  /** The two data areas joined, the CRLF of the first one dropped. */
  function Joined(a: string, b: string): string
    requires |a| >= 2
  {
    a[..|a| - 2] + b
  }

  /** A held linked item and a held unlinked one under the same key. */
  ghost predicate Pair(s: State, o: Chunk, p: Chunk) {
    && o in s.items && s.items[o].linked && o in s.holders
    && p in s.items && !s.items[p].linked && p in s.holders && p !in s.uploads
    && s.items[p].key == s.items[o].key
  }

  /** do_item_replace, then the reference to the old item goes. */
  function ReplaceHeld(s: State, o: Chunk, p: Chunk): (State, Outcome)
    requires Inv(s) && Pair(s, o, p)
  {
    ReplaceInv(s, o, p);
    var t := Replace(s, o, p);
    (Release(t, o), Stored(CasOf(t, p)))
  }

  lemma AllocPair(s: State, o: Chunk, key: Key, flags: int, exptime: nat, data: string, blocked: set<Key>, memOk: bool)
    requires Inv(s) && o in s.items && s.items[o].linked && o in s.holders && s.items[o].key == key && |data| >= 2
    ensures var (t, n) := ItemAlloc(s, key, flags, exptime, data, blocked, memOk);
      Inv(t) && Has(t, o) && (n.Some? ==> Has(t, n.value) && Pair(t, o, n.value))
  {
    hide Inv, ItemAlloc;
    ItemAllocInv(s, key, flags, exptime, data, blocked, memOk);
    var (t, n) := ItemAlloc(s, key, flags, exptime, data, blocked, memOk);
    ChunkFacts(t, o);
    if n.Some? { ChunkFacts(t, n.value); }
  }

  /** Allocate an item, put it in the place of the held item o, drop both references. */
  function Exchange(s: State, o: Chunk, key: Key, flags: int, exptime: nat, data: string,
                    blocked: set<Key>, memOk: bool): (State, Outcome)
    requires Inv(s) && o in s.items && s.items[o].linked && o in s.holders && s.items[o].key == key && |data| >= 2
  {
    AllocPair(s, o, key, flags, exptime, data, blocked, memOk);
    var (s1, n) := ItemAlloc(s, key, flags, exptime, data, blocked, memOk);
    match n
    case None => (Release(s1, o), NotStored)
    case Some(n) =>
      var (t, r) := ReplaceHeld(s1, o, n);
      (Release(t, n), r)
  }

  function StoreMissing(s: State, p: Chunk, verb: Verb): (State, Outcome)
    requires Inv(s) && p in s.items
  {
    ChunkFacts(s, p);
    match verb
    case Swap | Append | Prepend => (s, NotStored)
    case Cas => (s, NotFound)
    case Add | Set => var t := Link(s, p); (t, Stored(CasOf(t, p)))
  }

  /** Append and prepend: the held item o makes way for one that holds both data areas. */
  function Concat(s: State, p: Chunk, o: Chunk, data: string, blocked: set<Key>, memOk: bool): (State, Outcome)
    requires Inv(s) && Pair(s, o, p) && |data| >= 2
  {
    ChunkFacts(s, o);
    var it := s.items[o];
    if CasOf(s, p) != 0 && CasOf(s, p) != CasOf(s, o) then (Release(s, o), Exists)
    else Exchange(s, o, it.key, it.flags, it.exptime, data, blocked, memOk)
  }

  /** The walk for the joined item, if one is allocated, meets nothing to repair. */
  ghost predicate ConcatIdle(s: State, p: Chunk, o: Chunk, blocked: set<Key>)
    requires Inv(s) && Pair(s, o, p)
  {
    HeldFacts(s, o);
    (CasOf(s, p) == 0 || CasOf(s, p) == CasOf(s, o)) ==>
      RepairIdle(s, s.items[o].key, s.items[o].flags, |s.items[o].data| - 2 + |s.items[p].data|, blocked)
  }

  lemma HeldFacts(s: State, o: Chunk)
    requires Inv(s) && o in s.items && o in s.holders
    ensures |s.items[o].data| >= 2
  {
    hide Inv;
    HolderFacts(s, o);
  }

  function StorePresent(s: State, p: Chunk, o: Chunk, verb: Verb, blocked: set<Key>, memOk: bool)
    : (State, Outcome)
    requires Inv(s) && Pair(s, o, p)
  {
    ChunkFacts(s, o); HolderFacts(s, o); HolderFacts(s, p);
    match verb
    case Add => (Release(Update(s, o), o), NotStored)
    case Cas =>
      if CasOf(s, p) == CasOf(s, o) then ReplaceHeld(s, o, p) else (Release(s, o), Exists)
    case Set | Swap => ReplaceHeld(s, o, p)
    case Append => Concat(s, p, o, Joined(s.items[o].data, s.items[p].data), blocked, memOk)
    case Prepend => Concat(s, p, o, Joined(s.items[p].data, s.items[o].data), blocked, memOk)
  }

  /** do_store_item for the held, unlinked item p. */
  function Store(s: State, p: Chunk, verb: Verb, blocked: set<Key>, memOk: bool): (State, Outcome)
    requires Inv(s) && p in s.items && !s.items[p].linked && p in s.holders && p !in s.uploads
  {
    GetInv(s, s.items[p].key); GetLeaves(s, s.items[p].key, p);
    var (t, found) := Get(s, s.items[p].key);
    match found
    case None => StoreMissing(t, p, verb)
    case Some(o) => StorePresent(t, p, o, verb, blocked, memOk)
  }

  /** The same before the look-up. */
  ghost predicate JoinIdle(s: State, p: Chunk, blocked: set<Key>)
    requires Inv(s) && p in s.items && !s.items[p].linked && p in s.holders && p !in s.uploads
  {
    GetInv(s, s.items[p].key); GetLeaves(s, s.items[p].key, p);
    var (t, found) := Get(s, s.items[p].key);
    found.Some? ==> ConcatIdle(t, p, found.value, blocked)
  }

  /** do_item_get leaves the other items alone; a hit is linked under the key. */
  lemma GetLeaves(s: State, k: Key, p: Chunk)
    requires Inv(s) && p in s.items && !s.items[p].linked
    ensures p in Get(s, k).0.items && Get(s, k).0.items[p] == s.items[p]
    ensures var (t, o) := Get(s, k); o.Some? ==>
      o.value in t.items && t.items[o.value].linked && t.items[o.value].key == k && o.value in t.holders
    ensures p in s.holders ==> p in Get(s, k).0.holders
    ensures Get(s, k).1.None? ==> k !in Get(s, k).0.index
  {
    hide Memory, Pages, Lists, Accounts, Uploads, Queued, Freed, Ordered, Clock, CasIds, Mover;
    if k in s.index { ChunkFacts(s, s.index[k]); }
  }

  lemma ReplaceHeldInv(s: State, o: Chunk, p: Chunk)
    requires Inv(s) && Pair(s, o, p)
    ensures var (t, r) := ReplaceHeld(s, o, p);
      && Inv(t) && SameEnv(s, t) && t.holders == s.holders - multiset{o}
  {
    hide Inv;
    ReplaceInv(s, o, p);
    ChunkFacts(s, o);
    UnlinkInv(s, o);
    ReleaseInv(Replace(s, o, p), o);
  }

  lemma ExchangeInv(s: State, o: Chunk, key: Key, flags: int, exptime: nat, data: string, blocked: set<Key>,
                    memOk: bool)
    requires Inv(s) && o in s.items && s.items[o].linked && o in s.holders && s.items[o].key == key && |data| >= 2
    ensures var (t, r) := Exchange(s, o, key, flags, exptime, data, blocked, memOk);
      && Inv(t) && SameEnv(s, t) && t.holders == s.holders - multiset{o}
  {
    hide Inv, ItemAlloc, ReplaceHeld;
    ItemAllocInv(s, key, flags, exptime, data, blocked, memOk);
    HolderFacts(s, o);
    ChunkFacts(s, o);
    var (s1, n) := ItemAlloc(s, key, flags, exptime, data, blocked, memOk);
    match n
    case None => ReleaseInv(s1, o);
    case Some(n) =>
      ReplaceHeldInv(s1, o, n);
      var (t, r) := ReplaceHeld(s1, o, n);
      ReleaseInv(t, n);
      assert s1.holders - multiset{o} - multiset{n} == s.holders - multiset{o};
  }

  lemma StoreInv(s: State, p: Chunk, verb: Verb, blocked: set<Key>, memOk: bool)
    requires Inv(s) && p in s.items && !s.items[p].linked && p in s.holders && p !in s.uploads
    ensures var (t, r) := Store(s, p, verb, blocked, memOk);
      && Inv(t) && SameEnv(s, t) && t.holders == s.holders
  {
    hide Inv, Get, Exchange, ReplaceHeld, Release, Update, Link;
    var k := s.items[p].key;
    GetInv(s, k);
    GetLeaves(s, k, p);
    var (t, found) := Get(s, k);
    match found
    case None =>
      if verb == Add || verb == Set { ChunkFacts(t, p); LinkInv(t, p); LinkEnv(t, p); }
    case Some(o) =>
      GetHolds(s, k);
      StorePresentInv(t, p, o, verb, blocked, memOk);
      assert t.holders - multiset{o} == s.holders;
  }

  lemma GetHolds(s: State, k: Key)
    requires Inv(s) && Get(s, k).1.Some?
    ensures Get(s, k).0.holders == s.holders + multiset{Get(s, k).1.value}
  {}

  lemma LinkEnv(s: State, p: Chunk)
    requires Has(s, p)
    ensures SameEnv(s, Link(s, p)) && Link(s, p).holders == s.holders
  {}

  lemma StorePresentInv(s: State, p: Chunk, o: Chunk, verb: Verb, blocked: set<Key>, memOk: bool)
    requires Inv(s) && Pair(s, o, p)
    ensures var (t, r) := StorePresent(s, p, o, verb, blocked, memOk);
      && Inv(t) && SameEnv(s, t) && t.holders == s.holders - multiset{o}
  {
    hide Inv, Exchange, ReplaceHeld;
    ChunkFacts(s, o); HolderFacts(s, o); HolderFacts(s, p);
    ReleaseInv(s, o);
    match verb
    case Add => UpdateInv(s, o); ReleaseInv(Update(s, o), o);
    case Cas => ReplaceHeldInv(s, o, p);
    case Set => ReplaceHeldInv(s, o, p);
    case Swap => ReplaceHeldInv(s, o, p);
    case Append =>
      var it := s.items[o];
      ExchangeInv(s, o, it.key, it.flags, it.exptime, Joined(it.data, s.items[p].data), blocked, memOk);
    case Prepend =>
      var it := s.items[o];
      ExchangeInv(s, o, it.key, it.flags, it.exptime, Joined(s.items[p].data, it.data), blocked, memOk);
  }

  // ----- do_add_delta

  datatype DeltaResult = DeltaOk(text: string, cas: nat) | NonNumeric | OutOfMemory | DeltaNotFound | CasMismatch

  /** incr wraps round at 2^64, decr stops at 0; both on unsigned 64-bit values. */
  function Applied(incr: bool, value: nat, delta: nat): nat {
    if incr then (value + delta) % D.TWO64 else if delta > value then 0 else value - delta
  }

  lemma ReplaceHeldOld(s: State, o: Chunk, p: Chunk)
    requires Inv(s) && Pair(s, o, p)
    ensures var (t, r) := ReplaceHeld(s, o, p); o in t.items && !t.items[o].linked && o !in t.uploads
  {
    hide Inv;
    ReplaceInv(s, o, p);
    ChunkFacts(s, o);
  }

  /** What Exchange leaves of the item it replaces. */
  lemma ExchangeOld(s: State, o: Chunk, key: Key, flags: int, exptime: nat, data: string, blocked: set<Key>,
                    memOk: bool)
    requires Inv(s) && o in s.items && s.items[o].linked && o in s.holders && s.items[o].key == key && |data| >= 2
    ensures var (t, r) := Exchange(s, o, key, flags, exptime, data, blocked, memOk);
      r.Stored? ==> o in t.items && !t.items[o].linked && o !in t.uploads
  {
    hide Inv, ItemAlloc, ReplaceHeld;
    AllocPair(s, o, key, flags, exptime, data, blocked, memOk);
    var (s1, n) := ItemAlloc(s, key, flags, exptime, data, blocked, memOk);
    if n.Some? {
      ReplaceHeldInv(s1, o, n.value);
      ReplaceHeldOld(s1, o, n.value);
    }
  }

  /** The item that has been replaced is given the cas id of its successor. */
  function Restamp(s: State, p: Chunk, cas: nat): State
    requires p in s.items
  {
    if s.cfg.useCas then s.(items := s.items[p := s.items[p].(cas := cas)]) else s
  }

  lemma RestampInv(s: State, p: Chunk, cas: nat)
    requires Inv(s) && p in s.items && !s.items[p].linked && p !in s.uploads
    ensures Inv(Restamp(s, p, cas)) && SameEnv(s, Restamp(s, p, cas)) && Restamp(s, p, cas).holders == s.holders
  {
    hide Inv;
    ChunkFacts(s, p);
    if s.cfg.useCas { PutInv(s, p, s.items[p].(cas := cas), s.holders); }
  }

  /** do_add_delta; `behind` is what the memory holds behind the data of the item. */
  function AddDelta(s: State, k: Key, incr: bool, delta: nat, cas: nat, behind: string, blocked: set<Key>, memOk: bool)
    : (State, DeltaResult)
    requires Inv(s)
  {
    GetInv(s, k);
    var (t, found) := Get(s, k);
    match found
    case None => (t, DeltaNotFound)
    case Some(p) =>
      FoundFacts(s, k);
      var it := t.items[p];
      var value := D.Parsed(it.data, behind);
      if cas != 0 && CasOf(t, p) != cas then (Release(t, p), CasMismatch)
      else if value.None? then (Release(t, p), NonNumeric)
      else
        var text := D.Digits(Applied(incr, value.value, delta));
        var (u, r) := Exchange(t, p, k, it.flags, it.exptime, text + "\r\n", blocked, memOk);
        if r.Stored? then
          ExchangeOld(t, p, k, it.flags, it.exptime, text + "\r\n", blocked, memOk);
          (Restamp(u, p, r.cas), DeltaOk(text, r.cas))
        else (u, OutOfMemory)
  }

  /** The walk for the new number, if one is allocated, meets nothing to repair. */
  ghost predicate DeltaIdle(s: State, k: Key, incr: bool, delta: nat, cas: nat, behind: string, blocked: set<Key>)
    requires Inv(s)
  {
    GetInv(s, k);
    var (t, found) := Get(s, k);
    found.Some? ==> (FoundFacts(s, k); RenumberIdle(t, found.value, k, incr, delta, cas, behind, blocked))
  }

  /** The same after the look-up. */
  ghost predicate RenumberIdle(s: State, p: Chunk, k: Key, incr: bool, delta: nat, cas: nat, behind: string,
                               blocked: set<Key>)
    requires Inv(s) && p in s.items
  {
    var value := D.Parsed(s.items[p].data, behind);
    (cas == 0 || CasOf(s, p) == cas) && value.Some? ==>
      RepairIdle(s, k, s.items[p].flags, |D.Digits(Applied(incr, value.value, delta))| + 2, blocked)
  }

  lemma FoundFacts(s: State, k: Key)
    requires Inv(s) && Get(s, k).1.Some?
    ensures var (t, p) := Get(s, k);
      && Has(t, p.value) && t.items[p.value].linked && t.items[p.value].key == k && p.value in t.holders
      && t.holders == s.holders + multiset{p.value}
      && t.items[p.value].refcount >= 2 && |t.items[p.value].data| >= 2 && p.value !in t.uploads
  {
    hide Memory, Pages, Lists, Accounts, Uploads, Queued, Freed, Ordered, Clock, CasIds, Mover;
    ChunkFacts(s, s.index[k]);
    HoldInv(s, s.index[k]);
    HolderFacts(Hold(s, s.index[k]), s.index[k]);
  }

  lemma AddDeltaInv(s: State, k: Key, incr: bool, delta: nat, cas: nat, behind: string, blocked: set<Key>, memOk: bool)
    requires Inv(s)
    ensures var (t, r) := AddDelta(s, k, incr, delta, cas, behind, blocked, memOk);
      && Inv(t) && SameEnv(s, t) && t.holders == s.holders
  {
    hide Inv, Get, Exchange;
    GetInv(s, k);
    var (t, found) := Get(s, k);
    match found
    case None =>
    case Some(p) =>
      FoundFacts(s, k);
      ReleaseInv(t, p);
      var it := t.items[p];
      var value := D.Parsed(it.data, behind);
      assert t.holders - multiset{p} == s.holders;
      if value.Some? {
        var text := D.Digits(Applied(incr, value.value, delta));
        ExchangeInv(t, p, k, it.flags, it.exptime, text + "\r\n", blocked, memOk);
        var (u, r) := Exchange(t, p, k, it.flags, it.exptime, text + "\r\n", blocked, memOk);
        if r.Stored? {
          ExchangeOld(t, p, k, it.flags, it.exptime, text + "\r\n", blocked, memOk);
          RestampInv(u, p, r.cas);
        }
      }
  }

  // ----- delete and flush_all

  /** item_get, item_unlink, item_remove. */
  function Delete(s: State, k: Key): (State, bool)
    requires Inv(s)
  {
    GetInv(s, k);
    var (t, found) := Get(s, k);
    match found
    case None => (t, false)
    case Some(p) => FoundFacts(s, k); (Release(Unlink(t, p), p), true)
  }

  lemma DeleteInv(s: State, k: Key)
    requires Inv(s)
    ensures Inv(Delete(s, k).0) && SameEnv(s, Delete(s, k).0) && Delete(s, k).0.holders == s.holders
  {
    hide Inv, Get;
    GetInv(s, k);
    var (t, found) := Get(s, k);
    if found.Some? {
      FoundFacts(s, k);
      UnlinkInv(t, found.value);
      ReleaseInv(Unlink(t, found.value), found.value);
      assert t.holders - multiset{found.value} == s.holders;
    }
  }

  /** The walk of do_item_flush_expired over one queue: it stops at the first item older
      than oldest_live. */
  function FlushQueue(s: State, c: nat): State
    requires Inv(s) && c < |s.lru|
    decreases |s.lru[c]|
  {
    if s.lru[c] == [] then s else
      var p := s.lru[c][0];
      HeadFacts(s, c);
      if s.items[p].time >= s.oldestLive then UnlinkInv(s, p); FlushQueue(Unlink(s, p), c) else s
  }

  lemma HeadFacts(s: State, c: nat)
    requires Inv(s) && c < |s.lru| && s.lru[c] != []
    ensures var p := s.lru[c][0];
      && Has(s, p) && s.items[p].linked && ClassOf(s, p) == c
      && Unlink(s, p).lru == s.lru[c := s.lru[c][1..]]
  {
    hide Memory, Uploads, Freed, Index, Ordered, Clock, CasIds, Mover;
    assert s.lru[c][0] in s.lru[c];
    WithoutHead(s.lru[c]);
  }

  function FlushFrom(s: State, c: nat): State
    requires Inv(s) && c <= |s.lru|
    decreases |s.lru| - c
  {
    if c == |s.lru| then s else
      FlushQueueInv(s, c); ThinnedLength(s, FlushQueue(s, c), c);
      FlushFrom(FlushQueue(s, c), c + 1)
  }

  /** The part of an item a client can see. */
  function Content(it: Item): (Key, int, string, nat, nat) { (it.key, it.flags, it.data, it.exptime, it.cas) }

  predicate SeenAlike(a: Item, b: Item) {
    Content(a) == Content(b) && a.time == b.time && (b.linked ==> a.linked)
  }

  /** Items may have been unlinked from queue c, nothing else has changed. */
  ghost predicate Thinned(s: State, t: State, c: nat) {
    && SameEnv(s, t) && t.holders == s.holders && t.casId == s.casId && |t.lru| == |s.lru|
    && (forall d :: 0 <= d < |s.lru| && d != c ==> t.lru[d] == s.lru[d])
    && (forall k :: k in t.index ==> k in s.index && t.index[k] == s.index[k])
    && t.items.Keys == s.items.Keys
    && (forall p :: p in s.items ==> SeenAlike(s.items[p], t.items[p]))
  }

  lemma UnlinkThins(s: State, c: nat)
    requires Inv(s) && c < |s.lru| && s.lru[c] != []
    ensures Has(s, s.lru[c][0]) && Thinned(s, Unlink(s, s.lru[c][0]), c)
  {
    hide Inv;
    HeadFacts(s, c);
    UnlinkInv(s, s.lru[c][0]);
  }

  lemma ThinnedTrans(s: State, t: State, u: State, c: nat)
    requires Thinned(s, t, c) && Thinned(t, u, c)
    ensures Thinned(s, u, c)
  {
  }

  /** The head of queue c, if there is one, was linked before oldest_live. */
  ghost predicate HeadOld(s: State, c: nat) {
    c < |s.lru| && s.lru[c] != [] ==> s.lru[c][0] in s.items && s.items[s.lru[c][0]].time < s.oldestLive
  }

  lemma {:induction false} FlushQueueInv(s: State, c: nat)
    requires Inv(s) && c < |s.lru|
    ensures Inv(FlushQueue(s, c)) && Thinned(s, FlushQueue(s, c), c) && HeadOld(FlushQueue(s, c), c)
    decreases |s.lru[c]|
  {
    hide Inv, Thinned, Unlink;
    ThinnedRefl(s, c);
    if s.lru[c] != [] {
      var p := s.lru[c][0];
      HeadFacts(s, c);
      if s.items[p].time >= s.oldestLive {
        UnlinkInv(s, p);
        UnlinkThins(s, c);
        FlushQueueInv(Unlink(s, p), c);
        ThinnedTrans(s, Unlink(s, p), FlushQueue(s, c), c);
      }
    }
  }

  lemma ThinnedRefl(s: State, c: nat) ensures Thinned(s, s, c) {}

  lemma ThinnedLength(s: State, t: State, c: nat)
    requires Thinned(s, t, c)
    ensures |t.lru| == |s.lru|
  {}

  /** Items may have been unlinked, nothing else has changed. */
  ghost predicate ThinnedAll(s: State, t: State) {
    && SameEnv(s, t) && t.holders == s.holders && t.casId == s.casId && |t.lru| == |s.lru|
    && (forall k :: k in t.index ==> k in s.index && t.index[k] == s.index[k])
    && t.items.Keys == s.items.Keys
    && (forall p :: p in s.items ==> SeenAlike(s.items[p], t.items[p]))
  }

  lemma HeadsStayOld(s: State, t: State, c: nat)
    requires Thinned(s, t, c) && c < |s.lru| && HeadOld(t, c)
    requires forall d :: 0 <= d < c ==> HeadOld(s, d)
    ensures forall d :: 0 <= d <= c ==> HeadOld(t, d)
  {
    forall d | 0 <= d < c ensures HeadOld(t, d) {
      assert HeadOld(s, d);
      if s.lru[d] != [] { assert SeenAlike(s.items[s.lru[d][0]], t.items[s.lru[d][0]]); }
    }
  }

  lemma {:induction false} FlushFromInv(s: State, c: nat)
    requires Inv(s) && c <= |s.lru| && forall d :: 0 <= d < c ==> HeadOld(s, d)
    ensures var t := FlushFrom(s, c);
      Inv(t) && ThinnedAll(s, t) && forall d :: 0 <= d < |t.lru| ==> HeadOld(t, d)
    decreases |s.lru| - c
  {
    hide Inv, Thinned, ThinnedAll, HeadOld, FlushQueue;
    if c == |s.lru| {
      ThinnedAllRefl(s);
    } else {
      var t := FlushQueue(s, c);
      FlushQueueInv(s, c);
      ThinnedLength(s, t, c);
      HeadsStayOld(s, t, c);
      FlushFromInv(t, c + 1);
      ThinnedThenAll(s, t, FlushFrom(t, c + 1), c);
      ThinnedAllLength(t, FlushFrom(t, c + 1));
    }
  }

  lemma ThinnedAllRefl(s: State) ensures ThinnedAll(s, s) {}

  lemma ThinnedThenAll(s: State, t: State, u: State, c: nat)
    requires Thinned(s, t, c) && ThinnedAll(t, u)
    ensures ThinnedAll(s, u)
  {}

  lemma ThinnedAllLength(s: State, t: State)
    requires ThinnedAll(s, t)
    ensures |t.lru| == |s.lru|
  {}

  /** flush_all without a delay. */
  function FlushAll(s: State): State
    requires Inv(s)
  {
    ClockInv(s, s.now, s.now - 1);
    FlushFrom(s.(oldestLive := s.now - 1), 0)
  }

  /** The early stop of the walk misses nothing: because the queues are sorted by time,
      after flush_all every item still linked is one that lookups treat as flushed. */
  lemma FlushAllInv(s: State)
    requires Inv(s)
    ensures var t := FlushAll(s);
      && Inv(t) && t.holders == s.holders && t.uploads == s.uploads && t.cfg == s.cfg && t.now == s.now
      && t.rebal == s.rebal && t.casId == s.casId && t.oldestLive == s.now - 1
      && t.items.Keys == s.items.Keys
      && (forall p :: p in s.items ==> SeenAlike(s.items[p], t.items[p]))
      && (forall p :: p in t.items && t.items[p].linked ==> Flushed(t, t.items[p]))
  {
    hide Memory, Pages, Lists, Accounts, Uploads, Queued, Freed, Index, Ordered, CasIds, Mover, HeadOld;
    var s' := s.(oldestLive := s.now - 1);
    ClockInv(s, s.now, s.now - 1);
    FlushFromInv(s', 0);
    OldHeadsMeanOld(FlushFrom(s', 0));
  }

  lemma OldHeadsMeanOld(t: State)
    requires Inv(t) && forall d :: 0 <= d < |t.lru| ==> HeadOld(t, d)
    ensures forall p :: p in t.items && t.items[p].linked ==> t.items[p].time < t.oldestLive
  {
    hide Memory, Pages, Accounts, Uploads, Freed, Index, CasIds, Mover;
    forall p | p in t.items && t.items[p].linked ensures t.items[p].time < t.oldestLive {
      var c := t.owner[p.page];
      var i := IndexOf(t.lru[c], p);
      assert HeadOld(t, c);
      assert t.lru[c][0] in t.lru[c];
      if i > 0 { assert t.items[t.lru[c][0]].time >= t.items[t.lru[c][i]].time; }
    }
  }
}
