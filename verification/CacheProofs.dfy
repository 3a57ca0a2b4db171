/** Every elementary transition keeps the invariant. */
module CacheProofs {
  import opened Seqs
  import opened SlabClasses
  import opened CacheState
  import opened CacheInvariant

  /** What the invariant says of one chunk. */
  lemma ChunkFacts(s: State, p: Chunk)
    requires Inv(s) && p in s.items
    ensures Has(s, p) && 1 <= ClassOf(s, p) < |s.cfg.classes| == |s.slabs|
    ensures Accounted(s.items[p], s.holders[p], s.owner[p.page])
    ensures s.items[p].linked ==> p !in s.uploads && p in s.lru[ClassOf(s, p)]
    ensures s.items[p].linked <==> s.items[p].key in s.index && s.index[s.items[p].key] == p
    ensures s.items[p].slabbed <==> p in s.free[ClassOf(s, p)]
  {
  }

  lemma HolderFacts(s: State, p: Chunk)
    requires Inv(s) && p in s.holders
    ensures p in s.items && s.items[p].refcount > 0 && !s.items[p].slabbed
    ensures s.items[p].clsid == ClassOf(s, p) && |s.items[p].data| >= 2
  {
  }

  // ----- changes that leave the linked items alone

  /** Same chunks, same links, and the linked ones look the same to table, queues and
      counters. */
  ghost predicate Alike(a: map<Chunk, Item>, b: map<Chunk, Item>) {
    && a.Keys == b.Keys
    && (forall p :: p in a ==> a[p].linked == b[p].linked)
    && (forall p :: Emptied(a, p) <==> Emptied(b, p))
    && (forall p :: p in a && a[p].linked ==>
          && a[p].key == b[p].key && a[p].time == b[p].time && a[p].cas == b[p].cas
          && a[p].flags == b[p].flags && |a[p].data| == |b[p].data|)
  }

  lemma AlikeIndex(a: map<Chunk, Item>, b: map<Chunk, Item>, index: map<Key, Chunk>)
    requires Alike(a, b) && Index(a, index)
    ensures Index(b, index)
  {
  }

  lemma AlikeQueues(a: map<Chunk, Item>, b: map<Chunk, Item>, owner: map<nat, nat>, lru: seq<seq<Chunk>>, now: nat)
    requires Alike(a, b) && Queued(a, owner, lru) && Lists(lru, owner, a.Keys) && Ordered(a, lru, now)
    ensures Queued(b, owner, lru) && Ordered(b, lru, now)
  {
    forall c, i | 0 <= c < |lru| && 0 <= i < |lru[c]|
      ensures lru[c][i] in a && b[lru[c][i]].time == a[lru[c][i]].time
    {
      assert lru[c][i] in lru[c];
    }
  }

  lemma AlikeCounts(cfg: Config, a: map<Chunk, Item>, b: map<Chunk, Item>, casId: nat)
    requires Alike(a, b) && CasIds(a, cfg.useCas, casId)
    ensures CasIds(b, cfg.useCas, casId) && LinkedBytes(cfg, a) == LinkedBytes(cfg, b)
  {
  }

  lemma AlikeMover(a: map<Chunk, Item>, b: map<Chunk, Item>, r: Rebalance, slabs: seq<seq<nat>>,
                   classes: seq<SlabClass>)
    requires Mover(r, slabs, classes, a)
    requires forall p :: Emptied(a, p) <==> Emptied(b, p)
    ensures Mover(r, slabs, classes, b)
  {
  }

  lemma AlikeInv(s: State, t: State)
    requires Inv(s) && SameShape(s, t) && Alike(s.items, t.items)
    requires t.index == s.index && t.lru == s.lru && t.rebal == s.rebal && t.casId == s.casId
    requires t.currItems == s.currItems && t.currBytes == s.currBytes
    requires Accounts(t.items, t.holders, t.owner) && Uploads(t.items, t.holders, t.uploads)
    requires Freed(t.items, t.owner, t.free) && Lists(t.free, t.owner, t.items.Keys)
    ensures Inv(t)
  {
    AlikeIndex(s.items, t.items, s.index);
    AlikeQueues(s.items, t.items, s.owner, s.lru, s.now);
    AlikeCounts(s.cfg, s.items, t.items, s.casId);
    AlikeMover(s.items, t.items, s.rebal, s.slabs, s.cfg.classes);
  }

  // ----- one chunk rewritten

  lemma PutAccounts(items: map<Chunk, Item>, h: multiset<Chunk>, owner: map<nat, nat>,
                    p: Chunk, it: Item, h': multiset<Chunk>)
    requires Accounts(items, h, owner) && p in items && Accounted(it, h'[p], owner[p.page])
    requires forall q :: q != p ==> h'[q] == h[q]
    ensures Accounts(items[p := it], h', owner)
  {
    forall q | q in h' ensures q in items { assert q != p ==> q in h; }
  }

  lemma PutUploads(items: map<Chunk, Item>, h: multiset<Chunk>, uploads: set<Chunk>,
                   p: Chunk, it: Item, h': multiset<Chunk>)
    requires Uploads(items, h, uploads) && p in items && p !in uploads
    requires forall q :: q != p ==> h'[q] == h[q]
    ensures Uploads(items[p := it], h', uploads)
  {
  }

  lemma PutFreed(items: map<Chunk, Item>, owner: map<nat, nat>, free: seq<seq<Chunk>>, p: Chunk, it: Item)
    requires Freed(items, owner, free) && p in items && it.slabbed == items[p].slabbed
    ensures Freed(items[p := it], owner, free)
  {
  }

  lemma PutAlike(items: map<Chunk, Item>, p: Chunk, it: Item)
    requires p in items && it.linked == items[p].linked && (it.clsid == MARKED <==> items[p].clsid == MARKED)
    requires it.linked ==> it.key == items[p].key && it.time == items[p].time && it.cas == items[p].cas
                           && it.flags == items[p].flags && |it.data| == |items[p].data|
    ensures Alike(items, items[p := it])
  {
  }

  /** Putting an item in place that differs only in ways Alike ignores. */
  lemma PutInv(s: State, p: Chunk, it: Item, h': multiset<Chunk>)
    requires Inv(s) && p in s.items && p !in s.uploads
    requires Accounted(it, h'[p], s.owner[p.page]) && it.slabbed == s.items[p].slabbed
    requires forall q :: q != p ==> h'[q] == s.holders[q]
    requires it.linked == s.items[p].linked && (it.clsid == MARKED <==> s.items[p].clsid == MARKED)
    requires it.linked ==> it.key == s.items[p].key && it.time == s.items[p].time && it.cas == s.items[p].cas
                           && it.flags == s.items[p].flags && |it.data| == |s.items[p].data|
    ensures Inv(s.(items := s.items[p := it], holders := h'))
  {
    PutAccounts(s.items, s.holders, s.owner, p, it, h');
    PutUploads(s.items, s.holders, s.uploads, p, it, h');
    PutFreed(s.items, s.owner, s.free, p, it);
    PutAlike(s.items, p, it);
    AlikeInv(s, s.(items := s.items[p := it], holders := h'));
  }

  // ----- holding and releasing

  lemma HoldInv(s: State, p: Chunk)
    requires Inv(s) && p in s.items && s.items[p].refcount > 0 && p !in s.uploads
    ensures Inv(Hold(s, p))
  {
    hide Memory, Pages, Lists, Uploads, Queued, Freed, Index, Ordered, Clock, CasIds, Mover;
    PutInv(s, p, s.items[p].(refcount := s.items[p].refcount + 1), s.holders + multiset{p});
  }

  // ----- lists

  lemma PushList(lists: seq<seq<Chunk>>, owner: map<nat, nat>, chunks: set<Chunk>, p: Chunk)
    requires Lists(lists, owner, chunks)
    requires p in chunks && p.page in owner && owner[p.page] < |lists| && p !in lists[owner[p.page]]
    ensures Lists(lists[owner[p.page] := [p] + lists[owner[p.page]]], owner, chunks)
  {
  }

  lemma CutList(lists: seq<seq<Chunk>>, owner: map<nat, nat>, chunks: set<Chunk>, c: nat, p: Chunk)
    requires Lists(lists, owner, chunks) && c < |lists|
    ensures Lists(lists[c := Without(lists[c], p)], owner, chunks)
  {
    WithoutNoDup(lists[c], p);
  }

  lemma FreedPush(items: map<Chunk, Item>, owner: map<nat, nat>, free: seq<seq<Chunk>>, p: Chunk, it: Item)
    requires Freed(items, owner, free) && p in items && it.slabbed
    ensures Freed(items[p := it], owner, free[owner[p.page] := [p] + free[owner[p.page]]])
  {
  }

  lemma FreedCut(items: map<Chunk, Item>, owner: map<nat, nat>, free: seq<seq<Chunk>>, p: Chunk, it: Item)
    requires Freed(items, owner, free) && p in items && !it.slabbed && NoDup(free[owner[p.page]])
    ensures Freed(items[p := it], owner, free[owner[p.page] := Without(free[owner[p.page]], p)])
  {
    WithoutNoDup(free[owner[p.page]], p);
  }

  lemma FreeRefs(s: State, p: Chunk, it: Item, h: multiset<Chunk>)
    requires Inv(s) && p in s.items && p !in s.uploads && !s.items[p].slabbed
    requires it.slabbed && Accounted(it, h[p], s.owner[p.page]) && forall q :: q != p ==> h[q] == s.holders[q]
    ensures var c := s.owner[p.page];
      && c < |s.free|
      && Accounts(s.items[p := it], h, s.owner)
      && Uploads(s.items[p := it], h, s.uploads)
      && Freed(s.items[p := it], s.owner, s.free[c := [p] + s.free[c]])
      && Lists(s.free[c := [p] + s.free[c]], s.owner, s.items.Keys)
  {
    hide Memory, Pages, Queued, Index, Ordered, Clock, CasIds, Mover, NoDup;
    PutAccounts(s.items, s.holders, s.owner, p, it, h);
    PutUploads(s.items, s.holders, s.uploads, p, it, h);
    FreedPush(s.items, s.owner, s.free, p, it);
    PushList(s.free, s.owner, s.items.Keys, p);
  }

  lemma ReleaseInv(s: State, p: Chunk)
    requires Inv(s) && p in s.holders && p !in s.uploads
    ensures Inv(Release(s, p))
  {
    hide Memory, Pages, Lists, Accounts, Uploads, Queued, Freed, Index, Ordered, Clock, CasIds, Mover;
    HolderFacts(s, p);
    ChunkFacts(s, p);
    var it := s.items[p];
    var h := s.holders - multiset{p};
    if it.refcount > 1 {
      PutInv(s, p, it.(refcount := it.refcount - 1), h);
    } else {
      var new_it := it.(refcount := 0, clsid := 0, slabbed := true);
      FreeRefs(s, p, new_it, h);
      PutAlike(s.items, p, new_it);
      AlikeInv(s, Release(s, p));
    }
  }

  // ----- unlinking

  lemma IndexCut(items: map<Chunk, Item>, index: map<Key, Chunk>, p: Chunk, it: Item)
    requires Index(items, index) && p in items && items[p].linked && !it.linked
    ensures Index(items[p := it], index - {items[p].key})
    ensures |index - {items[p].key}| == |index| - 1
  {
    assert (index - {items[p].key}).Keys == index.Keys - {items[p].key};
  }

  lemma QueuedCut(items: map<Chunk, Item>, owner: map<nat, nat>, lru: seq<seq<Chunk>>, p: Chunk, it: Item)
    requires Queued(items, owner, lru) && p in items && !it.linked && NoDup(lru[owner[p.page]])
    ensures Queued(items[p := it], owner, lru[owner[p.page] := Without(lru[owner[p.page]], p)])
  {
    WithoutNoDup(lru[owner[p.page]], p);
  }

  /** Cutting a chunk out of its queue leaves the queues sorted, whatever its item becomes. */
  lemma OrderedCut(items: map<Chunk, Item>, lru: seq<seq<Chunk>>, now: nat, c: nat, p: Chunk, it: Item)
    requires Ordered(items, lru, now) && c < |lru| && p in lru[c] && NoDup(lru[c])
    requires forall d :: 0 <= d < |lru| && d != c ==> p !in lru[d]
    ensures Ordered(items[p := it], lru[c := Without(lru[c], p)], now)
  {
    var i := IndexOf(lru[c], p);
    var q := Without(lru[c], p);
    forall j | 0 <= j < |q| ensures q[j] == lru[c][if j < i then j else j + 1] && q[j] != p {
      assert lru[c][if j < i then j else j + 1] != lru[c][i];
    }
    forall d, j | 0 <= d < |lru| && d != c && 0 <= j < |lru[d]| ensures lru[d][j] != p {
      assert lru[d][j] in lru[d];
    }
  }

  lemma CasCut(items: map<Chunk, Item>, useCas: bool, casId: nat, p: Chunk, it: Item)
    requires CasIds(items, useCas, casId) && !it.linked
    ensures CasIds(items[p := it], useCas, casId)
  {
  }

  lemma BytesCut(cfg: Config, items: map<Chunk, Item>, p: Chunk, it: Item)
    requires p in items && items[p].linked && !it.linked
    ensures Total(LinkedBytes(cfg, items[p := it])) == Total(LinkedBytes(cfg, items)) - ItemTotal(cfg, items[p])
  {
    TotalRemove(LinkedBytes(cfg, items), p);
    assert LinkedBytes(cfg, items[p := it]) == LinkedBytes(cfg, items) - {p};
  }

  lemma CutQueue(s: State, p: Chunk, it: Item)
    requires Inv(s) && p in s.items && s.items[p].linked && !it.linked
    ensures var c := s.owner[p.page];
            && c < |s.lru|
            && var lru := s.lru[c := Without(s.lru[c], p)];
            && Lists(lru, s.owner, s.items.Keys)
            && Queued(s.items[p := it], s.owner, lru)
            && Ordered(s.items[p := it], lru, s.now)
  {
    var c := s.owner[p.page];
    CutList(s.lru, s.owner, s.items.Keys, c, p);
    QueuedCut(s.items, s.owner, s.lru, p, it);
    OrderedCut(s.items, s.lru, s.now, c, p, it);
  }

  lemma PutRefs(s: State, p: Chunk, it: Item, h': multiset<Chunk>)
    requires Inv(s) && p in s.items && p !in s.uploads
    requires it.slabbed == s.items[p].slabbed && Accounted(it, h'[p], s.owner[p.page])
    requires it.clsid == MARKED <==> s.items[p].clsid == MARKED
    requires forall q :: q != p ==> h'[q] == s.holders[q]
    ensures Accounts(s.items[p := it], h', s.owner)
    ensures Uploads(s.items[p := it], h', s.uploads)
    ensures Freed(s.items[p := it], s.owner, s.free)
    ensures Mover(s.rebal, s.slabs, s.cfg.classes, s.items[p := it])
  {
    hide Memory, Pages, Lists, Queued, Index, Ordered, CasIds;
    PutAccounts(s.items, s.holders, s.owner, p, it, h');
    PutUploads(s.items, s.holders, s.uploads, p, it, h');
    PutFreed(s.items, s.owner, s.free, p, it);
    AlikeMover(s.items, s.items[p := it], s.rebal, s.slabs, s.cfg.classes);
  }

  lemma CutTable(s: State, p: Chunk, it: Item)
    requires Inv(s) && p in s.items && s.items[p].linked && !it.linked
    ensures Index(s.items[p := it], s.index - {s.items[p].key})
    ensures CasIds(s.items[p := it], s.cfg.useCas, s.casId)
    ensures |s.index - {s.items[p].key}| == s.currItems - 1
    ensures Total(LinkedBytes(s.cfg, s.items[p := it])) == s.currBytes - ItemTotal(s.cfg, s.items[p])
  {
    hide Memory, Pages, Lists, Accounts, Uploads, Queued, Freed, Ordered, Mover;
    IndexCut(s.items, s.index, p, it);
    CasCut(s.items, s.cfg.useCas, s.casId, p, it);
    BytesCut(s.cfg, s.items, p, it);
  }

  /** Taking a linked chunk out of table and queue and giving it any unlinked content. */
  lemma CutInv(s: State, p: Chunk, it: Item, h': multiset<Chunk>)
    requires Inv(s) && p in s.items && s.items[p].linked
    requires !it.linked && !it.slabbed && it.clsid != MARKED && Accounted(it, h'[p], s.owner[p.page])
    requires forall q :: q != p ==> h'[q] == s.holders[q]
    ensures Inv(Detach(s, p).(items := s.items[p := it], holders := h'))
  {
    hide Memory, Pages, Lists, Accounts, Uploads, Queued, Freed, Index, Ordered, Clock, CasIds, Mover;
    ChunkFacts(s, p);
    CutQueue(s, p, it);
    CutTable(s, p, it);
    PutRefs(s, p, it, h');
    assert s.items[p := it].Keys == s.items.Keys;
  }

  lemma DetachInv(s: State, p: Chunk)
    requires Inv(s) && p in s.items && s.items[p].linked
    ensures Inv(Detach(s, p))
  {
    hide Memory, Pages, Lists, Accounts, Uploads, Queued, Freed, Index, Ordered, Clock, CasIds, Mover;
    ChunkFacts(s, p);
    CutInv(s, p, s.items[p].(linked := false), s.holders + multiset{p});
  }

  lemma StealInv(s: State, p: Chunk, key: Key, flags: int, exptime: nat, data: string)
    requires Inv(s) && p in s.items && s.items[p].linked && s.items[p].refcount == 1 && |data| >= 2
    ensures Inv(Steal(s, p, key, flags, exptime, data))
  {
    hide Memory, Pages, Lists, Accounts, Uploads, Queued, Freed, Index, Ordered, Clock, CasIds, Mover;
    ChunkFacts(s, p);
    CutInv(s, p, Initialised(s.items[p].(linked := false), ClassOf(s, p), key, flags, exptime, data),
           s.holders + multiset{p});
    var d := Detach(s, p);
    var it := Initialised(d.items[p], ClassOf(s, p), key, flags, exptime, data);
    assert d.items[p := it] == s.items[p := it];
  }

  // ----- linking

  lemma OrderedPush(items: map<Chunk, Item>, lru: seq<seq<Chunk>>, now: nat, c: nat, p: Chunk, it: Item)
    requires Ordered(items, lru, now) && c < |lru| && it.time == now
    requires forall d :: 0 <= d < |lru| ==> p !in lru[d]
    ensures Ordered(items[p := it], lru[c := [p] + lru[c]], now)
  {
    forall d, j | 0 <= d < |lru| && 0 <= j < |lru[d]| ensures lru[d][j] != p {
      assert lru[d][j] in lru[d];
    }
  }

  lemma QueuedPush(items: map<Chunk, Item>, owner: map<nat, nat>, lru: seq<seq<Chunk>>, p: Chunk, it: Item)
    requires Queued(items, owner, lru) && p in items && it.linked
    ensures Queued(items[p := it], owner, lru[owner[p.page] := [p] + lru[owner[p.page]]])
  {
  }

  lemma PushQueue(s: State, p: Chunk, it: Item)
    requires Inv(s) && p in s.items && !s.items[p].linked && it.linked && it.time == s.now
    ensures var c := s.owner[p.page];
            && c < |s.lru|
            && var lru := s.lru[c := [p] + s.lru[c]];
            && Lists(lru, s.owner, s.items.Keys)
            && Queued(s.items[p := it], s.owner, lru)
            && Ordered(s.items[p := it], lru, s.now)
  {
    hide Memory, Accounts, Uploads, Freed, Index, CasIds, Mover, Pages, Ordered;
    var c := s.owner[p.page];
    PushList(s.lru, s.owner, s.items.Keys, p);
    QueuedPush(s.items, s.owner, s.lru, p, it);
    OrderedPush(s.items, s.lru, s.now, c, p, it);
  }

  lemma IndexPush(items: map<Chunk, Item>, index: map<Key, Chunk>, p: Chunk, it: Item)
    requires Index(items, index) && p in items && !items[p].linked && it.linked && it.key !in index
    ensures Index(items[p := it], index[it.key := p])
    ensures |index[it.key := p]| == |index| + 1
  {
    assert index[it.key := p].Keys == index.Keys + {it.key};
  }

  lemma CasPush(items: map<Chunk, Item>, useCas: bool, casId: nat, p: Chunk, it: Item)
    requires CasIds(items, useCas, casId) && (useCas ==> it.cas == casId + 1)
    ensures CasIds(items[p := it], useCas, if useCas then casId + 1 else casId)
  {
  }

  lemma BytesPush(cfg: Config, items: map<Chunk, Item>, p: Chunk, it: Item)
    requires p in items && !items[p].linked && it.linked
    ensures Total(LinkedBytes(cfg, items[p := it])) == Total(LinkedBytes(cfg, items)) + ItemTotal(cfg, it)
  {
    TotalRemove(LinkedBytes(cfg, items[p := it]), p);
    assert LinkedBytes(cfg, items[p := it]) - {p} == LinkedBytes(cfg, items);
  }

  lemma PushTable(s: State, p: Chunk, it: Item)
    requires Inv(s) && p in s.items && !s.items[p].linked && it.linked
    requires it.key !in s.index && (s.cfg.useCas ==> it.cas == s.casId + 1)
    ensures Index(s.items[p := it], s.index[it.key := p])
    ensures CasIds(s.items[p := it], s.cfg.useCas, if s.cfg.useCas then s.casId + 1 else s.casId)
    ensures |s.index[it.key := p]| == s.currItems + 1
    ensures Total(LinkedBytes(s.cfg, s.items[p := it])) == s.currBytes + ItemTotal(s.cfg, it)
  {
    hide Memory, Pages, Lists, Accounts, Uploads, Queued, Freed, Ordered, Mover, Index, CasIds, LinkedBytes;
    IndexPush(s.items, s.index, p, it);
    CasPush(s.items, s.cfg.useCas, s.casId, p, it);
    BytesPush(s.cfg, s.items, p, it);
  }

  lemma LinkInv(s: State, p: Chunk)
    requires Inv(s) && p in s.items && p in s.holders && !s.items[p].linked && p !in s.uploads
    requires s.items[p].key !in s.index
    ensures Inv(Link(s, p))
  {
    hide Memory, Pages, Lists, Accounts, Uploads, Queued, Freed, Index, Ordered, Clock, CasIds, Mover, LinkedBytes;
    HolderFacts(s, p);
    ChunkFacts(s, p);
    var it := Link(s, p).items[p];
    PushQueue(s, p, it);
    PushTable(s, p, it);
    PutRefs(s, p, it, s.holders);
    assert s.items[p := it].Keys == s.items.Keys;
  }

  // ----- moving to the front of the queue

  lemma PutTable(s: State, p: Chunk, it: Item)
    requires Inv(s) && p in s.items && it.linked == s.items[p].linked
    requires it.key == s.items[p].key && it.cas == s.items[p].cas
    requires ItemTotal(s.cfg, it) == ItemTotal(s.cfg, s.items[p])
    ensures Index(s.items[p := it], s.index)
    ensures CasIds(s.items[p := it], s.cfg.useCas, s.casId)
    ensures LinkedBytes(s.cfg, s.items[p := it]) == LinkedBytes(s.cfg, s.items)
  {
    hide Memory, Pages, Lists, Accounts, Uploads, Queued, Freed, Ordered, Mover, Index, CasIds;
    PutIndex(s.items, s.index, p, it);
    PutCas(s.items, s.cfg.useCas, s.casId, p, it);
  }

  lemma PutIndex(items: map<Chunk, Item>, index: map<Key, Chunk>, p: Chunk, it: Item)
    requires Index(items, index) && p in items && it.linked == items[p].linked && it.key == items[p].key
    ensures Index(items[p := it], index)
  {
  }

  lemma PutCas(items: map<Chunk, Item>, useCas: bool, casId: nat, p: Chunk, it: Item)
    requires CasIds(items, useCas, casId) && p in items && it.linked == items[p].linked && it.cas == items[p].cas
    ensures CasIds(items[p := it], useCas, casId)
  {
  }

  lemma BumpQueue(s: State, p: Chunk, it: Item)
    requires Inv(s) && p in s.items && s.items[p].linked && it.linked && it.time == s.now
    ensures var c := s.owner[p.page];
            && c < |s.lru|
            && var lru := s.lru[c := [p] + Without(s.lru[c], p)];
            && Lists(lru, s.owner, s.items.Keys)
            && Queued(s.items[p := it], s.owner, lru)
            && Ordered(s.items[p := it], lru, s.now)
  {
    hide Memory, Accounts, Uploads, Freed, Index, CasIds, Mover, Pages;
    var c := s.owner[p.page];
    var out := s.items[p].(linked := false);
    var cut := s.lru[c := Without(s.lru[c], p)];
    CutQueue(s, p, out);
    WithoutNoDup(s.lru[c], p);
    assert s.lru[c := [p] + Without(s.lru[c], p)] == cut[c := [p] + cut[c]];
    assert s.items[p := it] == s.items[p := out][p := it];
    PushList(cut, s.owner, s.items.Keys, p);
    QueuedPush(s.items[p := out], s.owner, cut, p, it);
    OrderedPush(s.items[p := out], cut, s.now, c, p, it);
  }

  lemma UpdateInv(s: State, p: Chunk)
    requires Inv(s) && p in s.items
    ensures Inv(Update(s, p))
  {
    hide Memory, Pages, Lists, Accounts, Uploads, Queued, Freed, Index, Ordered, Clock, CasIds, Mover;
    if s.items[p].time < Staleness(s.now) && s.items[p].linked {
      ChunkFacts(s, p);
      var it := s.items[p].(time := s.now);
      BumpQueue(s, p, it);
      PutTable(s, p, it);
      PutRefs(s, p, it, s.holders);
      assert s.items[p := it].Keys == s.items.Keys;
    }
  }

  // ----- chunks from the free list

  lemma ClaimInv(s: State, c: nat, key: Key, flags: int, exptime: nat, data: string)
    requires Inv(s) && c < |s.free| && s.free[c] != [] && |data| >= 2
    ensures s.free[c][0] in s.items && ClassOf(s, s.free[c][0]) == c
    ensures s.items[s.free[c][0]].slabbed && s.holders[s.free[c][0]] == 0
    ensures Inv(Claim(s, c, key, flags, exptime, data))
  {
    hide Memory, Pages, Lists, Accounts, Uploads, Queued, Freed, Index, Ordered, Clock, CasIds, Mover;
    var p := s.free[c][0];
    FreeFacts(s, c, p);
    ChunkFacts(s, p);
    var it := Initialised(s.items[p], c, key, flags, exptime, data);
    var h := s.holders + multiset{p};
    var t := Claim(s, c, key, flags, exptime, data);
    ClaimRefs(s, c, p, it, h);
    PutAlike(s.items, p, it);
    WithoutHead(s.free[c]);
    AlikeInv(s, t);
  }

  lemma FreeFacts(s: State, c: nat, p: Chunk)
    requires Inv(s) && c < |s.free| && p in s.free[c]
    ensures p in s.items && p.page in s.owner && s.owner[p.page] == c && s.items[p].slabbed
    ensures p !in s.uploads
  {
  }

  lemma ClaimRefs(s: State, c: nat, p: Chunk, it: Item, h: multiset<Chunk>)
    requires Inv(s) && c < |s.free| && p in s.items && ClassOf(s, p) == c && p !in s.uploads
    requires !it.slabbed && Accounted(it, h[p], c) && forall q :: q != p ==> h[q] == s.holders[q]
    ensures Accounts(s.items[p := it], h, s.owner)
    ensures Uploads(s.items[p := it], h, s.uploads)
    ensures Freed(s.items[p := it], s.owner, s.free[c := Without(s.free[c], p)])
    ensures Lists(s.free[c := Without(s.free[c], p)], s.owner, s.items.Keys)
  {
    hide Memory, Pages, Queued, Index, Ordered, Clock, CasIds, Mover;
    PutAccounts(s.items, s.holders, s.owner, p, it, h);
    PutUploads(s.items, s.holders, s.uploads, p, it, h);
    FreedCut(s.items, s.owner, s.free, p, it);
    CutList(s.free, s.owner, s.items.Keys, c, p);
  }

  // ----- the page mover

  lemma MarkMover(s: State, p: Chunk, it: Item)
    requires Mover(s.rebal, s.slabs, s.cfg.classes, s.items) && p in s.items
    requires s.rebal.signal == 2 && p.page == s.rebal.page && it.clsid == MARKED
    ensures Mover(s.rebal, s.slabs, s.cfg.classes, s.items[p := it])
  {
    forall q ensures Emptied(s.items[p := it], q) <==> q == p || Emptied(s.items, q) {}
  }

  /** Emptying a chunk that is free, or held by nobody but the mover. */
  lemma MarkInv(s: State, p: Chunk)
    requires Inv(s) && p in s.items && !s.items[p].linked && p !in s.uploads
    requires s.rebal.signal == 2 && p.page == s.rebal.page && s.holders[p] <= 1
    ensures Inv(Mark(s, p)) && Emptied(Mark(s, p).items, p)
  {
    hide Memory, Pages, Lists, Accounts, Uploads, Queued, Freed, Index, Ordered, Clock, CasIds, Mover;
    ChunkFacts(s, p);
    var t := Mark(s, p);
    var it := t.items[p];
    ClaimRefs(s, ClassOf(s, p), p, it, t.holders);
    MarkMover(s, p, it);
    MarkQueues(s, p, it);
    PutTable(s, p, it);
    assert t.items.Keys == s.items.Keys;
  }

  lemma MarkQueues(s: State, p: Chunk, it: Item)
    requires Inv(s) && p in s.items && !s.items[p].linked && !it.linked
    ensures Queued(s.items[p := it], s.owner, s.lru) && Ordered(s.items[p := it], s.lru, s.now)
  {
    hide Memory, Accounts, Uploads, Freed, Index, CasIds, Mover;
    forall d, j | 0 <= d < |s.lru| && 0 <= j < |s.lru[d]| ensures s.lru[d][j] != p {
      assert s.lru[d][j] in s.lru[d];
    }
  }

  lemma AdvanceMover(r: Rebalance, slabs: seq<seq<nat>>, classes: seq<SlabClass>, items: map<Chunk, Item>,
                     wasBusy: bool, r': Rebalance)
    requires Mover(r, slabs, classes, items) && r.signal == 2 && !r.done
    requires wasBusy || Emptied(items, At(r.page, r.pos))
    requires classes[r.src].perslab >= 1
    requires var busy := if wasBusy then r.busy + 1 else r.busy;
      r' == if r.pos + 1 < classes[r.src].perslab then r.(pos := r.pos + 1, busy := busy)
            else if busy > 0 then r.(pos := 0, busy := 0)
            else r.(pos := r.pos + 1, done := true)
    ensures Mover(r', slabs, classes, items)
  {
  }

  lemma MoverFacts(s: State)
    requires Inv(s) && s.rebal.signal == 2
    ensures 1 <= s.rebal.src < |s.slabs| && 1 <= s.rebal.dst < |s.slabs| && s.rebal.src != s.rebal.dst
    ensures s.rebal.page in s.owner && s.owner[s.rebal.page] == s.rebal.src
    ensures |s.slabs[s.rebal.src]| >= 2 && s.slabs[s.rebal.src][0] == s.rebal.page
    ensures !s.rebal.done ==> s.rebal.pos < s.cfg.classes[s.rebal.src].perslab
    ensures !s.rebal.done ==> At(s.rebal.page, s.rebal.pos) in s.items
  {
    var r := s.rebal;
    assert s.slabs[r.src][0] in s.slabs[r.src];
  }

  lemma AdvanceInv(s: State, wasBusy: bool)
    requires Inv(s) && s.rebal.signal == 2 && !s.rebal.done
    requires wasBusy || Emptied(s.items, At(s.rebal.page, s.rebal.pos))
    ensures s.rebal.src < |s.cfg.classes| && Inv(Advance(s, wasBusy))
  {
    hide Memory, Pages, Lists, Accounts, Uploads, Queued, Freed, Index, Ordered, Clock, CasIds, Mover;
    MoverFacts(s);
    ChunksFit(s.cfg.classes, s.cfg.itemSizeMax, s.rebal.src);
    AdvanceMover(s.rebal, s.slabs, s.cfg.classes, s.items, wasBusy, Advance(s, wasBusy).rebal);
  }

  lemma MoveChunkInv(s: State, blocked: set<Key>)
    requires Inv(s) && s.rebal.signal == 2 && !s.rebal.done
    ensures s.rebal.src < |s.cfg.classes| && Has(s, At(s.rebal.page, s.rebal.pos))
    ensures Inv(MoveChunk(s, blocked))
  {
    hide Memory, Pages, Lists, Accounts, Uploads, Queued, Freed, Index, Ordered, Clock, CasIds, Mover;
    MoverFacts(s);
    var p := At(s.rebal.page, s.rebal.pos);
    ChunkFacts(s, p);
    var it := s.items[p];
    if it.clsid == MARKED {
      AdvanceInv(s, false);
    } else if it.key in blocked {
      AdvanceInv(s, true);
    } else if it.refcount == 0 && it.slabbed {
      if p in s.uploads { UploadFacts(s, p); }
      MarkInv(s, p);
      AdvanceInv(Mark(s, p), false);
    } else if it.refcount == 1 && it.linked {
      DetachInv(s, p);
      MarkInv(Detach(s, p), p);
      AdvanceInv(Mark(Detach(s, p), p), false);
    } else {
      AdvanceInv(s, true);
    }
  }

  lemma UploadFacts(s: State, p: Chunk)
    requires Inv(s) && p in s.uploads
    ensures p in s.items && !s.items[p].linked && s.holders[p] == 1 && s.items[p].refcount == 1
    ensures p in s.holders
  {
  }

  // ----- pages

  lemma StackNoDup(g: nat, n: nat)
    ensures NoDup(Stack(g, n))
    ensures forall p: Chunk :: p in Stack(g, n) <==> p.page == g && p.idx < n
  {
    forall p: Chunk | p.page == g && p.idx < n ensures p in Stack(g, n) {
      assert Stack(g, n)[n - 1 - p.idx] == p;
    }
  }

  lemma AddPagePages(classes: seq<SlabClass>, owner: map<nat, nat>, slabs: seq<seq<nat>>, nextPage: nat,
                     chunks: set<Chunk>, g: nat, c: nat, chunks': set<Chunk>)
    requires Pages(classes, owner, slabs, nextPage, chunks) && g !in owner && g < nextPage && 1 <= c < |slabs|
    requires forall p :: p in chunks' <==> p in chunks || (p.page == g && p.idx < classes[c].perslab)
    ensures Pages(classes, owner[g := c], slabs[c := slabs[c] + [g]], nextPage, chunks')
  {
    var slabs' := slabs[c := slabs[c] + [g]];
    forall d, h | 0 <= d < |slabs'| ensures h in slabs'[d] <==> h in owner[g := c] && owner[g := c][h] == d {
      assert h in slabs[d] <==> h in owner && owner[h] == d;
    }
  }

  /** Adding chunks that are neither linked nor marked. */
  ghost predicate Grown(a: map<Chunk, Item>, b: map<Chunk, Item>) {
    && (forall p :: p in a ==> p in b && b[p] == a[p])
    && (forall p :: p in b && p !in a ==> !b[p].linked && b[p].clsid != MARKED && b[p].slabbed && b[p].refcount == 0
                                          && b[p].clsid == 0)
  }

  lemma GrownLists(lists: seq<seq<Chunk>>, owner: map<nat, nat>, chunks: set<Chunk>, owner': map<nat, nat>,
                   chunks': set<Chunk>)
    requires Lists(lists, owner, chunks) && chunks <= chunks'
    requires forall g :: g in owner ==> g in owner' && owner'[g] == owner[g]
    ensures Lists(lists, owner', chunks')
  {
  }

  lemma GrownFree(free: seq<seq<Chunk>>, owner: map<nat, nat>, chunks: set<Chunk>, g: nat, c: nat, n: nat,
                  chunks': set<Chunk>)
    requires Lists(free, owner, chunks) && g !in owner && c < |free|
    requires forall p :: p in chunks' <==> p in chunks || (p.page == g && p.idx < n)
    ensures Lists(free[c := Stack(g, n) + free[c]], owner[g := c], chunks')
  {
    StackNoDup(g, n);
  }

  lemma GrownAccounts(a: map<Chunk, Item>, b: map<Chunk, Item>, h: multiset<Chunk>, uploads: set<Chunk>,
                      owner: map<nat, nat>, owner': map<nat, nat>)
    requires Accounts(a, h, owner) && Uploads(a, h, uploads) && Grown(a, b)
    requires forall g :: g in owner ==> g in owner' && owner'[g] == owner[g]
    requires forall p :: p in b ==> p.page in owner'
    ensures Accounts(b, h, owner') && Uploads(b, h, uploads)
  {
    forall p | p in b ensures Accounted(b[p], h[p], owner'[p.page]) {
      if p in a { assert Accounted(a[p], h[p], owner[p.page]); } else { assert p !in h; }
    }
  }

  lemma GrownQueued(a: map<Chunk, Item>, b: map<Chunk, Item>, lru: seq<seq<Chunk>>, now: nat, owner: map<nat, nat>,
                    owner': map<nat, nat>)
    requires Queued(a, owner, lru) && Ordered(a, lru, now) && Lists(lru, owner, a.Keys) && Grown(a, b)
    requires forall g :: g in owner ==> g in owner' && owner'[g] == owner[g]
    requires forall p :: p in b ==> p.page in owner' && owner'[p.page] < |lru|
    ensures Queued(b, owner', lru) && Ordered(b, lru, now)
  {
  }

  lemma GrownFreed(a: map<Chunk, Item>, b: map<Chunk, Item>, free: seq<seq<Chunk>>, owner: map<nat, nat>, g: nat,
                   c: nat, n: nat)
    requires Freed(a, owner, free) && Lists(free, owner, a.Keys) && Grown(a, b) && g !in owner && c < |free|
    requires forall p :: p in b <==> p in a || (p.page == g && p.idx < n)
    ensures Freed(b, owner[g := c], free[c := Stack(g, n) + free[c]])
  {
    StackNoDup(g, n);
  }

  lemma GrownTable(cfg: Config, a: map<Chunk, Item>, b: map<Chunk, Item>, index: map<Key, Chunk>, casId: nat)
    requires Grown(a, b) && Index(a, index) && CasIds(a, cfg.useCas, casId)
    ensures Index(b, index) && CasIds(b, cfg.useCas, casId) && LinkedBytes(cfg, a) == LinkedBytes(cfg, b)
  {
  }

  lemma GrownMover(a: map<Chunk, Item>, b: map<Chunk, Item>, r: Rebalance, slabs: seq<seq<nat>>,
                   slabs': seq<seq<nat>>, classes: seq<SlabClass>)
    requires Mover(r, slabs, classes, a) && Grown(a, b) && |slabs'| == |slabs|
    requires forall c :: 0 <= c < |slabs| ==> |slabs[c]| <= |slabs'[c]| && slabs'[c][..|slabs[c]|] == slabs[c]
    ensures Mover(r, slabs', classes, b)
  {
    assert forall p :: Emptied(b, p) <==> Emptied(a, p);
  }

  lemma PageFacts(s: State, g: nat)
    requires Inv(s) && g !in s.owner
    ensures forall p :: p in s.items ==> p.page in s.owner && p.page != g && s.owner[p.page] < |s.lru|
  {
  }

  lemma NextPageIsNew(s: State)
    requires Inv(s)
    ensures s.nextPage !in s.owner
  {
  }

  /** A page added to a class, whatever the memory counter becomes. */
  lemma AddedChunks(s: State, g: nat, c: nat)
    requires c < |s.cfg.classes| == |s.slabs| == |s.free| == |s.lru|
    ensures var n := s.cfg.classes[c].perslab;
      forall p :: p in AddPage(s, g, c).items <==> p in s.items || (p.page == g && p.idx < n)
  {
  }

  lemma AddedGrows(s: State, g: nat, c: nat)
    requires c < |s.cfg.classes| == |s.slabs| == |s.free| == |s.lru| && forall p :: p in s.items ==> p.page != g
    ensures Grown(s.items, AddPage(s, g, c).items)
  {
  }

  lemma AddPageLists(s: State, g: nat, c: nat)
    requires Inv(s) && g !in s.owner && g < s.nextPage && 1 <= c < |s.slabs|
    ensures c < |s.cfg.classes| == |s.slabs| == |s.free| == |s.lru|
    ensures var t := AddPage(s, g, c);
      && Pages(s.cfg.classes, t.owner, t.slabs, s.nextPage, t.items.Keys)
      && Lists(s.lru, t.owner, t.items.Keys) && Lists(t.free, t.owner, t.items.Keys)
  {
    hide Memory, Pages, Lists, Accounts, Uploads, Queued, Freed, Index, Ordered, Clock, CasIds, Mover,
        LinkedBytes, Counters, AddPage;
    AddedChunks(s, g, c);
    PageFacts(s, g);
    var t := AddPage(s, g, c);
    AddPageFields(s, g, c);
    AddPagePages(s.cfg.classes, s.owner, s.slabs, s.nextPage, s.items.Keys, g, c, t.items.Keys);
    GrownLists(s.lru, s.owner, s.items.Keys, t.owner, t.items.Keys);
    GrownFree(s.free, s.owner, s.items.Keys, g, c, s.cfg.classes[c].perslab, t.items.Keys);
  }

  lemma AddPageFields(s: State, g: nat, c: nat)
    requires c < |s.cfg.classes| == |s.slabs| == |s.free| == |s.lru|
    ensures var t := AddPage(s, g, c);
      && t.owner == s.owner[g := c] && t.slabs == s.slabs[c := s.slabs[c] + [g]]
      && t.free == s.free[c := Stack(g, s.cfg.classes[c].perslab) + s.free[c]]
      && t == s.(items := t.items, owner := t.owner, free := t.free, slabs := t.slabs)
  {
  }

  lemma AddPageInv(s: State, g: nat, c: nat, malloced: nat)
    requires Inv(s) && g !in s.owner && g < s.nextPage && 1 <= c < |s.slabs|
    requires Memory(s.cfg, s.slabs[c := s.slabs[c] + [g]], malloced)
    ensures Inv(AddPage(s, g, c).(malloced := malloced))
  {
    hide Memory, Pages, Lists, Accounts, Uploads, Queued, Freed, Index, Ordered, Clock, CasIds, Mover, LinkedBytes,
         AddPage, Grown;
    PageFacts(s, g);
    AddPageLists(s, g, c);
    AddPageFields(s, g, c);
    AddedChunks(s, g, c);
    AddedGrows(s, g, c);
    var t := AddPage(s, g, c);
    GrownAccounts(s.items, t.items, s.holders, s.uploads, s.owner, t.owner);
    GrownQueued(s.items, t.items, s.lru, s.now, s.owner, t.owner);
    GrownFreed(s.items, t.items, s.free, s.owner, g, c, s.cfg.classes[c].perslab);
    GrownTable(s.cfg, s.items, t.items, s.index, s.casId);
    GrownMover(s.items, t.items, s.rebal, s.slabs, t.slabs, s.cfg.classes);
  }

  lemma OneMoreTimes(n: nat, m: nat)
    ensures (n + 1) * m == n * m + m
  {
  }

  /** A class that has a page may grow only within the limit; an empty one adds to the
      number of classes with pages. */
  lemma RoomMemory(s: State, c: nat, g: nat)
    requires Shape(s) && Memory(s.cfg, s.slabs, s.malloced) && 1 <= c < |s.slabs| && RoomForPage(s, c)
    ensures Memory(s.cfg, s.slabs[c := s.slabs[c] + [g]], s.malloced + PageBytes(s.cfg, c))
  {
    var slabs' := s.slabs[c := s.slabs[c] + [g]];
    ChunksFit(s.cfg.classes, s.cfg.itemSizeMax, c);
    if s.slabs[c] == [] {
      assert NonEmpty(slabs') == NonEmpty(s.slabs) + {c};
      OneMoreTimes(|NonEmpty(s.slabs)|, s.cfg.itemSizeMax);
    } else {
      assert NonEmpty(slabs') == NonEmpty(s.slabs);
    }
  }

  lemma NewPageInv(s: State, c: nat)
    requires Inv(s) && 1 <= c < |s.slabs| && RoomForPage(s, c)
    ensures Inv(NewPage(s, c))
    ensures NewPage(s, c).free[c] != []
  {
    hide Memory, Pages, Lists, Accounts, Uploads, Queued, Freed, Index, Ordered, Clock, CasIds, Mover;
    var room := s.(nextPage := s.nextPage + 1);
    RoomInv(s, room);
    NextPageIsNew(s);
    RoomMemory(s, c, s.nextPage);
    AddPageInv(room, s.nextPage, c, s.malloced + PageBytes(s.cfg, c));
    ChunksFit(s.cfg.classes, s.cfg.itemSizeMax, c);
  }

  lemma RoomInv(s: State, room: State)
    requires Inv(s) && room.nextPage >= s.nextPage && s.(nextPage := room.nextPage) == room
    ensures Inv(room)
  {
    hide Memory, Lists, Accounts, Uploads, Queued, Freed, Index, Ordered, Clock, CasIds, Mover;
  }

  // ----- a page leaves its class

  lemma EmptiedIdle(s: State, p: Chunk)
    requires Inv(s) && Emptied(s.items, p)
    ensures !s.items[p].linked && s.holders[p] == 0 && p !in s.uploads
    ensures forall c :: 0 <= c < |s.lru| ==> p !in s.lru[c] && p !in s.free[c]
    ensures forall k :: k in s.index ==> s.index[k] != p
  {
    var home := s.owner[p.page];
    assert Accounted(s.items[p], s.holders[p], home);
    forall c | 0 <= c < |s.lru| ensures p !in s.lru[c] && p !in s.free[c] {
      assert c != home ==> p !in s.lru[c] && p !in s.free[c];
    }
  }

  /** When the mover is done, nothing live is left on its page. */
  lemma DrainedPageIdle(s: State, p: Chunk)
    requires Inv(s) && s.rebal.signal == 2 && s.rebal.done && p in s.items && p.page == s.rebal.page
    ensures Emptied(s.items, p)
    ensures !s.items[p].linked && s.holders[p] == 0 && p !in s.uploads
    ensures forall c :: 0 <= c < |s.lru| ==> p !in s.lru[c] && p !in s.free[c]
    ensures forall k :: k in s.index ==> s.index[k] != p
  {
    hide Memory, Lists, Accounts, Uploads, Queued, Freed, Index, Ordered, Clock, CasIds;
    MoverFacts(s);
    assert p == At(s.rebal.page, p.idx);
    EmptiedIdle(s, p);
  }

  /** Overwriting the first entry with the last one and shortening the list drops exactly
      the first entry. */
  lemma SwapOut(l: seq<nat>)
    requires |l| >= 2 && NoDup(l)
    ensures var l' := [l[|l| - 1]] + l[1..|l| - 1];
      NoDup(l') && forall h :: h in l' <==> h in l && h != l[0]
  {
    var l' := [l[|l| - 1]] + l[1..|l| - 1];
    forall h ensures h in l' <==> h in l && h != l[0] {
      if h in l && h != l[0] {
        var i := IndexOf(l, h);
        assert l'[if i == |l| - 1 then 0 else i] == h;
      }
    }
  }

  lemma FewerPages(classes: seq<SlabClass>, owner: map<nat, nat>, slabs: seq<seq<nat>>, nextPage: nat,
                   chunks: set<Chunk>, src: nat, g: nat, l: seq<nat>, rest: set<Chunk>)
    requires Pages(classes, owner, slabs, nextPage, chunks) && src < |slabs|
    requires g in owner && owner[g] == src && NoDup(l)
    requires forall h :: h in l <==> h in slabs[src] && h != g
    requires forall p :: p in rest <==> p in chunks && p.page != g
    ensures Pages(classes, owner - {g}, slabs[src := l], nextPage, rest)
  {
    hide NoDup;
    var (owner', slabs') := (owner - {g}, slabs[src := l]);
    forall d, h | 0 <= d < |slabs'| ensures h in slabs'[d] <==> h in owner' && owner'[h] == d {
      assert h in slabs[d] <==> h in owner && owner[h] == d;
    }
  }

  lemma DropPagePages(s: State)
    requires Inv(s) && s.rebal.signal == 2
    ensures var t := DropPage(s);
      && Pages(t.cfg.classes, t.owner, t.slabs, t.nextPage, t.items.Keys) && Shape(t)
      && NonEmpty(t.slabs) == NonEmpty(s.slabs)
  {
    hide Memory, Lists, Accounts, Uploads, Queued, Freed, Index, Ordered, Clock, CasIds, NoDup, Mover, Geometry,
        Counters;
    MoverFacts(s);
    PagesNoDup(s, s.rebal.src);
    SwapOut(s.slabs[s.rebal.src]);
    var l := s.slabs[s.rebal.src];
    FewerPages(s.cfg.classes, s.owner, s.slabs, s.nextPage, s.items.Keys, s.rebal.src, s.rebal.page,
               [l[|l| - 1]] + l[1..|l| - 1], DropPage(s).items.Keys);
    assert forall c :: c in NonEmpty(DropPage(s).slabs) <==> c in NonEmpty(s.slabs);
  }

  lemma PagesNoDup(s: State, c: nat)
    requires Inv(s) && c < |s.slabs|
    ensures NoDup(s.slabs[c])
  {
  }

  ghost predicate NoneOn(lists: seq<seq<Chunk>>, g: nat) {
    forall c, p :: 0 <= c < |lists| && p in lists[c] ==> p.page != g
  }

  lemma FewerLists(lists: seq<seq<Chunk>>, owner: map<nat, nat>, chunks: set<Chunk>, g: nat, rest: set<Chunk>)
    requires Lists(lists, owner, chunks) && NoneOn(lists, g)
    requires forall p :: p in rest <==> p in chunks && p.page != g
    ensures Lists(lists, owner - {g}, rest)
  {
    hide NoDup;
  }

  lemma FewerQueued(items: map<Chunk, Item>, owner: map<nat, nat>, lru: seq<seq<Chunk>>, free: seq<seq<Chunk>>,
                    g: nat, rest: map<Chunk, Item>)
    requires Queued(items, owner, lru) && Freed(items, owner, free)
    requires forall p :: p in rest ==> p in items && p.page != g && rest[p] == items[p]
    ensures Queued(rest, owner - {g}, lru) && Freed(rest, owner - {g}, free)
  {
  }

  /** No list reaches into the drained page. */
  lemma DrainedLists(s: State)
    requires Inv(s) && s.rebal.signal == 2 && s.rebal.done
    ensures NoneOn(s.lru, s.rebal.page) && NoneOn(s.free, s.rebal.page)
  {
    hide Memory, Pages, Accounts, Uploads, Queued, Freed, Index, Ordered, Clock, CasIds, Mover, Emptied, NoDup;
    forall c, p | 0 <= c < |s.lru| && (p in s.lru[c] || p in s.free[c]) ensures p.page != s.rebal.page {
      assert p in s.items;
      if p.page == s.rebal.page { DrainedPageIdle(s, p); }
    }
  }

  lemma DropPageLists(s: State)
    requires Inv(s) && s.rebal.signal == 2 && s.rebal.done
    ensures var t := DropPage(s);
      && Lists(t.lru, t.owner, t.items.Keys) && Lists(t.free, t.owner, t.items.Keys)
      && Queued(t.items, t.owner, t.lru) && Freed(t.items, t.owner, t.free)
  {
    hide Memory, Pages, Accounts, Uploads, Queued, Freed, Index, Clock, CasIds, Ordered, Lists, Mover, Emptied, NoneOn;
    MoverFacts(s);
    DrainedLists(s);
    var t := DropPage(s);
    FewerLists(s.lru, s.owner, s.items.Keys, s.rebal.page, t.items.Keys);
    FewerLists(s.free, s.owner, s.items.Keys, s.rebal.page, t.items.Keys);
    FewerQueued(s.items, s.owner, s.lru, s.free, s.rebal.page, t.items);
  }

  lemma FewerOrdered(items: map<Chunk, Item>, lru: seq<seq<Chunk>>, now: nat, g: nat, rest: map<Chunk, Item>)
    requires Ordered(items, lru, now) && NoneOn(lru, g)
    requires forall p :: p in items && p.page != g ==> p in rest && rest[p] == items[p]
    ensures Ordered(rest, lru, now)
  {
    forall c, i | 0 <= c < |lru| && 0 <= i < |lru[c]| ensures lru[c][i] in rest && rest[lru[c][i]] == items[lru[c][i]] {
      assert lru[c][i] in lru[c];
    }
  }

  lemma DropPageOrder(s: State)
    requires Inv(s) && s.rebal.signal == 2 && s.rebal.done
    ensures var t := DropPage(s); Ordered(t.items, t.lru, t.now)
  {
    hide Memory, Pages, Lists, Accounts, Uploads, Queued, Freed, Index, Clock, CasIds, Ordered, Mover, NoneOn;
    MoverFacts(s);
    DrainedLists(s);
    FewerOrdered(s.items, s.lru, s.now, s.rebal.page, DropPage(s).items);
  }

  lemma DropPageRefs(s: State)
    requires Inv(s) && s.rebal.signal == 2 && s.rebal.done
    ensures var t := DropPage(s);
      && Accounts(t.items, t.holders, t.owner) && Uploads(t.items, t.holders, t.uploads)
      && Mover(t.rebal, t.slabs, t.cfg.classes, t.items)
  {
    hide Memory, Pages, Lists, Queued, Freed, Ordered, Clock, Index, CasIds;
    MoverFacts(s);
    var t := DropPage(s);
    forall p | p in s.items && (p in s.holders || p in s.uploads) ensures p in t.items {
      if p.page == s.rebal.page { DrainedPageIdle(s, p); }
    }
    forall p ensures !Emptied(t.items, p) {}
  }

  lemma DropPageTable(s: State)
    requires Inv(s) && s.rebal.signal == 2 && s.rebal.done
    ensures var t := DropPage(s);
      Index(t.items, t.index) && CasIds(t.items, t.cfg.useCas, t.casId) && Counters(t)
  {
    hide Memory, Pages, Lists, Queued, Freed, Ordered, Clock, Accounts, Uploads, Mover, Emptied;
    MoverFacts(s);
    var t := DropPage(s);
    forall p | p in s.items && s.items[p].linked ensures p in t.items {
      if p.page == s.rebal.page { DrainedPageIdle(s, p); }
    }
    assert LinkedBytes(t.cfg, t.items) == LinkedBytes(s.cfg, s.items);
  }

  /** slab_rebalance_finish zeroes and re-splits the page, and the invariant holds. */
  lemma FinishMoveInv(s: State)
    requires Inv(s) && s.rebal.signal == 2 && s.rebal.done
    ensures s.rebal.src < |s.slabs| && s.rebal.dst < |s.cfg.classes|
    ensures Inv(FinishMove(s))
  {
    hide Memory, Pages, Lists, Accounts, Uploads, Queued, Freed, Index, Ordered, CasIds, Mover;
    MoverFacts(s);
    DropPagePages(s);
    DropPageLists(s);
    DropPageOrder(s);
    DropPageRefs(s);
    DropPageTable(s);
    PageBelowNext(s, s.rebal.page);
    SameMemory(s, DropPage(s));
    MoreMemory(DropPage(s), s.rebal.dst, s.rebal.page);
    AddPageInv(DropPage(s), s.rebal.page, s.rebal.dst, s.malloced);
  }

  lemma SameMemory(s: State, t: State)
    requires Inv(s) && t.cfg == s.cfg && t.malloced == s.malloced && NonEmpty(t.slabs) == NonEmpty(s.slabs)
    ensures Memory(t.cfg, t.slabs, t.malloced)
  {
    hide Pages, Lists, Accounts, Uploads, Queued, Freed, Index, Ordered, Clock, CasIds, Mover;
  }

  lemma MoreMemory(s: State, c: nat, g: nat)
    requires Memory(s.cfg, s.slabs, s.malloced) && c < |s.slabs|
    ensures Memory(s.cfg, s.slabs[c := s.slabs[c] + [g]], s.malloced)
  {
    var slabs' := s.slabs[c := s.slabs[c] + [g]];
    assert NonEmpty(slabs') == NonEmpty(s.slabs) + {c};
    if c in NonEmpty(s.slabs) { assert NonEmpty(slabs') == NonEmpty(s.slabs); }
    MulMonotone(|NonEmpty(s.slabs)|, |NonEmpty(slabs')|, s.cfg.itemSizeMax);
  }

  lemma PageBelowNext(s: State, g: nat)
    requires Inv(s) && g in s.owner
    ensures g < s.nextPage
  {
  }

  lemma StartMoveInv(s: State)
    requires Inv(s) && s.rebal.signal == 1
    ensures Inv(StartMove(s))
  {
    hide Memory, Pages, Lists, Accounts, Uploads, Queued, Freed, Index, Ordered, CasIds;
    if StartMove(s).rebal.signal == 2 { ChunksFit(s.cfg.classes, s.cfg.itemSizeMax, s.rebal.src); }
  }

  lemma ReassignInv(s: State, src: int, dst: int)
    requires Inv(s)
    ensures Inv(Reassign(s, src, dst).0)
  {
    hide Memory, Pages, Lists, Accounts, Uploads, Queued, Freed, Index, Ordered, CasIds;
  }

  // ----- small changes

  lemma UploadsInv(s: State, uploads: set<Chunk>)
    requires Inv(s)
    requires forall p :: p in uploads ==> p in s.items && !s.items[p].linked && s.holders[p] == 1
    ensures Inv(s.(uploads := uploads))
  {
    hide Memory, Pages, Lists, Accounts, Queued, Freed, Index, Ordered, CasIds, Mover;
  }

  lemma ClockInv(s: State, now: nat, oldestLive: nat)
    requires Inv(s) && now >= s.now && oldestLive < now
    ensures Inv(s.(now := now, oldestLive := oldestLive))
  {
    hide Memory, Pages, Lists, Accounts, Queued, Freed, Index, CasIds, Mover;
  }

  /** Writing the data of an item nobody can see: the item is held and not linked. */
  lemma ContentInv(s: State, p: Chunk, it: Item)
    requires Inv(s) && p in s.holders && p in s.items && !s.items[p].linked
    requires exists data, cas :: it == s.items[p].(data := data, cas := cas) && |data| >= 2
    ensures Inv(s.(items := s.items[p := it]))
  {
    hide Memory, Pages, Lists, Accounts, Uploads, Queued, Freed, Index, Ordered, Clock, CasIds, Mover;
    var t := s.(uploads := s.uploads - {p});
    FewerUploads(s, p);
    ChunkFacts(t, p);
    PutInv(t, p, it, t.holders);
    MoreUploads(s, p, it);
  }

  lemma FewerUploads(s: State, p: Chunk)
    requires Inv(s)
    ensures Inv(s.(uploads := s.uploads - {p}))
  {
    hide Memory, Pages, Lists, Accounts, Queued, Freed, Index, Ordered, CasIds, Mover;
  }

  lemma MoreUploads(s: State, p: Chunk, it: Item)
    requires Inv(s) && p in s.items && it.linked == s.items[p].linked
    requires Inv(s.(uploads := s.uploads - {p}, items := s.items[p := it]))
    ensures Inv(s.(items := s.items[p := it]))
  {
    hide Memory, Pages, Lists, Accounts, Queued, Freed, Index, Ordered, CasIds, Mover;
    var t := s.(uploads := s.uploads - {p}, items := s.items[p := it]);
    assert t.(uploads := s.uploads) == s.(items := s.items[p := it]);
  }

  lemma ExptimeInv(s: State, p: Chunk, exptime: nat)
    requires Inv(s) && p in s.items && p !in s.uploads
    ensures Inv(s.(items := s.items[p := s.items[p].(exptime := exptime)]))
  {
    hide Memory, Pages, Lists, Accounts, Uploads, Queued, Freed, Index, Ordered, Clock, CasIds, Mover;
    ChunkFacts(s, p);
    PutInv(s, p, s.items[p].(exptime := exptime), s.holders);
  }

  // ----- compound transitions

  lemma UnlinkInv(s: State, p: Chunk)
    requires Inv(s) && p in s.items
    ensures Has(s, p) && Inv(Unlink(s, p))
    ensures Unlink(s, p).holders == s.holders && Unlink(s, p).rebal == s.rebal
    ensures Unlink(s, p).casId == s.casId
  {
    hide Memory, Pages, Lists, Accounts, Uploads, Queued, Freed, Index, Ordered, Clock, CasIds, Mover;
    ChunkFacts(s, p);
    if s.items[p].linked {
      DetachInv(s, p);
      ReleaseInv(Detach(s, p), p);
    }
  }

  /** do_item_replace of a held linked item by a held unlinked one under the same key. */
  lemma ReplaceInv(s: State, o: Chunk, p: Chunk)
    requires Inv(s) && o in s.items && s.items[o].linked && o in s.holders
    requires p in s.items && p in s.holders && !s.items[p].linked && p !in s.uploads
    requires s.items[p].key == s.items[o].key
    ensures Has(s, o) && Has(s, p)
    ensures Inv(Replace(s, o, p))
  {
    hide Memory, Pages, Lists, Accounts, Uploads, Queued, Freed, Index, Ordered, Clock, CasIds, Mover;
    ChunkFacts(s, o);
    ChunkFacts(s, p);
    UnlinkInv(s, o);
    LinkInv(Unlink(s, o), p);
  }
}
