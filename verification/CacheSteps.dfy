/** What the methods of the cache engine need to know about the transitions they carry out:
    the intermediate states of the longer operations, and facts for each of them. */
module CacheSteps {
  import opened Seqs
  import opened SlabClasses
  import opened CacheState
  import opened CacheInvariant
  import opened CacheProofs
  import opened CacheOps
  import opened Links
  import D = Decimal

  /** As many chunks of the page as the loop looks at in one go. */
  ghost function MoveChunks(s: State, blocked: set<Key>, n: nat): State
    requires Inv(s) && s.rebal.signal == 2 && !s.rebal.done
    decreases n
  {
    if n == 0 then s else
      MoveChunkInv(s, blocked); MoveKeepsSignal(s, blocked);
      var t := MoveChunk(s, blocked);
      if t.rebal.done || t.rebal.pos == 0 then t else MoveChunks(t, blocked, n - 1)
  }

  lemma MoveChunksMore(s: State, blocked: set<Key>, n: nat)
    requires Inv(s) && s.rebal.signal == 2 && !s.rebal.done && n > 0
    ensures s.rebal.src < |s.cfg.classes| && Has(s, At(s.rebal.page, s.rebal.pos))
    ensures var t := MoveChunk(s, blocked);
      && Inv(t) && t.rebal.signal == 2
      && MoveChunks(s, blocked, n) == if t.rebal.done || t.rebal.pos == 0 then t else MoveChunks(t, blocked, n - 1)
  {
    hide Inv, MoveChunk, Has;
    MoveChunkInv(s, blocked);
    MoveKeepsSignal(s, blocked);
  }

  lemma MoveChunksNone(s: State, blocked: set<Key>)
    requires Inv(s) && s.rebal.signal == 2 && !s.rebal.done
    ensures MoveChunks(s, blocked, 0) == s
  {
  }

  lemma MoveKeepsSignal(s: State, blocked: set<Key>)
    requires Inv(s) && s.rebal.signal == 2 && !s.rebal.done
    ensures s.rebal.src < |s.cfg.classes| && Has(s, At(s.rebal.page, s.rebal.pos))
    ensures MoveChunk(s, blocked).rebal.signal == 2
  {
    hide Inv;
    MoverFacts(s);
    ChunkFacts(s, At(s.rebal.page, s.rebal.pos));
  }

  lemma MoveIsClear(s: State, blocked: set<Key>)
    requires Inv(s) && s.rebal.signal == 2 && !s.rebal.done
    ensures s.rebal.src < |s.cfg.classes| && Has(s, At(s.rebal.page, s.rebal.pos))
    ensures var (t, r) := ClearChunk(s, blocked);
      && t.rebal == s.rebal && t.cfg == s.cfg
      && MoveChunk(s, blocked) == Advance(t, r == Busy || r == Locked)
  {
    hide Inv, Mark, Detach, Advance;
    MoverFacts(s);
    ChunkFacts(s, At(s.rebal.page, s.rebal.pos));
    MarkRebal(s, At(s.rebal.page, s.rebal.pos));
  }

  lemma MarkRebal(s: State, p: Chunk)
    requires Has(s, p)
    ensures Mark(s, p).rebal == Mark(Detach(s, p), p).rebal == s.rebal
  {
  }

  /** Once the page is drained nothing refers into it. */
  lemma PageDrained(s: State)
    requires Inv(s) && s.rebal.signal == 2 && s.rebal.done
    ensures Unused(s.index, s.lru + s.free, s.rebal.page)
  {
    hide Inv;
    forall k | k in s.index ensures s.index[k].page != s.rebal.page {
      IndexFacts(s, k);
      if s.index[k].page == s.rebal.page { DrainedPageIdle(s, s.index[k]); }
    }
    forall p | !Absent(s.lru + s.free, p) ensures p.page != s.rebal.page {
      ListedItem(s, p);
      if p.page == s.rebal.page { DrainedPageIdle(s, p); }
    }
  }

  lemma ListedItem(s: State, p: Chunk)
    requires Inv(s) && !Absent(s.lru + s.free, p)
    ensures p in s.items && |s.lru| == |s.free| && exists c :: 0 <= c < |s.lru| && (p in s.lru[c] || p in s.free[c])
  {
    hide Memory, Pages, Accounts, Uploads, Queued, Freed, Index, Ordered, Clock, CasIds, Mover, Counters;
    var c :| 0 <= c < |s.lru + s.free| && p in (s.lru + s.free)[c];
    if c < |s.lru| { assert p in s.lru[c]; } else { assert p in s.free[c - |s.lru|]; }
  }

  /** The steps of slab_rebalance_finish add up to dropping the page and adding it. */
  lemma Finishing(s: State)
    requires Inv(s) && s.rebal.signal == 2 && s.rebal.done
    ensures s.rebal.src < |s.slabs| && s.rebal.dst < |s.slabs| == |s.cfg.classes| == |s.free| == |s.lru|
    ensures s.rebal.src != s.rebal.dst && |s.slabs[s.rebal.src]| >= 2
    ensures Unused(s.index, s.lru + s.free, s.rebal.page)
    ensures var (src, dst, g, l) := (s.rebal.src, s.rebal.dst, s.rebal.page, s.slabs[s.rebal.src]);
      var slabs := s.slabs[src := l[0 := l[|l| - 1]][..|l| - 1]];
      var t := FinishMove(s); var n := s.cfg.classes[dst].perslab;
      && Inv(t)
      && t.slabs == slabs[dst := slabs[dst] + [g]]
      && t.owner == s.owner[g := dst]
      && t.items == Wiped(s.items, g) + Fresh(g, n)
      && t.free == s.free[dst := Stack(g, n) + s.free[dst]]
      && t.rebal == Rebalance(0, 0, 0, 0, 0, s.rebal.busy, false)
      && t == s.(items := t.items, owner := t.owner, free := t.free, slabs := t.slabs, rebal := t.rebal)
  {
    hide Inv, Fresh, Stack, Unused;
    Sizes(s);
    MoverFacts(s);
    FinishMoveInv(s);
    PageDrained(s);
    var (src, dst, g, l) := (s.rebal.src, s.rebal.dst, s.rebal.page, s.slabs[s.rebal.src]);
    assert l[0 := l[|l| - 1]][..|l| - 1] == [l[|l| - 1]] + l[1..|l| - 1];
    assert (s.owner - {g})[g := dst] == s.owner[g := dst];
    assert DropPage(s).items == Wiped(s.items, g);
  }

  /** After the test; a chunk that is going holds one reference, that of the mover. */
  ghost function Pulled(s: State, p: Chunk, blocked: set<Key>): (State, MoveStatus)
    requires Inv(s) && p in s.items
  {
    ChunkFacts(s, p);
    var it := s.items[p];
    var bumped := s.(items := s.items[p := it.(refcount := it.refcount + 1)]);
    if it.key in blocked then (s, Locked)
    else if it.refcount == 0 && it.slabbed then
      (bumped.(free := s.free[ClassOf(s, p) := Without(s.free[ClassOf(s, p)], p)]), Moved)
    else if it.refcount == 1 && it.linked then (Unlink(Hold(s, p), p), Moved)
    else (bumped, Busy)
  }

  ghost function Branded(t: State, p: Chunk): State
    requires p in t.items
  {
    t.(items := t.items[p := t.items[p].(refcount := 0, linked := false, slabbed := false, clsid := MARKED)],
       holders := t.holders - multiset{p})
  }

  ghost function LetGone(t: State, p: Chunk): State
    requires p in t.items && t.items[p].refcount > 0
  {
    t.(items := t.items[p := t.items[p].(refcount := t.items[p].refcount - 1)])
  }

  lemma PulledThen(s: State, p: Chunk, blocked: set<Key>)
    requires Inv(s) && p in s.items && s.rebal.signal == 2 && !s.rebal.done && p == At(s.rebal.page, s.rebal.pos)
    requires s.items[p].clsid != MARKED
    ensures var (t, r) := Pulled(s, p, blocked);
      && p in t.items && r != Pass
      && match r
         case Locked => t == s && ClearChunk(s, blocked) == (s, r)
         case Busy =>
           t.items[p].refcount > 0 && ClearChunk(s, blocked) == (s, r) && LetGone(t, p) == s
         case _ =>
           ClearChunk(s, blocked) == (Branded(t, p), r)
  {
    hide Inv, Without, Unlink, Mark, Detach;
    ChunkFacts(s, p);
    var it := s.items[p];
    if it.key !in blocked {
      if it.refcount == 0 && it.slabbed { MarkFree(s, p); }
      else if it.refcount == 1 && it.linked { UnlinkTwice(s, p); }
      else { assert s.items[p := it.(refcount := it.refcount + 1)][p := it] == s.items; }
    }
  }

  lemma PassesMarked(s: State, blocked: set<Key>)
    requires Inv(s) && s.rebal.signal == 2 && !s.rebal.done
    ensures var p := At(s.rebal.page, s.rebal.pos);
      p in s.items && (s.items[p].clsid == MARKED ==> ClearChunk(s, blocked) == (s, Pass))
  {
    hide Inv;
    MoverFacts(s);
  }

  lemma MarkFree(s: State, p: Chunk)
    requires Has(s, p) && s.holders[p] == 0
    ensures var t := s.(items := s.items[p := s.items[p].(refcount := s.items[p].refcount + 1)],
                        free := s.free[ClassOf(s, p) := Without(s.free[ClassOf(s, p)], p)]);
      t.(items := t.items[p := t.items[p].(refcount := 0, linked := false, slabbed := false, clsid := MARKED)],
         holders := t.holders - multiset{p}) == Mark(s, p)
  {
    hide Without;
  }

  datatype MoveStatus = Pass | Moved | Busy | Locked

  /** One chunk is emptied, if that can be done now. */
  ghost function ClearChunk(s: State, blocked: set<Key>): (State, MoveStatus)
    requires Inv(s) && s.rebal.signal == 2 && !s.rebal.done
  {
    MoverFacts(s);
    var p := At(s.rebal.page, s.rebal.pos);
    ChunkFacts(s, p);
    var it := s.items[p];
    if it.clsid == MARKED then (s, Pass)
    else if it.key in blocked then (s, Locked)
    else if it.refcount == 0 && it.slabbed then (Mark(s, p), Moved)
    else if it.refcount == 1 && it.linked then (Mark(Detach(s, p), p), Moved)
    else (s, Busy)
  }

  /** Unlinking an item the mover holds leaves it with that one reference. */
  lemma UnlinkTwice(s: State, p: Chunk)
    requires Inv(s) && p in s.items && s.items[p].linked && s.items[p].refcount == 1 && Has(s, p)
    ensures Inv(Hold(s, p)) && Has(Hold(s, p), p)
    ensures var u := Unlink(Hold(s, p), p);
      && p in u.items
      && u.(items := u.items[p := u.items[p].(refcount := 0, linked := false, slabbed := false, clsid := MARKED)],
            holders := u.holders - multiset{p})
         == Mark(Detach(s, p), p)
  {
    hide Inv, Without;
    ChunkFacts(s, p);
    HoldInv(s, p);
    NotFree(s, p);
    UnlinkTwiceHeld(s, p);
  }

  lemma UnlinkTwiceHeld(s: State, p: Chunk)
    requires Has(s, p) && s.items[p].linked && s.items[p].refcount == 1
    requires s.free[ClassOf(s, p) := Without(s.free[ClassOf(s, p)], p)] == s.free
    ensures Has(Hold(s, p), p) && Has(Detach(s, p), p)
    ensures var u := Unlink(Hold(s, p), p);
      && p in u.items
      && u.(items := u.items[p := u.items[p].(refcount := 0, linked := false, slabbed := false, clsid := MARKED)],
            holders := u.holders - multiset{p})
         == Mark(Detach(s, p), p)
  {
    hide Without, ItemTotal;
    SameTotal(s.cfg, s.items[p]);
    var (u, m) := (Unlink(Hold(s, p), p), Mark(Detach(s, p), p));
    assert u.holders - multiset{p} == m.holders;
  }

  lemma SameTotal(cfg: Config, it: Item)
    ensures ItemTotal(cfg, it.(refcount := it.refcount + 1)) == ItemTotal(cfg, it)
  {
    hide NTotal;
  }

  lemma NotFree(s: State, p: Chunk)
    requires Inv(s) && p in s.items && s.items[p].linked && Has(s, p)
    ensures s.free[ClassOf(s, p) := Without(s.free[ClassOf(s, p)], p)] == s.free
  {
    ChunkFacts(s, p);
  }

  lemma ClockFacts(s: State)
    requires Inv(s)
    ensures s.now >= 2
  {
  }

  lemma AddFacts(s: State, o: Chunk)
    requires Inv(s) && o in s.holders && o in s.items
    ensures Has(s, o) && Inv(Update(s, o)) && o in Update(s, o).holders && Update(s, o).uploads == s.uploads
  {
    hide Inv;
    ChunkFacts(s, o);
    UpdateInv(s, o);
  }

  function Dropped(it: Item): Item {
    if it.refcount > 1 then it.(refcount := it.refcount - 1) else it.(refcount := 0, clsid := 0, slabbed := true)
  }

  function FreeAfter(s: State, p: Chunk): seq<seq<Chunk>>
    requires Has(s, p)
  {
    if s.items[p].refcount > 1 then s.free else s.free[ClassOf(s, p) := [p] + s.free[ClassOf(s, p)]]
  }

  lemma ReleaseForm(s: State, p: Chunk)
    requires Has(s, p)
    ensures Release(s, p) ==
      s.(items := s.items[p := Dropped(s.items[p])], free := FreeAfter(s, p), holders := s.holders - multiset{p})
  {
  }

  lemma Swapped(m: map<Chunk, Item>, h: multiset<Chunk>, o: Chunk, n: Chunk, a: Item, b: Item, c: Item)
    requires o != n
    ensures m[o := a][n := b][o := c] == m[o := c][n := b] == m[n := b][o := c]
    ensures h - multiset{n} - multiset{o} == h - multiset{o} - multiset{n}
  {
  }

  lemma ReleasesCommute(t: State, o: Chunk, n: Chunk, cas: nat)
    requires Has(t, o) && Has(t, n) && o != n && t.items[n].refcount > 1
    ensures Has(Restamp(t, o, cas), n) && Has(Release(Restamp(t, o, cas), n), o)
    ensures Has(Release(t, o), n) && o in Release(Release(t, o), n).items
    ensures Release(Release(Restamp(t, o, cas), n), o) == Restamp(Release(Release(t, o), n), o, cas)
  {
    hide Release;
    var u := Restamp(t, o, cas);
    ReleaseForm(t, o); ReleaseForm(Release(t, o), n);
    ReleaseForm(u, n); ReleaseForm(Release(u, n), o);
    var (x, y) := (t.items[o], t.items[n]);
    if t.cfg.useCas {
      var z := x.(cas := cas);
      Swapped(t.items, t.holders, o, n, z, Dropped(y), Dropped(z));
      Swapped(t.items, t.holders, o, n, Dropped(x), Dropped(y), Dropped(z));
    } else {
      Swapped(t.items, t.holders, o, n, x, Dropped(y), Dropped(x));
    }
  }

  /** Stamping the replaced item before the references are dropped, new item first, comes to
      the same as after they have been dropped, old item first. */
  lemma RestampLast(s: State, o: Chunk, n: Chunk)
    requires Inv(s) && Pair(s, o, n)
    ensures Has(s, o) && Has(s, n)
    ensures var t := Replace(s, o, n);
      && o in t.items && n in t.items && CasOf(t, n) == ReplaceHeld(s, o, n).1.cas
      && var u := Restamp(t, o, CasOf(t, n));
      && Inv(u) && Has(u, n) && n in u.holders && n !in u.uploads
      && Has(Release(u, n), o) && o in Release(u, n).holders && o !in Release(u, n).uploads
      && var v := ReplaceHeld(s, o, n).0;
      && Has(v, n) && o in Release(v, n).items
      && Release(Release(u, n), o) == Restamp(Release(v, n), o, CasOf(t, n))
  {
    hide Inv, Release, Replace, Restamp;
    ReplaceInv(s, o, n);
    ReplaceFacts(s, o, n);
    var t := Replace(s, o, n);
    ChunkFacts(t, n); ChunkFacts(t, o);
    RestampInv(t, o, CasOf(t, n));
    ReleasesCommute(t, o, n, CasOf(t, n));
    ReleaseHolders(Restamp(t, o, CasOf(t, n)), n);
  }

  /** What is left when n has taken the place of o. */
  ghost function Succeeded(s: State, o: Chunk, n: Chunk): State
    requires Inv(s) && Pair(s, o, n)
  {
    RestampLast(s, o, n);
    Restamp(Release(ReplaceHeld(s, o, n).0, n), o, ReplaceHeld(s, o, n).1.cas)
  }

  lemma ReleaseHolders(s: State, p: Chunk)
    requires Has(s, p)
    ensures Release(s, p).holders == s.holders - multiset{p} && Release(s, p).uploads == s.uploads
  {
  }

  lemma ReplaceFacts(s: State, o: Chunk, n: Chunk)
    requires Inv(s) && Pair(s, o, n)
    ensures Has(s, o) && Has(s, n)
    ensures var t := Replace(s, o, n);
      && Inv(t) && t.holders == s.holders && t.uploads == s.uploads && o !in s.uploads && n !in s.uploads
      && o in t.items && n in t.items && o != n && !t.items[o].linked && t.items[n].linked && t.items[n].refcount > 1
  {
    hide Inv, Unlink;
    ReplaceInv(s, o, n);
    ChunkFacts(s, o);
    HolderFacts(s, n);
    UnlinkInv(s, o);
    UnlinkKeeps(s, o, n);
    assert !Unlink(s, o).items[o].linked by { UnlinkedNow(s, o); }
  }

  lemma UnlinkedNow(s: State, o: Chunk)
    requires Has(s, o)
    ensures o in Unlink(s, o).items && !Unlink(s, o).items[o].linked
  {
  }

  lemma ReplacedOld(s: State, o: Chunk, p: Chunk)
    requires Inv(s) && Pair(s, o, p)
    ensures Has(s, o) && Has(s, p) && Inv(Replace(s, o, p))
    ensures var t := Replace(s, o, p); o in t.holders && o !in t.uploads && p in t.items && Has(t, o)
  {
    hide Inv;
    ChunkFacts(s, o);
    ReplaceInv(s, o, p);
    UnlinkInv(s, o);
  }

  lemma AllocFailed(s: State, key: Key, flags: int, exptime: nat, data: string, blocked: set<Key>, memOk: bool)
    requires Inv(s) && |data| >= 2
    ensures ItemAlloc(s, key, flags, exptime, data, blocked, memOk).1.None? ==>
      ItemAlloc(s, key, flags, exptime, data, blocked, memOk).0 == s
    ensures forall p :: p in s.items && s.items[p].linked ==> p !in s.uploads
  {
    hide Inv, ItemAlloc;
    ItemAllocInv(s, key, flags, exptime, data, blocked, memOk);
    forall p | p in s.items && s.items[p].linked ensures p !in s.uploads { ChunkFacts(s, p); }
  }

  lemma AllocKey(s: State, o: Chunk, key: Key, flags: int, exptime: nat, data: string, blocked: set<Key>, memOk: bool)
    requires Inv(s) && o in s.items && s.items[o].linked && o in s.holders && s.items[o].key == key && |data| >= 2
    ensures var (t, n) := ItemAlloc(s, key, flags, exptime, data, blocked, memOk);
      n.Some? ==> o in t.items && t.items[o].key == key && n.value in t.items && t.items[n.value].key == key
  {
    hide Inv, ItemAlloc;
    ItemAllocInv(s, key, flags, exptime, data, blocked, memOk);
    AllocPair(s, o, key, flags, exptime, data, blocked, memOk);
  }

  lemma StillHeld(s: State, o: Chunk, n: Chunk)
    requires Inv(s) && Pair(s, o, n)
    ensures var t := ReplaceHeld(s, o, n).0; n in t.holders && n !in t.uploads
  {
    hide Inv, ReplaceHeld;
    ReplaceHeldInv(s, o, n);
  }

  ghost function Settlement(holders: multiset<Chunk>, search: Chunk, it: Ptr): multiset<Chunk> {
    match it
    case None => holders - multiset{search}
    case Some(x) => holders - multiset{search} + multiset{x}
  }

  /** A held linked item has been unlinked and its class cleared. */
  ghost function Vacated(h: State, p: Chunk): State
    requires Inv(h) && p in h.items
  {
    UnlinkInv(h, p);
    var u := Unlink(h, p);
    ChunkFacts(u, p);
    u.(items := u.items[p := u.items[p].(clsid := 0)])
  }

  /** What Settle has done before it gives the reference to p back: h is the state with that
      reference, w the one it has come to. */
  ghost predicate Settling(h: State, w: State, p: Chunk, it: Ptr, c: nat, memOk: bool)
    requires Inv(h) && Has(h, p) && 1 <= c < |h.slabs|
  {
    var t := Supply(h, c, memOk);
    if Stale(h, h.items[p]) then it == Some(p) && w == Vacated(h, p)
    else if t.Some? then it == Some(t.value.free[c][0])
        && w == t.value.(free := t.value.free[c := t.value.free[c][1..]])
    else if h.cfg.evictToFree then it == Some(p) && w == Vacated(h, p)
    else it == None && w == h
  }

  lemma Settled(s: State, h: State, w: State, p: Chunk, it: Ptr, c: nat, key: Key, flags: int, exptime: nat,
                data: string, blocked: set<Key>, memOk: bool)
    requires Inv(s) && Inv(h) && |data| >= 2 && Chosen(s, p, c, key, flags, data, blocked)
    requires p in s.items && s.items[p].linked && s.items[p].refcount == 1 && 1 <= c < |s.slabs| == |h.slabs|
    requires Has(s, p) && Has(h, p) && h == Hold(s, p) && Settling(h, w, p, it, c, memOk)
    ensures p in w.items && w.items[p].refcount > 0
    ensures Ready(Unhold(w, p, it), it, s, c, key, flags, exptime, data, blocked, memOk)
  {
    hide Inv, Stale, Supply, NTotal, AllocNew, Chosen, Unlink, Ready;
    ChosenFacts(s, p, c, key, flags, data, blocked);
    StaleHeld(s, p);
    UnlinkHeld(s, p);
    SupplyHold(s, p, c, memOk);
    if Stale(s, s.items[p]) || (Supply(s, c, memOk).None? && s.cfg.evictToFree) {
      TakenHolders(s, p);
      StealReady(s, Taken(s, p), p, c, key, flags, exptime, data, blocked, memOk);
    } else {
      if Supply(s, c, memOk).Some? { UnholdPopped(Supply(s, c, memOk).value, p, c); } else { UnholdHold(s, p); }
      SettleReady(s, Unhold(w, p, it), p, it, c, key, flags, exptime, data, blocked, memOk);
    }
  }

  lemma StaleHeld(s: State, p: Chunk)
    requires Has(s, p)
    ensures var h := Hold(s, p); Stale(h, h.items[p]) == Stale(s, s.items[p]) && h.cfg == s.cfg
  {
  }

  lemma TakenHolders(s: State, p: Chunk)
    requires Inv(s) && p in s.items && s.items[p].linked && s.items[p].refcount == 1 && Has(s, p) && Inv(Hold(s, p))
    ensures var w := Vacated(Hold(s, p), p);
      p in w.items && w.items[p].refcount == 1 && Unhold(w, p, Some(p)) == Taken(s, p)
  {
    hide Inv, Unlink;
    UnlinkHeld(s, p);
    UnlinkInv(Hold(s, p), p);
    var h := Hold(s, p).holders;
    assert h - multiset{p} + multiset{p} == h;
  }

  /** do_item_alloc of s settles on search in class c. */
  ghost predicate Chosen(s: State, search: Chunk, c: nat, key: Key, flags: int, data: string, blocked: set<Key>) {
    && c == ClsId(s.cfg.classes, NTotal(s.cfg, key, flags, |data|)) && c != 0 && c < |s.lru|
    && (forall p :: p in s.lru[c] ==> p in s.items)
    && Victim(s, s.lru[c], SEARCH_TRIES, blocked) == Some(search)
  }

  lemma ChosenFacts(s: State, p: Chunk, c: nat, key: Key, flags: int, data: string, blocked: set<Key>)
    requires Inv(s) && Chosen(s, p, c, key, flags, data, blocked)
    ensures p in s.items && s.items[p].linked && s.items[p].refcount == 1 && p !in s.uploads
    ensures Has(s, p) && Inv(Hold(s, p)) && 1 <= c < |s.slabs| && ClassOf(s, p) == c
  {
    hide Victim;
    LruFacts(s, c);
    ChunkFacts(s, p);
    HoldInv(s, p);
  }

  /** The state of s once search has been unlinked and nothing refers to it any more. */
  ghost function Taken(s: State, p: Chunk): State
    requires Inv(s) && p in s.items && s.items[p].linked && s.items[p].refcount == 1
  {
    ChunkFacts(s, p); HoldInv(s, p); UnlinkInv(Hold(s, p), p);
    var u := Unlink(Hold(s, p), p);
    u.(items := u.items[p := u.items[p].(clsid := 0, refcount := 0)])
  }

  lemma NoClass(s: State, key: Key, flags: int, exptime: nat, data: string, blocked: set<Key>, memOk: bool)
    requires Inv(s) && |data| >= 2 && ClsId(s.cfg.classes, NTotal(s.cfg, key, flags, |data|)) == 0
    ensures ItemAlloc(s, key, flags, exptime, data, blocked, memOk) == (s, None)
  {
  }

  lemma VictimStep(s: State, q: seq<Chunk>, tries: nat, blocked: set<Key>)
    requires q != [] && tries > 0 && forall p :: p in q ==> p in s.items
    ensures var p := q[|q| - 1];
      Victim(s, q, tries, blocked) ==
        if s.items[p].key in blocked || s.items[p].refcount != 1
        then Victim(s, q[..|q| - 1], tries - 1, blocked) else Some(p)
  {
  }

  lemma NoVictim(s: State, q: seq<Chunk>, tries: nat, blocked: set<Key>)
    requires (tries == 0 || q == []) && forall p :: p in q ==> p in s.items
    ensures Victim(s, q, tries, blocked) == None
  {
  }

  lemma IsChosen(s: State, p: Chunk, c: nat, key: Key, flags: int, data: string, blocked: set<Key>)
    requires c == ClsId(s.cfg.classes, NTotal(s.cfg, key, flags, |data|)) && c != 0 && c < |s.lru|
    requires forall q :: q in s.lru[c] ==> q in s.items
    requires Victim(s, s.lru[c], SEARCH_TRIES, blocked) == Some(p)
    ensures Chosen(s, p, c, key, flags, data, blocked)
  {
  }

  /** The walk has found nothing to take over. */
  lemma NoVictimReady(s: State, c: nat, key: Key, flags: int, exptime: nat, data: string, blocked: set<Key>,
                      memOk: bool)
    requires Inv(s) && |data| >= 2 && 1 <= c < |s.slabs| && c < |s.lru| && (forall p :: p in s.lru[c] ==> p in s.items)
    requires c == ClsId(s.cfg.classes, NTotal(s.cfg, key, flags, |data|))
    requires Victim(s, s.lru[c], SEARCH_TRIES, blocked) == None
    ensures var t := Supply(s, c, memOk);
      if t.Some? then Ready(Popped(t.value, c), Some(t.value.free[c][0]), s, c, key, flags, exptime, data,
          blocked, memOk)
      else Ready(s, None, s, c, key, flags, exptime, data, blocked, memOk)
  {
    hide Inv, Supply, NTotal, Victim;
    if Supply(s, c, memOk).Some? { PoppedReady(s, c, key, flags, exptime, data, memOk); }
  }

  lemma UnlinkHeld(s: State, p: Chunk)
    requires Inv(s) && p in s.items && s.items[p].linked && s.items[p].refcount == 1 && Has(s, p)
    ensures Inv(Hold(s, p)) && Has(Hold(s, p), p)
    ensures var u := Unlink(Hold(s, p), p);
      && p in u.items && u.items[p].refcount == 1
      && Taken(s, p) == u.(items := u.items[p := u.items[p].(clsid := 0, refcount := 0)])
  {
    hide Inv;
    ChunkFacts(s, p);
    HoldInv(s, p);
  }

  lemma StealReady(s: State, v: State, p: Chunk, c: nat, key: Key, flags: int, exptime: nat, data: string,
                   blocked: set<Key>, memOk: bool)
    requires Inv(s) && |data| >= 2 && Chosen(s, p, c, key, flags, data, blocked)
    requires p in s.items && s.items[p].linked && s.items[p].refcount == 1 && v == Taken(s, p)
    requires Stale(s, s.items[p]) || (Inv(s) && 1 <= c < |s.slabs| && Supply(s, c, memOk).None? && s.cfg.evictToFree)
    ensures Ready(v, Some(p), s, c, key, flags, exptime, data, blocked, memOk)
  {
    hide Inv, Stale, Supply, NTotal;
    ChosenFacts(s, p, c, key, flags, data, blocked);
    ChunkFacts(s, p);
    TakenIsSteal(s, p, c, key, flags, exptime, data);
  }

  /** A chunk has come off the free list of c and is held. */
  ghost function Popped(t: State, c: nat): State
    requires c < |t.free| && t.free[c] != []
  {
    t.(free := t.free[c := t.free[c][1..]], holders := t.holders + multiset{t.free[c][0]})
  }

  lemma PoppedReady(s: State, c: nat, key: Key, flags: int, exptime: nat, data: string, memOk: bool)
    requires Inv(s) && 1 <= c < |s.slabs| && |data| >= 2 && Supply(s, c, memOk).Some?
    ensures var t := Supply(s, c, memOk).value; var x := t.free[c][0]; var v := Popped(t, c);
      && x in v.items && (forall k :: k in v.index ==> v.index[k] != x)
      && v.(items := v.items[x := Initialised(v.items[x], c, key, flags, exptime, data)])
         == AllocNew(s, c, key, flags, exptime, data, memOk).0
      && AllocNew(s, c, key, flags, exptime, data, memOk).1 == Some(x)
  {
    hide Inv, Supply;
    SupplyInv(s, c, memOk);
    var t := Supply(s, c, memOk).value;
    ClaimInv(t, c, key, flags, exptime, data);
    FreeUnindexed(t, t.free[c][0]);
  }

  lemma FreeUnindexed(s: State, p: Chunk)
    requires Inv(s) && p in s.items && s.items[p].slabbed
    ensures forall k :: k in s.index ==> s.index[k] != p
  {
    ChunkFacts(s, p);
  }

  lemma SettleReady(s: State, v: State, p: Chunk, it: Ptr, c: nat, key: Key, flags: int, exptime: nat, data: string,
                    blocked: set<Key>, memOk: bool)
    requires Inv(s) && |data| >= 2 && Chosen(s, p, c, key, flags, data, blocked)
    requires p in s.items && s.items[p].linked && s.items[p].refcount == 1 && 1 <= c < |s.slabs|
    requires !Stale(s, s.items[p])
    requires var t := Supply(s, c, memOk);
      if t.Some? then it == Some(t.value.free[c][0]) && v == Popped(t.value, c)
      else if s.cfg.evictToFree then it == Some(p) && v == Taken(s, p)
      else it == None && v == s
    ensures Ready(v, it, s, c, key, flags, exptime, data, blocked, memOk)
  {
    hide Inv, Stale, Supply, NTotal, AllocNew, Taken;
    if Supply(s, c, memOk).Some? {
      PoppedReady(s, c, key, flags, exptime, data, memOk);
    } else if s.cfg.evictToFree {
      StealReady(s, v, p, c, key, flags, exptime, data, blocked, memOk);
    }
  }

  /** The reference to p is given back. */
  ghost function Unhold(w: State, p: Chunk, it: Ptr): State
    requires p in w.items && w.items[p].refcount > 0
  {
    w.(items := w.items[p := w.items[p].(refcount := w.items[p].refcount - 1)], holders := Settlement(w.holders, p, it))
  }

  lemma UnholdHold(t: State, p: Chunk)
    requires Has(t, p)
    ensures Unhold(Hold(t, p), p, None) == t
  {
    assert Hold(t, p).holders - multiset{p} == t.holders;
  }

  /** Giving back the reference after the slab allocator has run. */
  lemma UnholdPopped(t: State, p: Chunk, c: nat)
    requires Has(t, p) && c < |t.free| && t.free[c] != []
    ensures var w := Hold(t, p).(free := t.free[c := t.free[c][1..]]);
      p in w.items && w.items[p].refcount > 0 && Unhold(w, p, Some(t.free[c][0])) == Popped(t, c)
  {
    assert Hold(t, p).holders - multiset{p} == t.holders;
  }

  lemma TakenIsSteal(s: State, p: Chunk, c: nat, key: Key, flags: int, exptime: nat, data: string)
    requires Inv(s) && p in s.items && s.items[p].linked && s.items[p].refcount == 1 && Has(s, p) && c == ClassOf(s, p)
    ensures var v := Taken(s, p);
      && p in v.items && (forall k :: k in v.index ==> v.index[k] != p)
      && v.(items := v.items[p := Initialised(v.items[p], c, key, flags, exptime, data)])
          == Steal(s, p, key, flags, exptime, data)
  {
    hide Memory, Pages, Lists, Accounts, Uploads, Queued, Freed, Ordered, Clock, CasIds, Mover, Counters;
    ChunkFacts(s, p);
  }

  /** v is the state the allocation of s ends in once the chunk has been initialised. */
  ghost predicate Ready(v: State, it: Ptr, s: State, c: nat, key: Key, flags: int, exptime: nat, data: string,
                        blocked: set<Key>, memOk: bool)
    requires Inv(s) && |data| >= 2
  {
    var (t, r) := ItemAlloc(s, key, flags, exptime, data, blocked, memOk);
    && it == r
    && match it
       case None => v == t
       case Some(x) =>
         && x in v.items && (forall k :: k in v.index ==> v.index[k] != x)
         && v.(items := v.items[x := Initialised(v.items[x], c, key, flags, exptime, data)]) == t
  }

  /** Taking a reference to p does not change what the slab allocator does. */
  lemma SupplyHold(s: State, p: Chunk, c: nat, memOk: bool)
    requires Inv(s) && p in s.items && s.items[p].refcount > 0 && p !in s.uploads && 1 <= c < |s.slabs|
    ensures Has(s, p) && Inv(Hold(s, p))
    ensures var t := Supply(s, c, memOk); var h := Supply(Hold(s, p), c, memOk);
      h.Some? == t.Some? && (t.Some? ==> Has(t.value, p) && h.value == Hold(t.value, p))
  {
    hide Inv;
    ChunkFacts(s, p);
    HoldInv(s, p);
    Sizes(s);
    NextPageIsNew(s);
    PageUnused(s, s.nextPage);
    if RoomForPage(s, c) {
      NewPageInv(s, c);
      assert NewPage(Hold(s, p), c).items == Hold(NewPage(s, c), p).items;
    }
  }

  lemma Sizes(s: State)
    requires Inv(s)
    ensures |s.cfg.classes| == |s.slabs| == |s.lru| == |s.free| && |s.cfg.classes| >= 2
    ensures forall c :: 1 <= c < |s.cfg.classes| ==> s.cfg.classes[c].perslab >= 1
  {
  }

  /** States are equal when their components are. */
  lemma Same(a: State, b: State)
    requires a.cfg == b.cfg && a.items == b.items && a.index == b.index && a.lru == b.lru && a.free == b.free
    requires a.slabs == b.slabs && a.owner == b.owner && a.nextPage == b.nextPage && a.malloced == b.malloced
    requires a.now == b.now && a.oldestLive == b.oldestLive && a.casId == b.casId
    requires a.currItems == b.currItems && a.currBytes == b.currBytes && a.rebal == b.rebal
    requires a.holders == b.holders && a.uploads == b.uploads
    ensures a == b
  {
  }

  /** What do_slabs_newslab needs to know beforehand and comes to. */
  lemma NewSlab(s: State, c: nat)
    requires Inv(s) && 1 <= c < |s.slabs|
    ensures c < |s.cfg.classes| == |s.slabs| == |s.free| == |s.lru|
    ensures RoomForPage(s, c)
        <==> !(s.cfg.memLimit != 0 && s.malloced + PageBytes(s.cfg, c) > s.cfg.memLimit && |s.slabs[c]| > 0)
    ensures Unused(s.index, s.lru + s.free, s.nextPage)
    ensures var t := NewPage(s, c); var n := s.cfg.classes[c].perslab;
      && (RoomForPage(s, c) ==> Inv(t))
      && t.items == Wiped(s.items, s.nextPage) + Fresh(s.nextPage, n)
      && t.owner == s.owner[s.nextPage := c]
      && t.free == s.free[c := Stack(s.nextPage, n) + s.free[c]]
      && t.slabs == s.slabs[c := s.slabs[c] + [s.nextPage]]
      && t.nextPage == s.nextPage + 1 && t.malloced == s.malloced + PageBytes(s.cfg, c)
      && t == s.(items := t.items, owner := t.owner, free := t.free, slabs := t.slabs, nextPage := t.nextPage,
          malloced := t.malloced)
  {
    hide Inv;
    Sizes(s);
    if RoomForPage(s, c) { NewPageInv(s, c); }
    NextPageIsNew(s);
    PageUnused(s, s.nextPage);
  }

  lemma PageUnused(s: State, g: nat)
    requires Inv(s) && g !in s.owner
    ensures Unused(s.index, s.lru + s.free, g) && Wiped(s.items, g) == s.items
  {
    hide Memory, Accounts, Uploads, Queued, Freed, Ordered, Clock, CasIds, Mover, Counters;
    NothingWiped(s.items, g);
  }

  /** No chunk of the page is in the table or in a list. */
  ghost predicate Unused(index: map<Key, Chunk>, lists: seq<seq<Chunk>>, page: nat) {
    && (forall k :: k in index ==> index[k].page != page)
    && (forall p :: !Absent(lists, p) ==> p.page != page)
  }

  function Wiped(items: map<Chunk, Item>, page: nat): map<Chunk, Item> {
    map p | p in items && p.page != page :: items[p]
  }

  function Blank(page: nat, n: nat): map<Chunk, Item> {
    map i | 0 <= i < n :: At(page, i) := ZERO
  }

  lemma NotStacked(lru: seq<seq<Chunk>>, free: seq<seq<Chunk>>, id: nat, page: nat, x: nat)
    requires id < |free| && forall p :: !Absent(lru + free, p) ==> p.page != page
    ensures Absent(lru + free[id := Stack(page, x) + free[id]], At(page, x))
  {
    var lists := lru + free;
    var lists' := lru + free[id := Stack(page, x) + free[id]];
    assert Absent(lists, At(page, x));
    forall c | 0 <= c < |lists'| ensures At(page, x) !in lists'[c] {
      assert At(page, x) !in lists[c];
      if c == |lru| + id { assert lists'[c] == Stack(page, x) + lists[c]; } else { assert lists'[c] == lists[c]; }
    }
  }

  lemma FreshMore(items: map<Chunk, Item>, page: nat, x: nat)
    requires At(page, x) in items && items[At(page, x)] == ZERO
    ensures At(page, x) in items + Fresh(page, x) && (items + Fresh(page, x))[At(page, x)] == ZERO
    ensures (items + Fresh(page, x))[At(page, x) := ZERO.(slabbed := true)] == items + Fresh(page, x + 1)
  {
  }

  lemma StackMore(page: nat, x: nat, q: seq<Chunk>)
    ensures [At(page, x)] + (Stack(page, x) + q) == Stack(page, x + 1) + q
  {
  }

  lemma FreshOver(items: map<Chunk, Item>, g: nat, n: nat)
    ensures items + Blank(g, n) + Fresh(g, n) == items + Fresh(g, n)
    ensures forall x :: 0 <= x < n ==> At(g, x) in items + Blank(g, n) && (items + Blank(g, n))[At(g, x)] == ZERO
  {
  }

  lemma NothingWiped(items: map<Chunk, Item>, g: nat)
    requires forall p :: p in items ==> p.page != g
    ensures Wiped(items, g) == items
  {
  }

  lemma GetNothing(s: State, k: Key)
    requires Inv(s) && k !in s.index
    ensures Get(s, k) == (s, None)
  {
  }

  lemma GetCases(s: State, k: Key)
    requires Inv(s) && k in s.index
    ensures var p := s.index[k];
      && p in s.items && s.items[p].linked && s.items[p].key == k && p !in s.uploads && Has(s, p)
      && var h := Hold(s, p);
        && p in h.holders && p in h.items && Has(h, p)
        && h.items[p] == s.items[p].(refcount := s.items[p].refcount + 1)
        && Get(s, k) == if Draining(s, p) || Flushed(s, s.items[p]) || Expired(s, s.items[p])
          then (Release(Unlink(h, p), p), None) else (h, Some(p))
  {
    hide Inv, Release, Unlink;
    IndexFacts(s, k);
    ChunkFacts(s, s.index[k]);
  }

  lemma IndexFacts(s: State, k: Key)
    requires Inv(s) && k in s.index
    ensures var p := s.index[k];
      && p in s.items && s.items[p].key == k && s.items[p].linked && s.items[p].refcount > 0 && p !in s.uploads
  {
    ChunkFacts(s, s.index[k]);
  }

  lemma DetachHolds(s: State, p: Chunk)
    requires Inv(s) && p in s.items && s.items[p].linked
    ensures Has(s, p) && p in Detach(s, p).holders && p !in Detach(s, p).uploads
  {
    ChunkFacts(s, p);
  }

  lemma CutAbsent(s: State, p: Chunk)
    requires Inv(s) && p in s.items && s.items[p].linked
    ensures Has(s, p) && Absent(s.lru[ClassOf(s, p) := Without(s.lru[ClassOf(s, p)], p)] + s.free, p)
  {
    hide Memory, Pages, Uploads, Index, Ordered, Clock, CasIds, Mover;
    var c := ClassOf(s, p);
    WithoutNoDup(s.lru[c], p);
  }

  /** What unlinking o leaves of another held item under the same key. */
  lemma UnlinkKeeps(s: State, o: Chunk, p: Chunk)
    requires Inv(s) && o in s.items && s.items[o].linked && o in s.holders
    requires p in s.items && p in s.holders && !s.items[p].linked && p !in s.uploads
    requires s.items[p].key == s.items[o].key
    ensures Has(s, o)
    ensures var t := Unlink(s, o);
      && p in t.items && t.items[p] == s.items[p] && p in t.holders && p !in t.uploads
      && s.items[p].key !in t.index
  {
    hide Memory, Pages, Lists, Uploads, Queued, Freed, Ordered, Clock, CasIds, Mover;
    ChunkFacts(s, o);
  }

  lemma DetachFields(s: State, p: Chunk)
    requires Has(s, p)
    ensures var t := Detach(s, p); var c := ClassOf(s, p); var it := s.items[p];
      && t.items == s.items[p := it.(linked := false)] && t.index == s.index - {it.key}
      && t.lru == s.lru[c := Without(s.lru[c], p)] && t.holders == s.holders + multiset{p}
      && t.currItems == s.currItems - 1 && t.currBytes == s.currBytes - ItemTotal(s.cfg, it)
      && t == s.(items := t.items, index := t.index, lru := t.lru, holders := t.holders, currItems := t.currItems,
                 currBytes := t.currBytes)
  {
    hide Without, NTotal;
  }

  lemma LinkFields(s: State, p: Chunk)
    requires Has(s, p)
    ensures var t := Link(s, p); var c := ClassOf(s, p); var it := s.items[p];
      && t.casId == (if s.cfg.useCas then s.casId + 1 else s.casId)
      && t.items == s.items[p := it.(linked := true, time := s.now, refcount := it.refcount + 1,
          cas := if s.cfg.useCas then t.casId else 0)]
      && t.index == s.index[it.key := p] && t.lru == s.lru[c := [p] + s.lru[c]]
      && t.currItems == s.currItems + 1
      && t.currBytes == s.currBytes
          + ItemTotal(s.cfg, it.(linked := true, time := s.now, refcount := it.refcount + 1,
              cas := if s.cfg.useCas then t.casId else 0))
      && t == s.(items := t.items, index := t.index, lru := t.lru, casId := t.casId, currItems := t.currItems,
          currBytes := t.currBytes)
  {
    hide ItemTotal;
  }

  /** What do_item_link needs to know beforehand. */
  lemma Linking(s: State, p: Chunk)
    requires Inv(s) && p in s.holders && p !in s.uploads && p in s.items && !s.items[p].linked
    requires s.items[p].key !in s.index
    ensures Has(s, p) && s.items[p].clsid == ClassOf(s, p) && Absent(s.lru + s.free, p)
    ensures Inv(Link(s, p))
  {
    hide Inv, Absent;
    HolderFacts(s, p);
    ChunkFacts(s, p);
    NotListed(s, p);
    LinkInv(s, p);
  }

  lemma NotListed(s: State, p: Chunk)
    requires Inv(s) && p in s.items
    ensures !s.items[p].linked && !s.items[p].slabbed ==> Absent(s.lru + s.free, p)
  {
    hide Memory, Pages, Accounts, Uploads, Index, Ordered, Clock, CasIds, Mover;
  }

  /** What do_item_remove needs to know. */
  lemma Dropping(s: State, p: Chunk)
    requires Inv(s) && p in s.holders && p !in s.uploads
    ensures p in s.items && Has(s, p) && Inv(Release(s, p)) && s.items[p].refcount > 0
    ensures s.items[p].clsid == ClassOf(s, p) < |s.lru| == |s.free|
    ensures s.items[p].refcount == 1 ==> Absent(s.lru + s.free, p)
    ensures Release(s, p) ==
      s.(items := s.items[p := Dropped(s.items[p])], free := FreeAfter(s, p), holders := s.holders - multiset{p})
  {
    hide Inv, Release, Absent;
    HolderFacts(s, p);
    ChunkFacts(s, p);
    ReleaseInv(s, p);
    ReleaseForm(s, p);
    NotListed(s, p);
  }
}
