/** Which item makes room: what a bump does to the queue of a class, and which item an
    allocation takes, told on queues, stamps and reference counts. */
module Lru {
  import opened Seqs
  import opened SlabClasses
  import opened CacheState
  import opened CacheInvariant
  import opened CacheProofs
  import opened CacheOps
  import opened Commands
  import opened Presence
  import D = Decimal

  // ----- bumping

  /** p goes from wherever it is to the front, the others keep their order. */
  ghost predicate ToFront(q: seq<Chunk>, r: seq<Chunk>, p: Chunk) {
    exists i: nat :: i < |q| && q[i] == p && r == [p] + (q[..i] + q[i + 1..])
  }

  /** An item is bumped when its stamp is more than a minute old; in the first minute of the
      clock the unsigned subtraction wraps round, and every item is. */
  predicate Bumps(now: nat, time: nat) { now < 60 || time + 60 < now }

  lemma FrontIs(q: seq<Chunk>, p: Chunk)
    requires p in q
    ensures ToFront(q, [p] + Without(q, p), p)
  {
    var i := IndexOf(q, p);
    assert Without(q, p) == q[..i] + q[i + 1..];
  }

  lemma BumpIff(s: State, p: Chunk)
    requires Has(s, p) && s.items[p].time <= s.now < 0x1_0000_0000
    ensures s.items[p].time < Staleness(s.now) <==> Bumps(s.now, s.items[p].time)
  {
  }

  /** A linked item with an old stamp is put at the head of its queue and stamped; otherwise
      nothing happens.  The clock is an unsigned int. */
  lemma BumpLaw(s: State, p: Chunk)
    requires Inv(s) && p in s.items && s.now < 0x1_0000_0000
    ensures Has(s, p) && ClassOf(s, p) < |s.lru|
    ensures var (t, c) := (Update(s, p), ClassOf(s, p));
      if s.items[p].linked && Bumps(s.now, s.items[p].time) then
        && |t.lru| == |s.lru| && ToFront(s.lru[c], t.lru[c], p)
        && (forall d :: 0 <= d < |s.lru| && d != c ==> t.lru[d] == s.lru[d])
        && t.items == s.items[p := s.items[p].(time := s.now)]
      else t == s
  {
    hide Inv, Without, ToFront, Staleness, Bumps;
    ChunkFacts(s, p);
    if s.items[p].linked {
      LinkedIsIndexed(s, p);
      BumpIff(s, p);
      FrontIs(s.lru[ClassOf(s, p)], p);
    }
  }

  /** So does reading it. */
  lemma ReadBumps(s: State, k: Key, p: Chunk)
    requires Inv(s) && Finds(s, k, p) && s.now < 0x1_0000_0000
    ensures Has(s, p) && ClassOf(s, p) < |s.lru|
    ensures var (t, c) := (GetStep(s, k).0, ClassOf(s, p));
      && p in t.items && |t.lru| == |s.lru|
      && (forall d :: 0 <= d < |s.lru| && d != c ==> t.lru[d] == s.lru[d])
      && if Bumps(s.now, s.items[p].time) then ToFront(s.lru[c], t.lru[c], p) && t.items[p].time == s.now
         else t.lru[c] == s.lru[c] && t.items[p].time == s.items[p].time
  {
    hide Inv, Get, Update, Bumps, ToFront;
    LookUpIff(s, k);
    var t := Get(s, k).0;
    FoundFacts(s, k);
    BumpLaw(t, p);
  }

  // ----- what an allocation takes

  /** Its lock is free, and there is no reference to it but the table's; own is an item the
      caller holds. */
  predicate Idle(s: State, p: Chunk, blocked: set<Key>, own: Option<Chunk>)
    requires p in s.items
  {
    s.items[p].key !in blocked && s.items[p].refcount == 1 && own != Some(p)
  }

  /** Of the last `tries` items of the queue, the last one that is idle. */
  ghost predicate Candidate(s: State, q: seq<Chunk>, tries: nat, blocked: set<Key>, own: Option<Chunk>, i: int)
    requires forall p :: p in q ==> p in s.items
  {
    && 0 <= i < |q| && |q| - tries <= i && Idle(s, q[i], blocked, own)
    && forall j :: i < j < |q| ==> !Idle(s, q[j], blocked, own)
  }

  /** Its expiry is past, or it was stamped at or before a flush. */
  predicate Dead(s: State, it: Item) {
    (it.exptime != 0 && it.exptime < s.now) || (it.time <= s.oldestLive && s.oldestLive <= s.now)
  }

  /** There is a free chunk, or a page to be had. */
  predicate Supplied(s: State, c: nat, memOk: bool)
    requires c < |s.cfg.classes| == |s.free| == |s.slabs|
  {
    || s.free[c] != []
    || (memOk && (s.cfg.memLimit == 0 || s.slabs[c] == [] || s.malloced +
          (if s.cfg.slabReassign then s.cfg.itemSizeMax else s.cfg.classes[c].size * s.cfg.classes[c].perslab)
            <= s.cfg.memLimit))
  }

  lemma {:induction false} VictimIs(s: State, q: seq<Chunk>, tries: nat, blocked: set<Key>)
    requires forall p :: p in q ==> p in s.items && s.items[p].refcount > 0
    ensures var v := Victim(s, q, tries, blocked);
      && (v.Some? ==> exists i :: Candidate(s, q, tries, blocked, None, i) && q[i] == v.value)
      && (v.None? ==> forall i :: !Candidate(s, q, tries, blocked, None, i))
  {
    hide Idle;
    if tries > 0 && q != [] {
      var n := |q| - 1;
      VictimIs(s, q[..n], tries - 1, blocked);
      forall i | i < n
        ensures Candidate(s, q, tries, blocked, None, i)
          <==> !Idle(s, q[n], blocked, None) && Candidate(s, q[..n], tries - 1, blocked, None, i)
      {
        assert forall j :: 0 <= j < n ==> q[..n][j] == q[j];
      }
      LastIdle(s, q, tries, blocked);
    }
  }

  lemma LastIdle(s: State, q: seq<Chunk>, tries: nat, blocked: set<Key>)
    requires tries > 0 && q != [] && forall p :: p in q ==> p in s.items
    ensures var (n, v) := (|q| - 1, Victim(s, q, tries, blocked));
      if Idle(s, q[n], blocked, None) then v == Some(q[n]) && Candidate(s, q, tries, blocked, None, n)
      else v == Victim(s, q[..n], tries - 1, blocked) && !Candidate(s, q, tries, blocked, None, n)
  {
  }

  lemma OneCandidate(s: State, q: seq<Chunk>, tries: nat, blocked: set<Key>, own: Option<Chunk>, i: int, j: int)
    requires forall p :: p in q ==> p in s.items
    requires Candidate(s, q, tries, blocked, own, i) && Candidate(s, q, tries, blocked, own, j)
    ensures i == j
  {
    hide Idle;
  }

  lemma SupplyIff(s: State, c: nat, memOk: bool)
    requires Inv(s) && 1 <= c < |s.slabs|
    ensures c < |s.cfg.classes| == |s.free| == |s.slabs| && s.cfg.classes[c].perslab > 0
    ensures Supply(s, c, memOk).Some? <==> Supplied(s, c, memOk)
    ensures var t := Supply(s, c, memOk); t.Some? ==> t.value.free[c][0] == Handed(s, c)
    ensures Handed(s, c) in s.items ==> !s.items[Handed(s, c)].linked
  {
    hide Memory, Pages, Lists, Accounts, Uploads, Queued, Freed, Index, Ordered, Clock, CasIds, Mover, Counters;
    ChunksFit(s.cfg.classes, s.cfg.itemSizeMax, c);
    NextPageIsNew(s);
    if s.free[c] != [] { SuppliedFree(s, c); } else { PageFacts(s, s.nextPage); }
  }

  lemma SuppliedFree(s: State, c: nat)
    requires Inv(s) && c < |s.free| && s.free[c] != []
    ensures s.free[c][0] in s.items && !s.items[s.free[c][0]].linked
  {
    hide Inv;
    FreeFacts(s, c, s.free[c][0]);
    ChunkFacts(s, s.free[c][0]);
  }

  /** The class of the least chunks an item fits in, 0 if there is none. */
  function ClassFor(s: State, key: Key, flags: int, nbytes: nat): nat {
    ClsId(s.cfg.classes, NTotal(s.cfg, key, flags, nbytes))
  }

  /** The chunk the slab allocator hands out: the head of the free list, or the last chunk of a
      new page. */
  function Handed(s: State, c: nat): Chunk
    requires c < |s.cfg.classes| == |s.free| && s.cfg.classes[c].perslab > 0
  {
    if s.free[c] != [] then s.free[c][0] else At(s.nextPage, s.cfg.classes[c].perslab - 1)
  }

  /** What do_item_alloc takes: the candidate if it is dead; otherwise a chunk from the slab
      allocator if one is to be had; otherwise the candidate if eviction is on; otherwise nothing. */
  lemma AllocLaw(s: State, key: Key, flags: int, exptime: nat, data: string, blocked: set<Key>, memOk: bool)
    requires Inv(s) && |data| >= 2
    ensures var n := ItemAlloc(s, key, flags, exptime, data, blocked, memOk).1;
      var c := ClassFor(s, key, flags, |data|);
      if c == 0 then n == None else
        && c < |s.cfg.classes| == |s.free| == |s.slabs| == |s.lru| && (forall p :: p in s.lru[c] ==> p in s.items)
        && s.cfg.classes[c].perslab > 0 && !(Handed(s, c) in s.items && s.items[Handed(s, c)].linked)
        && (forall i :: Candidate(s, s.lru[c], 5, blocked, None, i) ==>
              var p := s.lru[c][i];
              if Dead(s, s.items[p]) then n == Some(p)
              else if Supplied(s, c, memOk) then n == Some(Handed(s, c))
              else n == if s.cfg.evictToFree then Some(p) else None)
        && ((forall i :: !Candidate(s, s.lru[c], 5, blocked, None, i)) ==>
              n == if Supplied(s, c, memOk) then Some(Handed(s, c)) else None)
  {
    hide Inv, Candidate, Idle, Supplied, Steal, Claim, NTotal, Victim;
    var c := ClassFor(s, key, flags, |data|);
    if c != 0 {
      LruFacts(s, c);
      ShapeFacts(s);
      SupplyIff(s, c, memOk);
      forall p | p in s.lru[c] ensures p in s.items && s.items[p].refcount > 0 { LinkedIsIndexed(s, p); }
      VictimIs(s, s.lru[c], 5, blocked);
      forall i, j | Candidate(s, s.lru[c], 5, blocked, None, i) && Candidate(s, s.lru[c], 5, blocked, None, j)
        ensures i == j
      {
        OneCandidate(s, s.lru[c], 5, blocked, None, i, j);
      }
    }
  }

  /** Eviction takes the least recent: of the at most five items at the tail that are idle, the
      one taken is the last in the queue, and none was linked or bumped before it. */
  lemma EvictsOldest(s: State, key: Key, flags: int, exptime: nat, data: string, blocked: set<Key>, memOk: bool)
    requires Inv(s) && |data| >= 2
    ensures var n := ItemAlloc(s, key, flags, exptime, data, blocked, memOk).1;
      var c := ClassFor(s, key, flags, |data|);
      n.Some? && n.value in s.items && s.items[n.value].linked ==>
        && 0 < c < |s.lru| && (forall p :: p in s.lru[c] ==> p in s.items)
        && exists i :: 0 <= i < |s.lru[c]| && i >= |s.lru[c]| - 5 && s.lru[c][i] == n.value
            && Idle(s, n.value, blocked, None)
            && forall j :: 0 <= j < |s.lru[c]| && j >= |s.lru[c]| - 5 && Idle(s, s.lru[c][j], blocked, None) ==>
                 j <= i && s.items[n.value].time <= s.items[s.lru[c][j]].time
  {
    hide Inv, ItemAlloc, Idle, Supplied, Dead;
    AllocLaw(s, key, flags, exptime, data, blocked, memOk);
    var n := ItemAlloc(s, key, flags, exptime, data, blocked, memOk).1;
    var c := ClassFor(s, key, flags, |data|);
    if n.Some? && n.value in s.items && s.items[n.value].linked {
      var i :| Candidate(s, s.lru[c], 5, blocked, None, i);
      assert s.lru[c][i] == n.value;
      Sorted(s, c);
    }
  }

  lemma Sorted(s: State, c: nat)
    requires Inv(s) && c < |s.lru|
    ensures forall p :: p in s.lru[c] ==> p in s.items
    ensures forall i, j :: 0 <= i <= j < |s.lru[c]| ==> s.items[s.lru[c][j]].time <= s.items[s.lru[c][i]].time
  {
    hide Memory, Pages, Accounts, Uploads, Queued, Freed, Index, Clock, CasIds, Mover, Counters;
  }

  /** So the item at the head, where a bump puts it, is taken only if it is alone. */
  lemma HeadIsSafe(s: State, key: Key, flags: int, exptime: nat, data: string, blocked: set<Key>, memOk: bool)
    requires Inv(s) && |data| >= 2
    ensures var n := ItemAlloc(s, key, flags, exptime, data, blocked, memOk).1;
      var c := ClassFor(s, key, flags, |data|);
      0 < c < |s.lru| && s.lru[c] != [] && n == Some(s.lru[c][0]) ==>
        && |s.lru[c]| <= 5
        && forall p :: p in s.lru[c] && p != s.lru[c][0] ==> p in s.items && !Idle(s, p, blocked, None)
  {
    hide Inv, ItemAlloc, Idle;
    EvictsOldest(s, key, flags, exptime, data, blocked, memOk);
    var c := ClassFor(s, key, flags, |data|);
    var n := ItemAlloc(s, key, flags, exptime, data, blocked, memOk).1;
    if 0 < c < |s.lru| && s.lru[c] != [] && n == Some(s.lru[c][0]) {
      HeadFacts(s, c);
      Distinct(s, c);
    }
  }

  lemma Distinct(s: State, c: nat)
    requires Inv(s) && c < |s.lru|
    ensures NoDup(s.lru[c])
  {
    hide Memory, Pages, Accounts, Uploads, Queued, Freed, Index, Clock, CasIds, Mover, Counters, Ordered;
  }

  // ----- whether an allocation succeeds

  /** There is a chunk to be had, or an idle item among the last five of the queue that is dead
      or may be evicted. */
  ghost predicate CanAlloc(s: State, key: Key, flags: int, nbytes: nat, blocked: set<Key>, memOk: bool,
                           own: Option<Chunk>)
  {
    var c := ClassFor(s, key, flags, nbytes);
    && 0 < c < |s.cfg.classes| == |s.free| == |s.slabs| == |s.lru| && (forall p :: p in s.lru[c] ==> p in s.items)
    && (Supplied(s, c, memOk)
        || exists i :: Candidate(s, s.lru[c], 5, blocked, own, i)
             && (s.cfg.evictToFree || Dead(s, s.items[s.lru[c][i]])))
  }

  lemma AllocIff(s: State, key: Key, flags: int, exptime: nat, data: string, blocked: set<Key>, memOk: bool)
    requires Inv(s) && |data| >= 2
    ensures ItemAlloc(s, key, flags, exptime, data, blocked, memOk).1.Some?
      <==> CanAlloc(s, key, flags, |data|, blocked, memOk, None)
  {
    hide Inv, ItemAlloc, Idle, Supplied, Dead, Candidate;
    AllocLaw(s, key, flags, exptime, data, blocked, memOk);
    var c := ClassFor(s, key, flags, |data|);
    if c != 0 {
      if i :| Candidate(s, s.lru[c], 5, blocked, None, i) {
        forall j | Candidate(s, s.lru[c], 5, blocked, None, j) ensures i == j {
          OneCandidate(s, s.lru[c], 5, blocked, None, i, j);
        }
      }
    }
  }

  /** The item the caller holds is not one the walk can take. */
  lemma HoldCan(s: State, o: Chunk, key: Key, flags: int, nbytes: nat, blocked: set<Key>, memOk: bool)
    requires Inv(s) && o in s.items && s.items[o].linked
    ensures Has(s, o)
    ensures CanAlloc(Hold(s, o), key, flags, nbytes, blocked, memOk, None)
      <==> CanAlloc(s, key, flags, nbytes, blocked, memOk, Some(o))
  {
    hide Inv, NTotal;
    LinkedIsIndexed(s, o);
    var t := Hold(s, o);
    var c := ClassFor(s, key, flags, nbytes);
    if 0 < c < |s.cfg.classes| == |s.free| == |s.slabs| == |s.lru| && (forall p :: p in s.lru[c] ==> p in s.items) {
      HoldCandidate(s, o, s.lru[c], blocked);
    }
  }

  lemma HoldCandidate(s: State, o: Chunk, q: seq<Chunk>, blocked: set<Key>)
    requires Has(s, o) && s.items[o].refcount > 0 && forall p :: p in q ==> p in s.items
    ensures forall i :: Candidate(Hold(s, o), q, 5, blocked, None, i) <==> Candidate(s, q, 5, blocked, Some(o), i)
    ensures forall p :: p in s.items ==> Dead(Hold(s, o), Hold(s, o).items[p]) == Dead(s, s.items[p])
  {
    assert forall p :: p in q ==> Idle(Hold(s, o), p, blocked, None) == Idle(s, p, blocked, Some(o));
  }

  /** Uploads in progress make no difference. */
  lemma UploadsCan(s: State, uploads: set<Chunk>, key: Key, flags: int, nbytes: nat, blocked: set<Key>, memOk: bool,
                   own: Option<Chunk>)
    ensures CanAlloc(s.(uploads := uploads), key, flags, nbytes, blocked, memOk, own)
      <==> CanAlloc(s, key, flags, nbytes, blocked, memOk, own)
  {
    hide NTotal;
    var t := s.(uploads := uploads);
    var c := ClassFor(s, key, flags, nbytes);
    if 0 < c < |s.cfg.classes| == |s.free| == |s.slabs| == |s.lru| && (forall p :: p in s.lru[c] ==> p in s.items) {
      assert forall p :: p in s.items ==> Idle(t, p, blocked, own) == Idle(s, p, blocked, own);
      assert forall i :: Candidate(t, s.lru[c], 5, blocked, own, i) <==> Candidate(s, s.lru[c], 5, blocked, own, i);
    }
  }

  /** Header, key and NUL, suffix, data and id. */
  function Footprint(cfg: Config, key: Key, flags: int, nbytes: nat): nat
    requires nbytes >= 2
  {
    48 + |key| + 1 + |" " + D.Signed(flags) + " " + D.Digits(nbytes - 2) + "\r\n"| + nbytes
    + if cfg.useCas then 8 else 0
  }

  /** What is handed out is a chunk of the least class the item fits into. */
  lemma AllocFits(s: State, key: Key, flags: int, exptime: nat, data: string, blocked: set<Key>, memOk: bool)
    requires Inv(s) && |data| >= 2
    ensures var (t, n) := ItemAlloc(s, key, flags, exptime, data, blocked, memOk);
      var size := Footprint(s.cfg, key, flags, |data|);
      n.Some? ==>
        && n.value.page in t.owner && 1 <= t.owner[n.value.page] < |s.cfg.classes|
        && size <= s.cfg.classes[t.owner[n.value.page]].size
        && forall d :: 1 <= d < t.owner[n.value.page] ==> s.cfg.classes[d].size < size
  {
    hide Inv, Supply, D.Signed, D.Digits;
    var c := ClsId(s.cfg.classes, NTotal(s.cfg, key, flags, |data|));
    if c != 0 {
      LruFacts(s, c);
      SupplyInv(s, c, memOk);
      var t := Supply(s, c, memOk);
      if t.Some? { FreeFacts(t.value, c, t.value.free[c][0]); }
      var v := Victim(s, s.lru[c], SEARCH_TRIES, blocked);
      if v.Some? { ChunkFacts(s, v.value); }
    }
  }
}
