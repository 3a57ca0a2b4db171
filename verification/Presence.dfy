/** What a client can find, told on the fields of the items alone, and what each transition
    leaves of the items it is not about.  The other modules measure the operations by it. */
module Presence {
  import opened Seqs
  import opened CacheState
  import opened CacheInvariant
  import opened CacheProofs
  import opened CacheOps
  import R = Refinement

  /** p is linked under k, not on the page that is being drained, not stamped at or before a
      flush that has taken effect, and not past its expiry. */
  ghost predicate Finds(s: State, k: Key, p: Chunk) {
    && p in s.items && s.items[p].linked && s.items[p].key == k
    && !(s.rebal.signal == 2 && p.page == s.rebal.page)
    && !(s.oldestLive != 0 && s.oldestLive <= s.now && s.items[p].time <= s.oldestLive)
    && (s.items[p].exptime == 0 || s.now < s.items[p].exptime)
  }

  ghost predicate Present(s: State, k: Key) { exists p :: Finds(s, k, p) }

  /** No item is linked under k. */
  ghost predicate Gone(s: State, k: Key) { forall p :: p in s.items && s.items[p].linked ==> s.items[p].key != k }

  /** The id a client compares: none when ids are switched off. */
  function Id(s: State, p: Chunk): nat
    requires p in s.items
  {
    if s.cfg.useCas then s.items[p].cas else 0
  }

  /** p is still linked, with the same content and id, and stamped no earlier. */
  ghost predicate Stays(s: State, t: State, p: Chunk) {
    && p in s.items && s.items[p].linked && p in t.items && t.items[p].linked
    && t.items[p].key == s.items[p].key && t.items[p].flags == s.items[p].flags
    && t.items[p].data == s.items[p].data && t.items[p].exptime == s.items[p].exptime
    && t.items[p].cas == s.items[p].cas && t.items[p].time >= s.items[p].time
  }

  // ----- the table has exactly the linked items

  lemma LinkedIsIndexed(s: State, p: Chunk)
    requires Inv(s) && p in s.items && s.items[p].linked
    ensures s.items[p].key in s.index && s.index[s.items[p].key] == p && p !in s.uploads && s.items[p].refcount > 0
    ensures Has(s, p) && !s.items[p].slabbed && s.items[p].time <= s.now
  {
    hide Memory, Pages, Accounts, Freed, Clock, CasIds, Mover, Counters;
    ChunkFacts(s, p);
    var q := s.lru[ClassOf(s, p)];
    assert q[IndexOf(q, p)] == p;
  }

  lemma IndexedIsLinked(s: State, k: Key)
    requires Inv(s) && k in s.index
    ensures s.index[k] in s.items && s.items[s.index[k]].linked && s.items[s.index[k]].key == k
    ensures Has(s, s.index[k]) && s.index[k] !in s.uploads && s.items[s.index[k]].refcount > 0
  {
    hide Memory, Pages, Lists, Accounts, Queued, Freed, Ordered, Clock, CasIds, Mover, Counters;
    ChunkFacts(s, s.index[k]);
  }

  lemma NotIndexed(s: State, k: Key)
    requires Inv(s)
    ensures k !in s.index <==> Gone(s, k)
  {
    hide Inv;
    if k in s.index {
      IndexedIsLinked(s, k);
    } else {
      forall p | p in s.items && s.items[p].linked ensures s.items[p].key != k { LinkedIsIndexed(s, p); }
    }
  }

  /** Looking up finds what a client can find, no more and no less, and what it cannot find
      it leaves no trace of. */
  lemma LookUpIff(s: State, k: Key)
    requires Inv(s)
    ensures var (t, r) := Get(s, k);
      && Inv(t)
      && (forall p :: r == Some(p) <==> Finds(s, k, p))
      && (r.Some? ==>
          && Has(s, r.value) && t == Hold(s, r.value) && Finds(t, k, r.value)
          && r.value in t.holders && r.value !in t.uploads)
      && (r.None? ==> Gone(t, k) && t.holders == s.holders)
  {
    hide Inv, Unlink, Release;
    GetInv(s, k);
    if k in s.index { IndexedIsLinked(s, k); }
    forall p | Finds(s, k, p) ensures k in s.index && s.index[k] == p { LinkedIsIndexed(s, p); }
    if Get(s, k).1.None? { LookUpGone(s, k); }
  }

  lemma LookUpGone(s: State, k: Key)
    requires Inv(s) && Get(s, k).1.None?
    ensures Gone(Get(s, k).0, k)
  {
    hide Inv, Get;
    GetInv(s, k);
    R.GetMisses(s, k);
    NotIndexed(Get(s, k).0, k);
  }

  // ----- what the transitions leave alone

  lemma StaysRefl(s: State, p: Chunk)
    requires p in s.items && s.items[p].linked
    ensures Stays(s, s, p)
  {
  }

  lemma StaysTrans(s: State, t: State, u: State, p: Chunk)
    requires Stays(s, t, p) && Stays(t, u, p)
    ensures Stays(s, u, p)
  {
  }

  /** The elementary transitions leave every linked item but the one they are about. */
  lemma OneStays(s: State, x: Chunk, p: Chunk)
    requires Inv(s) && p in s.items && s.items[p].linked && Has(s, x)
    ensures Stays(s, Hold(s, x), p) && Stays(s, Release(s, x), p) && Stays(s, Update(s, x), p)
    ensures p != x ==> Stays(s, Unlink(s, x), p)
    ensures p != x ==> Stays(s, Link(s, x), p)
  {
    hide Inv;
    LinkedIsIndexed(s, p);
  }

  /** A look-up of one key leaves the items under the others, and what it finds. */
  lemma LookUpStays(s: State, k: Key, p: Chunk)
    requires Inv(s) && p in s.items && s.items[p].linked && (s.items[p].key != k || Finds(s, k, p))
    ensures Stays(s, Get(s, k).0, p)
  {
    hide Inv, Stays, Hold, Release, Unlink, Finds;
    StaysRefl(s, p);
    LookUpIff(s, k);
    LinkedIsIndexed(s, p);
    if k in s.index {
      var x := s.index[k];
      IndexedIsLinked(s, k);
      OneStays(s, x, p);
      if Get(s, k).1.None? {
        HoldInv(s, x);
        var h := Hold(s, x);
        Held(s, x);
        StaysLinked(s, h, p);
        OneStays(h, x, p);
        UnlinkInv(h, x);
        StaysLinked(h, Unlink(h, x), p);
        OneStays(Unlink(h, x), x, p);
        StaysTrans(s, h, Unlink(h, x), p);
        StaysTrans(s, Unlink(h, x), Release(Unlink(h, x), x), p);
      }
    }
  }

  lemma Held(s: State, x: Chunk)
    requires Has(s, x)
    ensures Has(Hold(s, x), x)
  {
  }

  lemma StaysLinked(s: State, t: State, p: Chunk)
    requires Stays(s, t, p)
    ensures p in t.items && t.items[p].linked && t.items[p].key == s.items[p].key
  {
  }

  /** An allocation leaves every linked item but the one whose chunk it hands out. */
  lemma AllocStays(s: State, key: Key, flags: int, exptime: nat, data: string, blocked: set<Key>, memOk: bool, p: Chunk)
    requires Inv(s) && |data| >= 2 && p in s.items && s.items[p].linked
    ensures var (t, n) := ItemAlloc(s, key, flags, exptime, data, blocked, memOk); n != Some(p) ==> Stays(s, t, p)
  {
    hide Inv, ItemAlloc;
    ItemAllocInv(s, key, flags, exptime, data, blocked, memOk);
  }

  lemma ReplaceStays(s: State, o: Chunk, x: Chunk, p: Chunk)
    requires Inv(s) && Pair(s, o, x) && p in s.items && s.items[p].linked && p != o
    ensures Stays(s, ReplaceHeld(s, o, x).0, p)
  {
    hide Inv, Stays, Link, Release, Unlink;
    ReplaceInv(s, o, x);
    LinkedIsIndexed(s, p);
    OneStays(s, o, p);
    UnlinkInv(s, o);
    var u := Unlink(s, o);
    StaysLinked(s, u, p);
    ChunkFacts(u, x);
    OneStays(u, x, p);
    var v := Link(u, x);
    StaysLinked(u, v, p);
    OneStays(v, o, p);
    StaysTrans(s, u, v, p);
    StaysTrans(s, v, Release(v, o), p);
  }

  /** Exchange on o leaves p alone unless it takes its chunk, and then p is under o's key. */
  lemma ExchangeStays(s: State, o: Chunk, key: Key, flags: int, exptime: nat, data: string, blocked: set<Key>,
                      memOk: bool, p: Chunk)
    requires Inv(s) && o in s.items && s.items[o].linked && o in s.holders && s.items[o].key == key && |data| >= 2
    requires p in s.items && s.items[p].linked
    ensures var (t, r) := Exchange(s, o, key, flags, exptime, data, blocked, memOk);
      && (r.NotStored? ==> Stays(s, t, p))
      && (p != o ==> Stays(s, t, p) || (p in t.items && t.items[p].linked && t.items[p].key == key))
  {
    hide Inv, ItemAlloc, ReplaceHeld, Release, Stays;
    ItemAllocInv(s, key, flags, exptime, data, blocked, memOk);
    AllocPair(s, o, key, flags, exptime, data, blocked, memOk);
    AllocStays(s, key, flags, exptime, data, blocked, memOk, p);
    var (s1, n) := ItemAlloc(s, key, flags, exptime, data, blocked, memOk);
    match n
    case None =>
      StaysLinked(s, s1, p);
      OneStays(s1, o, p);
      StaysTrans(s, s1, Release(s1, o), p);
    case Some(n) =>
      ReplaceHeldInv(s1, o, n);
      Replaced(s1, o, n);
      var t := ReplaceHeld(s1, o, n).0;
      OneStays(t, n, n);
      StaysLinked(t, Release(t, n), n);
      if p != o && p != n {
        StaysLinked(s, s1, p);
        ReplaceStays(s1, o, n, p);
        StaysLinked(s1, t, p);
        OneStays(t, n, p);
        StaysTrans(s, s1, t, p);
        StaysTrans(s, t, Release(t, n), p);
      }
  }

  /** The new item is linked under the key in the current second, with what was uploaded. */
  lemma Replaced(s: State, o: Chunk, n: Chunk)
    requires Inv(s) && Pair(s, o, n)
    ensures var (t, r) := ReplaceHeld(s, o, n); var (a, b) := (s.items[n], t.items[n]);
      && r.Stored? && Has(t, n) && n in t.items && b.linked && b.key == a.key && b.flags == a.flags && b.data == a.data
      && b.exptime == a.exptime && b.time == s.now && r.cas == Id(t, n)
      && (s.cfg.useCas ==> b.cas == s.casId + 1)
  {
    hide Inv;
    ReplaceInv(s, o, n);
    ChunkFacts(s, o);
    ChunkFacts(s, n);
  }
}
