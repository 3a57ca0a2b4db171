/** The cache refines the lossy map: every reply of every run is one the map allows. */
module Refinement {
  import opened Seqs
  import opened CacheState
  import opened CacheInvariant
  import opened CacheProofs
  import opened CacheOps
  import opened Commands
  import opened LossyMap
  import D = Decimal

  function EntryOf(s: State, p: Chunk): Entry
    requires p in s.items
  {
    var it := s.items[p];
    Entry(it.flags, it.data, it.exptime, CasOf(s, p))
  }

  function PendingOf(s: State, p: Chunk): Pending
    requires p in s.items
  {
    var it := s.items[p];
    Pending(it.key, it.flags, it.data, it.exptime, CasOf(s, p))
  }

  /** Key k finds the item the ideal map holds, or one that a flush has hidden. */
  ghost predicate KeyMatches(s: State, i: Ideal, k: Key) {
    k in s.index ==>
      && s.index[k] in s.items
      && (Flushed(s, s.items[s.index[k]]) || (k in i.entries && i.entries[k] == EntryOf(s, s.index[k])))
  }

  ghost predicate Refines(s: State, i: Ideal) {
    && i.now == s.now && i.useCas == s.cfg.useCas && (s.cfg.useCas ==> i.lastCas == s.casId)
    && (forall k :: KeyMatches(s, i, k))
    && i.pending.Keys == s.uploads
    && (forall p :: p in s.uploads ==> p in s.items && i.pending[p] == PendingOf(s, p))
  }

  // ----- steps between two states

  /** What key k finds in t it found in s, unchanged, and hidden if and only if it was. */
  ghost predicate KeyKept(s: State, t: State, k: Key) {
    k in t.index ==>
      && k in s.index && s.index[k] in s.items && t.index[k] in t.items
      && EntryOf(t, t.index[k]) == EntryOf(s, s.index[k])
      && (Flushed(s, s.items[s.index[k]]) <==> Flushed(t, t.items[t.index[k]]))
  }

  ghost predicate SameRest(s: State, t: State) {
    && t.cfg == s.cfg && t.now == s.now && t.oldestLive == s.oldestLive && t.uploads == s.uploads
    && (forall p :: p in s.uploads && p in s.items ==> p in t.items && PendingOf(t, p) == PendingOf(s, p))
  }

  /** Entries may be lost, nothing else happens. */
  ghost predicate Quiet(s: State, t: State) {
    && SameRest(s, t) && t.casId == s.casId
    && (forall k :: KeyKept(s, t, k))
  }

  /** Key k is given entry e, other entries may be lost. */
  ghost predicate Wrote(s: State, t: State, k: Key, e: Entry) {
    && SameRest(s, t)
    && t.casId == (if s.cfg.useCas then s.casId + 1 else s.casId)
    && e.cas == (if s.cfg.useCas then s.casId + 1 else 0)
    && (forall j :: j != k ==> KeyKept(s, t, j))
    && (k in t.index ==> t.index[k] in t.items && EntryOf(t, t.index[k]) == e && !Flushed(t, t.items[t.index[k]]))
  }

  lemma QuietTrans(s: State, t: State, u: State)
    requires Quiet(s, t) && Quiet(t, u)
    ensures Quiet(s, u)
  {
    forall k ensures KeyKept(s, u, k) { assert KeyKept(s, t, k) && KeyKept(t, u, k); }
  }

  lemma QuietThenWrote(s: State, t: State, u: State, k: Key, e: Entry)
    requires Quiet(s, t) && Wrote(t, u, k, e)
    ensures Wrote(s, u, k, e)
  {
    forall j | j != k ensures KeyKept(s, u, j) { assert KeyKept(s, t, j) && KeyKept(t, u, j); }
  }

  lemma WroteThenQuiet(s: State, t: State, u: State, k: Key, e: Entry)
    requires Wrote(s, t, k, e) && Quiet(t, u)
    ensures Wrote(s, u, k, e)
  {
    assert KeyKept(t, u, k);
    forall j | j != k ensures KeyKept(s, u, j) { assert KeyKept(s, t, j) && KeyKept(t, u, j); }
  }

  lemma QuietRefines(s: State, t: State, i: Ideal)
    requires Refines(s, i) && Quiet(s, t)
    ensures Refines(t, i)
  {
    forall k ensures KeyMatches(t, i, k) { assert KeyKept(s, t, k) && KeyMatches(s, i, k); }
  }

  lemma WroteRefines(s: State, t: State, i: Ideal, k: Key, e: Entry)
    requires Refines(s, i) && Wrote(s, t, k, e)
    ensures Refines(t, Write(i, k, e))
  {
    forall j ensures KeyMatches(t, Write(i, k, e), j) { if j != k { assert KeyKept(s, t, j) && KeyMatches(s, i, j); } }
  }

  lemma LoseRefines(s: State, i: Ideal, k: Key)
    requires Refines(s, i) && k !in s.index
    ensures Refines(s, Lose(i, k))
  {
    forall j ensures KeyMatches(s, Lose(i, k), j) { assert KeyMatches(s, i, j); }
  }

  // ----- the elementary transitions

  lemma IndexFacts(s: State)
    requires Inv(s)
    ensures forall k :: k in s.index ==>
      s.index[k] in s.items && s.items[s.index[k]].linked && s.items[s.index[k]].key == k && s.index[k] !in s.uploads
    ensures s.oldestLive < s.now
  {
    hide Memory, Pages, Lists, Accounts, Queued, Freed, Ordered, CasIds, Mover;
  }

  lemma QuietHold(s: State, p: Chunk)
    requires Inv(s) && Has(s, p)
    ensures Quiet(s, Hold(s, p))
  {
    hide Inv;
    IndexFacts(s);
  }

  lemma QuietRelease(s: State, p: Chunk)
    requires Inv(s) && Has(s, p)
    ensures Quiet(s, Release(s, p))
  {
    hide Inv;
    IndexFacts(s);
  }

  lemma QuietUnlink(s: State, p: Chunk)
    requires Inv(s) && Has(s, p)
    ensures Quiet(s, Unlink(s, p))
  {
    hide Inv;
    IndexFacts(s);
  }

  lemma QuietUpdate(s: State, p: Chunk)
    requires Inv(s) && Has(s, p) && !Flushed(s, s.items[p])
    ensures Quiet(s, Update(s, p))
  {
    hide Inv;
    IndexFacts(s);
  }

  lemma QuietGet(s: State, k: Key)
    requires Inv(s)
    ensures Quiet(s, Get(s, k).0)
  {
    hide Inv, Quiet;
    IndexFacts(s);
    QuietRefl(s);
    if k in s.index {
      var p := s.index[k];
      ChunkFacts(s, p);
      HoldInv(s, p);
      var h := Hold(s, p);
      QuietHold(s, p);
      UnlinkInv(h, p);
      QuietUnlink(h, p);
      QuietRelease(Unlink(h, p), p);
      QuietTrans(s, h, Unlink(h, p));
      QuietTrans(s, Unlink(h, p), Release(Unlink(h, p), p));
    }
  }

  lemma QuietRefl(s: State)
    requires Inv(s)
    ensures Quiet(s, s)
  {
    IndexFacts(s);
  }

  lemma QuietAlloc(s: State, key: Key, flags: int, exptime: nat, data: string, blocked: set<Key>, memOk: bool)
    requires Inv(s) && |data| >= 2
    ensures Quiet(s, ItemAlloc(s, key, flags, exptime, data, blocked, memOk).0)
  {
    hide Inv, ItemAlloc;
    IndexFacts(s);
    ItemAllocInv(s, key, flags, exptime, data, blocked, memOk);
  }

  lemma WroteLink(s: State, p: Chunk)
    requires Inv(s) && Has(s, p) && p !in s.uploads
    ensures var t := Link(s, p); Wrote(s, t, s.items[p].key, EntryOf(t, p))
  {
    hide Inv;
    IndexFacts(s);
  }

  // ----- storing

  lemma ReplaceWrote(s: State, o: Chunk, p: Chunk)
    requires Inv(s) && Pair(s, o, p)
    ensures var (t, r) := ReplaceHeld(s, o, p);
      && r.Stored?
      && Wrote(s, t, s.items[p].key, Entry(s.items[p].flags, s.items[p].data, s.items[p].exptime, r.cas))
  {
    hide Inv, Quiet, Wrote, Release;
    ReplaceInv(s, o, p);
    ChunkFacts(s, o);
    ChunkFacts(s, p);
    UnlinkInv(s, o);
    var u := Unlink(s, o);
    QuietUnlink(s, o);
    UnlinkLeaves(s, o, p);
    WroteLink(u, p);
    var e := EntryOf(Link(u, p), p);
    QuietThenWrote(s, u, Link(u, p), s.items[p].key, e);
    QuietRelease(Link(u, p), o);
    WroteThenQuiet(s, Link(u, p), Release(Link(u, p), o), s.items[p].key, e);
  }

  lemma UnlinkLeaves(s: State, o: Chunk, p: Chunk)
    requires Has(s, o) && p in s.items && p != o
    ensures Unlink(s, o).items[p] == s.items[p]
  {
  }

  lemma ExchangeWrote(s: State, o: Chunk, key: Key, flags: int, exptime: nat, data: string, blocked: set<Key>,
                      memOk: bool)
    requires Inv(s) && o in s.items && s.items[o].linked && o in s.holders && s.items[o].key == key && |data| >= 2
    ensures var (t, r) := Exchange(s, o, key, flags, exptime, data, blocked, memOk);
      || (r.NotStored? && Quiet(s, t))
      || (r.Stored? && Wrote(s, t, key, Entry(flags, data, exptime, r.cas)))
  {
    hide Inv, Quiet, Wrote, Release, ItemAlloc, ReplaceHeld, Pair;
    QuietAlloc(s, key, flags, exptime, data, blocked, memOk);
    AllocPair(s, o, key, flags, exptime, data, blocked, memOk);
    ItemAllocInv(s, key, flags, exptime, data, blocked, memOk);
    var (s1, n) := ItemAlloc(s, key, flags, exptime, data, blocked, memOk);
    match n
    case None =>
      QuietRelease(s1, o);
      QuietTrans(s, s1, Release(s1, o));
    case Some(n) =>
      ReplaceWrote(s1, o, n);
      ReplaceHeldInv(s1, o, n);
      var (t, r) := ReplaceHeld(s1, o, n);
      var e := Entry(flags, data, exptime, r.cas);
      QuietThenWrote(s, s1, t, key, e);
      PairChunks(s1, o, n);
      ReplaceKeeps(s1, o, n);
      QuietRelease(t, n);
      WroteThenQuiet(s, t, Release(t, n), key, e);
  }

  lemma PairChunks(s: State, o: Chunk, p: Chunk)
    requires Inv(s) && Pair(s, o, p)
    ensures Has(s, o) && Has(s, p)
  {
    ChunkFacts(s, o);
    ChunkFacts(s, p);
  }

  lemma ReplaceKeeps(s: State, o: Chunk, p: Chunk)
    requires Inv(s) && Pair(s, o, p)
    ensures Has(ReplaceHeld(s, o, p).0, p)
  {
    hide Inv, Unlink, Link, Release;
    PairChunks(s, o, p);
  }

  lemma FoundLive(s: State, i: Ideal, k: Key)
    requires Inv(s) && Refines(s, i) && Get(s, k).1.Some?
    ensures var (t, p) := Get(s, k);
      && p.value in t.items && Live(i, k) && i.entries[k] == EntryOf(t, p.value) && !Flushed(t, t.items[p.value])
  {
    hide Inv;
    IndexFacts(s);
    assert KeyMatches(s, i, k);
  }

  lemma StoreMissingRefines(s: State, i: Ideal, p: Chunk, verb: Verb)
    requires Inv(s) && Refines(s, i) && p in s.items && !s.items[p].linked && p !in s.uploads
    requires s.items[p].key !in s.index
    ensures var (t, r) := StoreMissing(s, p, verb); var u := PendingOf(s, p);
      && AllowedStore(i, u, verb, r)
      && Refines(t, AfterStore(i, u, verb, r))
  {
    hide Inv, Refines, Wrote;
    ChunkFacts(s, p);
    var k := s.items[p].key;
    RefinesFacts(s, i);
    LoseRefines(s, i, k);
    if verb == Add || verb == Set {
      WroteLink(s, p);
      WroteRefines(s, Link(s, p), i, k, EntryOf(Link(s, p), p));
    }
  }

  lemma RefinesFacts(s: State, i: Ideal)
    requires Refines(s, i)
    ensures i.now == s.now && i.useCas == s.cfg.useCas && (s.cfg.useCas ==> i.lastCas == s.casId)
    ensures i.pending.Keys == s.uploads
    ensures forall p :: p in s.uploads ==> p in s.items && i.pending[p] == PendingOf(s, p)
  {
  }

  lemma WroteFacts(s: State, t: State, k: Key, e: Entry, i: Ideal)
    requires Refines(s, i) && Wrote(s, t, k, e)
    ensures NewCas(i, e.cas)
  {
  }

  lemma StorePresentRefines(s: State, i: Ideal, p: Chunk, o: Chunk, verb: Verb, blocked: set<Key>, memOk: bool)
    requires Inv(s) && Refines(s, i) && Pair(s, o, p)
    requires Live(i, s.items[p].key) && i.entries[s.items[p].key] == EntryOf(s, o) && !Flushed(s, s.items[o])
    ensures var (t, r) := StorePresent(s, p, o, verb, blocked, memOk); var u := PendingOf(s, p);
      && AllowedStore(i, u, verb, r)
      && Refines(t, AfterStore(i, u, verb, r))
  {
    hide Inv, Refines, Wrote, Quiet, Release, Exchange, ReplaceHeld, Update;
    PairChunks(s, o, p);
    HolderFacts(s, o);
    HolderFacts(s, p);
    QuietRelease(s, o);
    QuietRefines(s, Release(s, o), i);
    var k := s.items[p].key;
    match verb
    case Add =>
      QuietUpdate(s, o);
      UpdateInv(s, o);
      QuietRelease(Update(s, o), o);
      QuietTrans(s, Update(s, o), Release(Update(s, o), o));
      QuietRefines(s, Release(Update(s, o), o), i);
    case Cas => ReplaceRefines(s, i, p, o);
    case Set => ReplaceRefines(s, i, p, o);
    case Swap => ReplaceRefines(s, i, p, o);
    case Append => ExchangeRefines(s, i, o, Joined(s.items[o].data, s.items[p].data), blocked, memOk);
    case Prepend => ExchangeRefines(s, i, o, Joined(s.items[p].data, s.items[o].data), blocked, memOk);
  }

  lemma ReplaceRefines(s: State, i: Ideal, p: Chunk, o: Chunk)
    requires Inv(s) && Refines(s, i) && Pair(s, o, p)
    ensures var (t, r) := ReplaceHeld(s, o, p); var it := s.items[p];
      r.Stored? && NewCas(i, r.cas) && Refines(t, Write(i, it.key, Entry(it.flags, it.data, it.exptime, r.cas)))
  {
    hide Inv, Refines, Wrote, ReplaceHeld;
    ReplaceWrote(s, o, p);
    var (t, r) := ReplaceHeld(s, o, p);
    var it := s.items[p];
    var e := Entry(it.flags, it.data, it.exptime, r.cas);
    WroteFacts(s, t, it.key, e, i);
    WroteRefines(s, t, i, it.key, e);
  }

  lemma ExchangeRefines(s: State, i: Ideal, o: Chunk, data: string, blocked: set<Key>, memOk: bool)
    requires Inv(s) && Refines(s, i) && o in s.items && s.items[o].linked && o in s.holders && |data| >= 2
    ensures var it := s.items[o];
      var (t, r) := Exchange(s, o, it.key, it.flags, it.exptime, data, blocked, memOk);
      || (r.NotStored? && Refines(t, i))
      || (r.Stored? && NewCas(i, r.cas) && Refines(t, Write(i, it.key, Entry(it.flags, data, it.exptime, r.cas))))
  {
    hide Inv, Refines, Wrote, Quiet, Exchange;
    var it := s.items[o];
    ExchangeWrote(s, o, it.key, it.flags, it.exptime, data, blocked, memOk);
    var (t, r) := Exchange(s, o, it.key, it.flags, it.exptime, data, blocked, memOk);
    if r.Stored? {
      var e := Entry(it.flags, data, it.exptime, r.cas);
      WroteFacts(s, t, it.key, e, i);
      WroteRefines(s, t, i, it.key, e);
    } else {
      QuietRefines(s, t, i);
    }
  }

  lemma StoreRefines(s: State, i: Ideal, p: Chunk, verb: Verb, blocked: set<Key>, memOk: bool)
    requires Inv(s) && Refines(s, i)
    requires p in s.items && !s.items[p].linked && p in s.holders && p !in s.uploads
    ensures var (t, r) := Store(s, p, verb, blocked, memOk); var u := PendingOf(s, p);
      && AllowedStore(i, u, verb, r)
      && Refines(t, AfterStore(i, u, verb, r))
  {
    hide Inv, Refines, Quiet, Get, StoreMissing, StorePresent, AllowedStore, AfterStore;
    var k := s.items[p].key;
    GetInv(s, k);
    GetLeaves(s, k, p);
    QuietGet(s, k);
    var (t, found) := Get(s, k);
    QuietRefines(s, t, i);
    match found
    case None => StoreMissingRefines(t, i, p, verb);
    case Some(o) =>
      FoundLive(s, i, k);
      StorePresentRefines(t, i, p, o, verb, blocked, memOk);
  }

  // ----- the commands

  lemma QuietDelete(s: State, k: Key)
    requires Inv(s)
    ensures Quiet(s, Delete(s, k).0) && k !in Delete(s, k).0.index
  {
    hide Inv, Quiet, Get, Release;
    QuietGet(s, k);
    GetInv(s, k);
    var (t, found) := Get(s, k);
    match found
    case None => GetMisses(s, k);
    case Some(p) =>
      FoundFacts(s, k);
      QuietUnlink(t, p);
      UnlinkInv(t, p);
      QuietRelease(Unlink(t, p), p);
      QuietTrans(s, t, Unlink(t, p));
      QuietTrans(s, Unlink(t, p), Release(Unlink(t, p), p));
      UnlinkedGone(t, p);
  }

  lemma UnlinkedGone(s: State, p: Chunk)
    requires Inv(s) && Has(s, p) && s.items[p].linked
    ensures s.items[p].key !in Release(Unlink(s, p), p).index
  {
  }

  lemma GetMisses(s: State, k: Key)
    requires Inv(s) && Get(s, k).1.None?
    ensures k !in Get(s, k).0.index
  {
    hide Memory, Pages, Lists, Accounts, Uploads, Queued, Freed, Ordered, Clock, CasIds, Mover;
    if k in s.index { ChunkFacts(s, s.index[k]); }
  }

  lemma BeginRefines(s: State, i: Ideal, c: Command)
    requires Inv(s) && Refines(s, i) && c.Begin? && |c.junk| >= 2
    ensures var (t, r) := BeginStep(s, c); Allowed(i, c, r) && Refines(t, After(i, c, r))
  {
    hide Inv, Quiet, ItemAlloc, Delete, Refines;
    QuietAlloc(s, c.key, c.flags, c.exptime, c.junk, c.blocked, c.memOk);
    ItemAllocInv(s, c.key, c.flags, c.exptime, c.junk, c.blocked, c.memOk);
    RefinesFacts(s, i);
    var (t, n) := ItemAlloc(s, c.key, c.flags, c.exptime, c.junk, c.blocked, c.memOk);
    QuietRefines(s, t, i);
    match n
    case None =>
      QuietDelete(s, c.key);
      QuietRefines(s, Delete(s, c.key).0, i);
      if c.verb == Set { LoseRefines(Delete(s, c.key).0, i, c.key); }
    case Some(p) => UploadBegun(t, i, p, c.cas);
  }

  /** A fresh unlinked chunk becomes an upload. */
  lemma UploadBegun(s: State, i: Ideal, p: Chunk, cas: nat)
    requires Inv(s) && Refines(s, i) && p in s.items && !s.items[p].linked && p !in s.uploads
    ensures var it := s.items[p];
      Refines(s.(items := s.items[p := it.(cas := if s.cfg.useCas then cas else it.cas)], uploads := s.uploads + {p}),
              i.(pending := i.pending[p := 
                Pending(it.key, it.flags, it.data, it.exptime, if i.useCas then cas else 0)]))
  {
    hide Inv;
    IndexFacts(s);
    var it := s.items[p];
    var t := s.(items := s.items[p := it.(cas := if s.cfg.useCas then cas else it.cas)], uploads := s.uploads + {p});
    forall k ensures KeyMatches(t, i, k) { assert KeyMatches(s, i, k); }
    KeysOnly(t, i, i.(pending := i.pending[p := PendingOf(t, p)]));
  }

  lemma KeysOnly(s: State, i: Ideal, j: Ideal)
    requires (forall k :: KeyMatches(s, i, k)) && j == i.(pending := j.pending)
    ensures forall k :: KeyMatches(s, j, k)
  {
    forall k ensures KeyMatches(s, j, k) { assert KeyMatches(s, i, k); }
  }

  lemma FillRefines(s: State, i: Ideal, p: Chunk, bytes: string)
    requires Inv(s) && Refines(s, i) && p in s.uploads && p in s.items
    ensures Refines(FillStep(s, p, bytes), i.(pending := i.pending[p := i.pending[p].(data := bytes)]))
  {
    hide Inv;
    IndexFacts(s);
    var t := FillStep(s, p, bytes);
    forall k ensures KeyMatches(t, i, k) { assert KeyMatches(s, i, k); }
    KeysOnly(t, i, i.(pending := i.pending[p := i.pending[p].(data := bytes)]));
  }

  lemma UploadEnded(s: State, i: Ideal, p: Chunk)
    requires Refines(s, i)
    ensures Refines(s.(uploads := s.uploads - {p}), i.(pending := i.pending - {p}))
  {
    var t := s.(uploads := s.uploads - {p});
    forall k ensures KeyMatches(t, i, k) { assert KeyMatches(s, i, k); }
    KeysOnly(t, i, i.(pending := i.pending - {p}));
  }

  lemma CompleteRefines(s: State, i: Ideal, p: Chunk, verb: Verb, blocked: set<Key>, memOk: bool)
    requires Inv(s) && Refines(s, i) && p in s.uploads
    ensures var c := Complete(p, verb, blocked, memOk); var (t, r) := CompleteStep(s, p, verb, blocked, memOk);
      Allowed(i, c, r) && Refines(t, After(i, c, r))
  {
    hide Inv, Refines, Quiet, Store, Release, AllowedStore, AfterStore;
    RefinesFacts(s, i);
    UploadFacts(s, p);
    FewerUploads(s, p);
    UploadEnded(s, i, p);
    var u := s.(uploads := s.uploads - {p});
    var j := i.(pending := i.pending - {p});
    ChunkFacts(u, p);
    if EndsLine(s.items[p].data) {
      StoreRefines(u, j, p, verb, blocked, memOk);
      StoreInv(u, p, verb, blocked, memOk);
      var (t, r) := Store(u, p, verb, blocked, memOk);
      HolderFacts(t, p);
      ChunkFacts(t, p);
      QuietRelease(t, p);
      QuietRefines(t, Release(t, p), AfterStore(j, i.pending[p], verb, r));
      AllowedStoreSame(i, j, i.pending[p], verb, r);
    } else {
      QuietRelease(u, p);
      QuietRefines(u, Release(u, p), j);
    }
  }

  lemma AllowedStoreSame(i: Ideal, j: Ideal, u: Pending, verb: Verb, r: Outcome)
    requires j == i.(pending := j.pending)
    ensures AllowedStore(j, u, verb, r) == AllowedStore(i, u, verb, r)
  {
  }

  lemma GetRefines(s: State, i: Ideal, k: Key)
    requires Inv(s) && Refines(s, i)
    ensures var (t, r) := GetStep(s, k); Allowed(i, GetKey(k), r) && Refines(t, After(i, GetKey(k), r))
  {
    hide Inv, Refines, Quiet, Get, Update;
    QuietGet(s, k);
    GetInv(s, k);
    var (t, found) := Get(s, k);
    QuietRefines(s, t, i);
    match found
    case None => GetMisses(s, k); LoseRefines(t, i, k);
    case Some(p) =>
      FoundFacts(s, k);
      FoundLive(s, i, k);
      QuietUpdate(t, p);
      QuietRefines(t, Update(t, p), i);
  }

  lemma TouchRefines(s: State, i: Ideal, k: Key, exptime: nat)
    requires Inv(s) && Refines(s, i)
    ensures var (t, r) := TouchStep(s, k, exptime); var c := TouchKey(k, exptime);
      Allowed(i, c, r) && Refines(t, After(i, c, r))
  {
    hide Inv, Refines, Quiet, Get, Release, Update;
    QuietGet(s, k);
    GetInv(s, k);
    var (t, found) := Get(s, k);
    QuietRefines(s, t, i);
    match found
    case None => GetMisses(s, k); LoseRefines(t, i, k);
    case Some(p) =>
      FoundFacts(s, k);
      FoundLive(s, i, k);
      ExptimeInv(t, p, exptime);
      var u := t.(items := t.items[p := t.items[p].(exptime := exptime)]);
      Touched(t, i, k, p, exptime);
      UpdateInv(u, p);
      QuietUpdate(u, p);
      QuietRelease(Update(u, p), p);
      QuietTrans(u, Update(u, p), Release(Update(u, p), p));
      QuietRefines(u, Release(Update(u, p), p), i.(entries := i.entries[k := i.entries[k].(exptime := exptime)]));
  }

  lemma Touched(s: State, i: Ideal, k: Key, p: Chunk, exptime: nat)
    requires Inv(s) && Refines(s, i) && p in s.items && s.items[p].linked && s.items[p].key == k
    requires k in i.entries && i.entries[k] == EntryOf(s, p)
    ensures Refines(s.(items := s.items[p := s.items[p].(exptime := exptime)]),
                    i.(entries := i.entries[k := i.entries[k].(exptime := exptime)]))
  {
    hide Inv;
    IndexFacts(s);
    ChunkFacts(s, p);
    var t := s.(items := s.items[p := s.items[p].(exptime := exptime)]);
    var i' := i.(entries := i.entries[k := i.entries[k].(exptime := exptime)]);
    forall j ensures KeyMatches(t, i', j) { assert KeyMatches(s, i, j); }
  }

  lemma DeltaRefines(s: State, i: Ideal, c: Command)
    requires Inv(s) && Refines(s, i) && c.Delta?
    ensures var (t, r) := AddDelta(s, c.key, c.incr, c.delta, c.cas, c.behind, c.blocked, c.memOk);
      Allowed(i, c, Counted(r)) && Refines(t, After(i, c, Counted(r)))
  {
    hide Inv, Refines, Quiet, Get, Release, Exchange, Restamp;
    var k := c.key;
    QuietGet(s, k);
    GetInv(s, k);
    var (t, found) := Get(s, k);
    QuietRefines(s, t, i);
    match found
    case None => GetMisses(s, k); LoseRefines(t, i, k);
    case Some(p) =>
      FoundFacts(s, k);
      FoundLive(s, i, k);
      QuietRelease(t, p);
      QuietRefines(t, Release(t, p), i);
      if (c.cas == 0 || CasOf(t, p) == c.cas) && D.Parsed(t.items[p].data, c.behind).Some? {
        DeltaExchange(t, i, c, p);
      }
  }

  lemma QuietRestamp(s: State, p: Chunk, cas: nat)
    requires Inv(s) && p in s.items && !s.items[p].linked && p !in s.uploads
    ensures Quiet(s, Restamp(s, p, cas))
  {
    hide Inv;
    IndexFacts(s);
  }

  /** The numeric case: the old text is parsed, the new one replaces it. */
  lemma DeltaExchange(s: State, i: Ideal, c: Command, p: Chunk)
    requires Inv(s) && Refines(s, i) && c.Delta?
    requires p in s.items && s.items[p].linked && p in s.holders && s.items[p].key == c.key
    requires Live(i, c.key) && i.entries[c.key] == EntryOf(s, p) && D.Parsed(s.items[p].data, c.behind).Some?
    requires c.cas == 0 || CasOf(s, p) == c.cas
    ensures var it := s.items[p];
      var text := D.Digits(Applied(c.incr, D.Parsed(it.data, c.behind).value, c.delta));
      var (t, r) := Exchange(s, p, c.key, it.flags, it.exptime, text + "\r\n", c.blocked, c.memOk);
      if r.Stored? then
        && p in t.items
        && Allowed(i, c, Counted(DeltaOk(text, r.cas)))
        && Refines(Restamp(t, p, r.cas), After(i, c, Counted(DeltaOk(text, r.cas))))
      else Allowed(i, c, Counted(OutOfMemory)) && Refines(t, After(i, c, Counted(OutOfMemory)))
  {
    hide Inv, Refines, Exchange, Restamp, Quiet;
    var it := s.items[p];
    var text := D.Digits(Applied(c.incr, D.Parsed(it.data, c.behind).value, c.delta));
    HolderFacts(s, p);
    ExchangeRefines(s, i, p, text + "\r\n", c.blocked, c.memOk);
    ExchangeInv(s, p, c.key, it.flags, it.exptime, text + "\r\n", c.blocked, c.memOk);
    var (t, r) := Exchange(s, p, c.key, it.flags, it.exptime, text + "\r\n", c.blocked, c.memOk);
    if r.Stored? {
      ExchangeOld(s, p, c.key, it.flags, it.exptime, text + "\r\n", c.blocked, c.memOk);
      QuietRestamp(t, p, r.cas);
      QuietRefines(t, Restamp(t, p, r.cas), After(i, c, Counted(DeltaOk(text, r.cas))));
    }
  }

  lemma FlushRefines(s: State, i: Ideal)
    requires Inv(s) && Refines(s, i)
    ensures Refines(FlushAll(s), i.(entries := map[]))
  {
    hide Inv, FlushAll;
    FlushAllInv(s);
    IndexFacts(FlushAll(s));
  }

  lemma TickRefines(s: State, i: Ideal, now: nat)
    requires Inv(s) && Refines(s, i) && now >= s.now
    ensures Refines(s.(now := now), i.(now := now))
  {
    hide Inv;
    forall k ensures KeyMatches(s.(now := now), i.(now := now), k) { assert KeyMatches(s, i, k); }
  }

  // ----- the page mover

  lemma QuietMover(s: State, rebal: Rebalance)
    requires Inv(s)
    ensures Quiet(s, s.(rebal := rebal))
  {
    hide Inv;
    IndexFacts(s);
  }

  lemma QuietMark(s: State, p: Chunk)
    requires Inv(s) && Has(s, p)
    ensures Quiet(s, Mark(s, p)) && (s.items[p].linked ==> Quiet(s, Mark(Detach(s, p), p)))
  {
    hide Inv;
    IndexFacts(s);
  }


  lemma QuietCursor(s: State, t: State, rebal: Rebalance)
    requires Quiet(s, t)
    ensures Quiet(s, t.(rebal := rebal))
  {
    forall k ensures KeyKept(s, t.(rebal := rebal), k) { assert KeyKept(s, t, k); }
  }

  lemma QuietMove(s: State, blocked: set<Key>)
    requires Inv(s) && s.rebal.signal == 2 && !s.rebal.done
    ensures Quiet(s, MoveStep(s, blocked))
  {
    hide Inv, Quiet, Mark, Detach;
    MoveChunkInv(s, blocked);
    var p := At(s.rebal.page, s.rebal.pos);
    var r := MoveChunk(s, blocked).rebal;
    QuietRefl(s);
    QuietMark(s, p);
    QuietCursor(s, s, r);
    QuietCursor(s, Mark(s, p), r);
    if s.items[p].linked { QuietCursor(s, Mark(Detach(s, p), p), r); }
  }

  lemma QuietEnd(s: State)
    requires Inv(s) && s.rebal.signal == 2 && s.rebal.done
    ensures Quiet(s, EndStep(s))
  {
    hide Inv;
    FinishMoveInv(s);
    IndexFacts(s);
    forall p | p in s.items && (p in s.uploads || s.items[p].linked) ensures p.page != s.rebal.page {
      if p.page == s.rebal.page { DrainedPageIdle(s, p); }
    }
  }

  /** One step: the reply is one the lossy map allows, and the map keeps up. */
  lemma StepRefines(s: State, i: Ideal, c: Command)
    requires Inv(s) && Enabled(s, c) && Refines(s, i)
    ensures var (t, r) := Step(s, c); Allowed(i, c, r) && Refines(t, After(i, c, r))
  {
    hide Inv, Refines, Quiet, BeginStep, FillStep, CompleteStep, GetStep, TouchStep, Delete, AddDelta, FlushAll,
         AskStep, StartMove, MoveStep, EndStep, AbortStep, DoneStep, AllowedStore, AfterStore, AllowedDelta;
    match c
    case Begin(_, _, _, _, _, _, _, _) => BeginRefines(s, i, c);
    case Fill(p, bytes) => RefinesFacts(s, i); FillRefines(s, i, p, bytes);
    case Complete(p, verb, blocked, memOk) => CompleteRefines(s, i, p, verb, blocked, memOk);
    case Abort(p) => AbortRefines(s, i, p);
    case GetKey(k) => GetRefines(s, i, k);
    case Done(p) => DoneRefines(s, i, p);
    case DeleteKey(k) => DeleteRefines(s, i, k);
    case TouchKey(k, exptime) => TouchRefines(s, i, k, exptime);
    case Delta(_, _, _, _, _, _, _) => DeltaRefines(s, i, c);
    case Flush => FlushRefines(s, i);
    case Tick(now) => TickRefines(s, i, now);
    case AskMove(src, dst) => AskRefines(s, i, src, dst);
    case BeginMove => StartRefines(s, i);
    case MoveOne(blocked) => QuietMove(s, blocked); QuietRefines(s, MoveStep(s, blocked), i);
    case EndMove => QuietEnd(s); QuietRefines(s, EndStep(s), i);
  }

  lemma AbortRefines(s: State, i: Ideal, p: Chunk)
    requires Inv(s) && Refines(s, i) && p in s.uploads
    ensures Refines(AbortStep(s, p), i.(pending := i.pending - {p}))
  {
    hide Inv, Refines, Quiet, Release;
    UploadFacts(s, p);
    FewerUploads(s, p);
    UploadEnded(s, i, p);
    var u := s.(uploads := s.uploads - {p});
    ChunkFacts(u, p);
    QuietRelease(u, p);
    QuietRefines(u, Release(u, p), i.(pending := i.pending - {p}));
  }

  lemma DoneRefines(s: State, i: Ideal, p: Chunk)
    requires Inv(s) && Refines(s, i) && p in s.holders
    ensures Refines(DoneStep(s, p), i)
  {
    hide Inv, Refines, Quiet, Release;
    HolderFacts(s, p);
    ChunkFacts(s, p);
    QuietRelease(s, p);
    QuietRefines(s, Release(s, p), i);
  }

  lemma DeleteRefines(s: State, i: Ideal, k: Key)
    requires Inv(s) && Refines(s, i)
    ensures var (t, found) := Delete(s, k);
      Refines(t, Lose(i, k)) && (found ==> Live(i, k))
  {
    hide Inv, Refines, Quiet, Get, Unlink, Release;
    QuietDelete(s, k);
    QuietRefines(s, Delete(s, k).0, i);
    LoseRefines(Delete(s, k).0, i, k);
    if Get(s, k).1.Some? { FoundLive(s, i, k); }
  }

  lemma AskRefines(s: State, i: Ideal, src: int, dst: int)
    requires Inv(s) && Refines(s, i)
    ensures Refines(AskStep(s, src, dst), i)
  {
    hide Inv, Refines, Quiet;
    QuietMover(s, AskStep(s, src, dst).rebal);
    QuietRefines(s, AskStep(s, src, dst), i);
  }

  lemma StartRefines(s: State, i: Ideal)
    requires Inv(s) && Refines(s, i)
    ensures Refines(StartMove(s), i)
  {
    hide Inv, Refines, Quiet;
    QuietMover(s, StartMove(s).rebal);
    QuietRefines(s, StartMove(s), i);
  }
}
