/** The tail repair of do_item_alloc (items.c): when it fires, what it does, and a run that
    gets there.  The steps of module Commands leave it out, by the guard of its branch. */
module TailRepair {
  import opened Seqs
  import opened SlabClasses
  import opened CacheState
  import opened CacheInvariant
  import opened CacheProofs
  import opened CacheOps
  import opened Commands
  import opened Runs
  import D = Decimal
  import G = Guarantees

  // ----- the walk as it is written

  /** How the walk ends.  A repaired item is on the free list and has lost its link to the
      one before it, so the walk is over. */
  datatype Walked = Settled(p: Chunk) | Exhausted | Repaired(p: Chunk)

  function Walk(s: State, q: seq<Chunk>, tries: nat, blocked: set<Key>): Walked
    requires forall p :: p in q ==> p in s.items
  {
    if tries == 0 || q == [] then Exhausted else
      var p := q[|q| - 1];
      if s.items[p].key in blocked then Walk(s, q[..|q| - 1], tries - 1, blocked)
      else if s.items[p].refcount + 1 == 2 then Settled(p)
      else if s.items[p].time + TAIL_REPAIR_TIME < s.now then Repaired(p)
      else Walk(s, q[..|q| - 1], tries - 1, blocked)
  }

  /** The repair fires if and only if one of the items the walk looks at is overdue. */
  lemma {:induction false} RepairFires(s: State, q: seq<Chunk>, tries: nat, blocked: set<Key>)
    requires forall p :: p in q ==> p in s.items
    ensures var w := Walk(s, q, tries, blocked);
      && (w.Repaired? <==> !NoneOverdue(s, q, tries, blocked))
      && (w.Repaired? ==> w.p in q && Overdue(s, w.p, blocked))
      && (!w.Repaired? ==> Victim(s, q, tries, blocked) == if w.Settled? then Some(w.p) else None)
  {
    hide NoneOverdue;
    if tries == 0 || q == [] {
      NoneLeft(s, q, tries, blocked);
    } else {
      NoneOverdueStep(s, q, tries, blocked);
      RepairFires(s, q[..|q| - 1], tries - 1, blocked);
    }
  }

  lemma NoneLeft(s: State, q: seq<Chunk>, tries: nat, blocked: set<Key>)
    requires tries == 0 || q == []
    requires forall p :: p in q ==> p in s.items
    ensures NoneOverdue(s, q, tries, blocked)
  {
  }

  /** The walk do_item_alloc makes for an item. */
  function WalkFor(s: State, key: Key, flags: int, nbytes: nat, blocked: set<Key>): Walked
    requires Inv(s)
  {
    var c := ClsId(s.cfg.classes, NTotal(s.cfg, key, flags, nbytes));
    if c == 0 then Exhausted else LruFacts(s, c); Walk(s, s.lru[c], SEARCH_TRIES, blocked)
  }

  /** The guard of module Commands is exact, and what is repaired is in use. */
  lemma RepairIff(s: State, key: Key, flags: int, nbytes: nat, blocked: set<Key>)
    requires Inv(s)
    ensures var w := WalkFor(s, key, flags, nbytes, blocked);
      && (w.Repaired? <==> !RepairIdle(s, key, flags, nbytes, blocked))
      && (w.Repaired? ==> Has(s, w.p) && s.items[w.p].linked && w.p in s.holders && Overdue(s, w.p, blocked))
  {
    hide Inv, Walk, NoneOverdue, NTotal;
    var c := ClsId(s.cfg.classes, NTotal(s.cfg, key, flags, nbytes));
    if c != 0 {
      LruFacts(s, c);
      RepairFires(s, s.lru[c], SEARCH_TRIES, blocked);
      var w := WalkFor(s, key, flags, nbytes, blocked);
      if w.Repaired? { ChunkFacts(s, w.p); }
    }
  }

  // ----- what the repair does

  /** The count is forced to one and the item unlinked. */
  function Repair(s: State, p: Chunk): State
    requires Has(s, p)
  {
    Unlink(s.(items := s.items[p := s.items[p].(refcount := 1)]), p)
  }

  /** The repair keeps the invariant if and only if nobody holds the item, that is, if and
      only if there is nothing to repair. */
  lemma RepairKeepsInv(s: State, p: Chunk)
    requires Inv(s) && p in s.items && s.items[p].linked
    ensures Has(s, p) && (Inv(Repair(s, p)) <==> p !in s.holders)
  {
    hide Memory, Pages, Lists, Uploads, Queued, Freed, Index, Ordered, Clock, CasIds, Mover, Counters;
    ChunkFacts(s, p);
    if p in s.holders {
      var t := Repair(s, p);
      assert t.holders[p] >= 1 && t.items[p].refcount == 0;
      assert !Accounts(t.items, t.holders, t.owner) by {
        assert p in t.items && !Accounted(t.items[p], t.holders[p], t.owner[p.page]);
      }
    } else {
      assert s.items[p].refcount == 1;
      assert s.(items := s.items[p := s.items[p].(refcount := 1)]) == s;
      UnlinkInv(s, p);
    }
  }

  lemma RepairFrees(s: State, p: Chunk)
    requires Has(s, p) && s.items[p].linked
    ensures var t := Repair(s, p); var c := ClassOf(s, p);
      && SameShape(s, t) && t.free == s.free[c := [p] + s.free[c]] && t.holders == s.holders
      && t.items[p] == s.items[p].(refcount := 0, clsid := 0, slabbed := true, linked := false)
      && t.index == s.index - {s.items[p].key}
  {
    assert s.holders + multiset{p} - multiset{p} == s.holders;
  }

  /** The chunk of a held item is handed out once more. */
  lemma ClaimHeld(s: State, p: Chunk, key: Key, flags: int, exptime: nat, data: string)
    requires Inv(s) && Has(s, p) && s.items[p].linked && p in s.holders
    ensures var c := ClassOf(s, p); var t := Repair(s, p);
      && c < |t.free| && t.free[c] != [] && t.free[c][0] == p && p in t.items
      && !Inv(Claim(t, c, key, flags, exptime, data))
  {
    hide Memory, Pages, Lists, Uploads, Queued, Freed, Index, Ordered, Clock, CasIds, Mover, Counters, Repair;
    ChunkFacts(s, p);
    RepairFrees(s, p);
    var t := Claim(Repair(s, p), ClassOf(s, p), key, flags, exptime, data);
    assert t.holders[p] >= 2 && t.items[p].refcount == 1 && !t.items[p].linked;
    assert !Accounts(t.items, t.holders, t.owner) by {
      assert p in t.items && !Accounted(t.items[p], t.holders[p], t.owner[p.page]);
    }
  }

  /** What slabs_alloc returns after the repair: the chunk that was put on the free list last. */
  function HandedOut(s: State, p: Chunk, key: Key, flags: int, exptime: nat, data: string): (State, Option<Chunk>)
    requires Inv(s) && Has(s, p) && s.items[p].linked && p in s.holders
  {
    ClaimHeld(s, p, key, flags, exptime, data);
    var (t, c) := (Repair(s, p), ClassOf(s, p));
    (Claim(t, c, key, flags, exptime, data), Some(t.free[c][0]))
  }

  /** do_item_alloc with the repair. */
  function AllocAsWritten(s: State, key: Key, flags: int, exptime: nat, data: string, blocked: set<Key>, memOk: bool)
    : (State, Option<Chunk>)
    requires Inv(s) && |data| >= 2
  {
    match WalkFor(s, key, flags, |data|, blocked)
    case Repaired(p) =>
      RepairIff(s, key, flags, |data|, blocked);
      HandedOut(s, p, key, flags, exptime, data)
    case _ => ItemAlloc(s, key, flags, exptime, data, blocked, memOk)
  }

  /** do_item_alloc keeps the invariant if and only if no item in its way is overdue.  Then
      it is the transition of module CacheOps; otherwise it hands out a chunk that somebody
      holds. */
  lemma AllocIff(s: State, key: Key, flags: int, exptime: nat, data: string, blocked: set<Key>, memOk: bool)
    requires Inv(s) && |data| >= 2
    ensures var (t, n) := AllocAsWritten(s, key, flags, exptime, data, blocked, memOk);
      && (Inv(t) <==> RepairIdle(s, key, flags, |data|, blocked))
      && (Inv(t) ==> (t, n) == ItemAlloc(s, key, flags, exptime, data, blocked, memOk))
      && (!Inv(t) ==> n.Some? && n.value in s.holders && n.value in s.items && s.items[n.value].linked)
  {
    hide Inv, ItemAlloc, WalkFor, RepairIdle, Overdue, Repair, Claim;
    ItemAllocInv(s, key, flags, exptime, data, blocked, memOk);
    RepairIff(s, key, flags, |data|, blocked);
    var w := WalkFor(s, key, flags, |data|, blocked);
    if w.Repaired? { ClaimHeld(s, w.p, key, flags, exptime, data); }
  }

  // ----- incr on an item that has been idle for three hours

  /** The rest of do_add_delta when do_item_alloc has returned the item it was to replace:
      do_item_replace, and the references of the new and of the old item. */
  function ReplaceByItself(u: State, p: Chunk): State
    requires Has(u, p)
  {
    Release(Release(Replace(u, p, p), p), p)
  }

  /** If the repair fires on the very item that incr or decr has looked up, the item ends up
      linked under its key and on the free list at once. */
  lemma RepairedDelta(s: State, p: Chunk, data: string, blocked: set<Key>, memOk: bool)
    requires Inv(s) && p in s.items && |data| >= 2
    requires WalkFor(s, s.items[p].key, s.items[p].flags, |data|, blocked) == Repaired(p)
    ensures var it := s.items[p];
      var (u, n) := AllocAsWritten(s, it.key, it.flags, it.exptime, data, blocked, memOk);
      && n == Some(p) && Has(u, p)
      && var v := ReplaceByItself(u, p);
        && it.key in v.index && v.index[it.key] == p && p in v.items && v.items[p].linked && v.items[p].slabbed
        && ClassOf(u, p) < |v.free| && p in v.free[ClassOf(u, p)]
  {
    hide Inv, WalkFor, RepairIdle, Overdue, Repair;
    var it := s.items[p];
    RepairIff(s, it.key, it.flags, |data|, blocked);
    ClaimHeld(s, p, it.key, it.flags, it.exptime, data);
    RepairFrees(s, p);
  }

  // ----- a run that gets there

  const ONE: string := "1\r\n"

  /** The cache is empty but for the body of k that is being read into p. */
  ghost predicate Pending(s: State, cfg: Config, p: Chunk, c: nat) {
    && s.cfg == cfg && s.oldestLive == 0 && s.rebal.signal == 0 && s.index == map[]
    && p in s.uploads && Has(s, p) && ClassOf(s, p) == c
    && var it := s.items[p]; it.key == "k" && it.flags == 0 && it.exptime == 0 && |it.data| == 3
  }

  /** The cache holds k with the value 1 and nothing else, and nobody is using it. */
  ghost predicate Holding(s: State, cfg: Config, p: Chunk, c: nat, time: nat) {
    && s.cfg == cfg && s.oldestLive == 0 && s.rebal.signal == 0 && s.index == map["k" := p]
    && Has(s, p) && ClassOf(s, p) == c
    && var it := s.items[p];
      it.key == "k" && it.flags == 0 && it.exptime == 0 && it.data == ONE && it.time == time && it.linked
  }

  lemma RunCons(s: State, e: Event, rest: seq<Event>)
    requires Inv(s) && Enabled(s, e.command) && e.reply == Step(s, e.command).1
    requires Inv(Step(s, e.command).0) && IsRun(Step(s, e.command).0, rest)
    ensures IsRun(s, [e] + rest) && G.StateAfter(s, [e] + rest) == G.StateAfter(Step(s, e.command).0, rest)
  {
    hide Inv, Enabled, Step;
    var h := [e] + rest;
    assert h[0] == e && h[1..] == rest;
  }

  lemma FirstBegin(cfg: Config, now: nat, c: Command) returns (p: Chunk)
    requires Geometry(cfg.classes, cfg.itemSizeMax) && now >= 2
    requires ClsId(cfg.classes, NTotal(cfg, "k", 0, 3)) != 0
    requires c == Begin("k", 0, 0, Set, 0, "...", {}, true)
    ensures Inv(Start(cfg, now)) && Enabled(Start(cfg, now), c)
    ensures var (t, r) := Step(Start(cfg, now), c);
      r == Uploading(p) && t.now == now && Pending(t, cfg, p, ClsId(cfg.classes, NTotal(cfg, "k", 0, 3)))
  {
    hide Inv, NTotal;
    var s := Start(cfg, now);
    StartInv(cfg, now);
    var id := ClsId(cfg.classes, NTotal(cfg, "k", 0, 3));
    ChunksFit(cfg.classes, cfg.itemSizeMax, id);
    p := At(0, cfg.classes[id].perslab - 1);
  }

  lemma ThenFill(s: State, cfg: Config, p: Chunk, id: nat)
    requires Inv(s) && Pending(s, cfg, p, id)
    ensures Enabled(s, Fill(p, ONE))
    ensures var (t, r) := Step(s, Fill(p, ONE));
      r == Silent && t.now == s.now && Pending(t, cfg, p, id) && t.items[p].data == ONE
  {
    hide Inv;
  }

  lemma ThenComplete(s: State, cfg: Config, p: Chunk, id: nat)
    requires Inv(s) && Pending(s, cfg, p, id) && s.items[p].data == ONE
    ensures Enabled(s, Complete(p, Set, {}, true))
    ensures var (t, r) := Step(s, Complete(p, Set, {}, true));
      r.Finished? && r.outcome.Stored? && t.now == s.now && Holding(t, cfg, p, id, s.now)
  {
    hide Inv;
    UploadFacts(s, p);
    FewerUploads(s, p);
  }

  /** The item under k is the only one in its queue. */
  lemma OnlyOne(s: State, cfg: Config, p: Chunk, id: nat, time: nat)
    requires Inv(s) && Holding(s, cfg, p, id, time)
    ensures id < |s.lru| && s.lru[id] == [p] && (p !in s.holders ==> s.items[p].refcount == 1)
  {
    hide Memory, Pages, Uploads, Freed, Ordered, Clock, CasIds, Mover, Counters;
    var q := s.lru[id];
    assert forall x :: x in q ==> x == p;
    assert p in q;
    assert q[0] == p && q[|q| - 1] == p;
  }

  lemma ThenLookUp(s: State, cfg: Config, p: Chunk, id: nat, time: nat)
    requires Inv(s) && Holding(s, cfg, p, id, time)
    ensures Get(s, "k").1 == Some(p) && Inv(Get(s, "k").0)
    ensures var t := Get(s, "k").0; Holding(t, cfg, p, id, time) && t.now == s.now && t.items[p].refcount >= 2
  {
    hide Inv;
    GetInv(s, "k");
    FoundFacts(s, "k");
  }

  lemma OneMore()
    ensures D.Parsed(ONE, "") == Some(1) && |D.Digits(Applied(true, 1, 1))| == 1
  {
    hide D.CString, D.SafeStrtoull;
    assert ONE + "" == ONE && D.Digits(1) + "\r\n" == ONE;
    D.NoNul(ONE);
    D.PrintThenParse(1, "\r\n");
  }

  /** set k, more than three hours of nothing, incr k: the item incr looks up is the one the
      tail repair fires on, whatever the configuration, as long as it has a class for k. */
  lemma IdleIncr(cfg: Config, now: nat) returns (h: seq<Event>, s: State, p: Chunk)
    requires Geometry(cfg.classes, cfg.itemSizeMax) && now >= 2
    requires ClsId(cfg.classes, NTotal(cfg, "k", 0, 3)) != 0
    ensures Inv(Start(cfg, now)) && IsRun(Start(cfg, now), h) && s == G.StateAfter(Start(cfg, now), h)
    ensures |h| == 4 && h[0].command.Begin? && h[1].command.Fill? && h[2].command.Complete?
    ensures h[3].command == Tick(now + TAIL_REPAIR_TIME + 1)
    ensures !Enabled(s, Delta("k", true, 1, 0, "", {}, true))
    ensures Get(s, "k").1 == Some(p)
    ensures var t := Get(s, "k").0;
      Inv(t) && p in t.items && t.items[p].key == "k" && WalkFor(t, "k", t.items[p].flags, 3, {}) == Repaired(p)
  {
    hide Inv, Step, Enabled, Pending, Holding, WalkFor, NTotal, ClsId, Get, IsRun, G.StateAfter;
    var id := ClsId(cfg.classes, NTotal(cfg, "k", 0, 3));
    var s0 := Start(cfg, now);
    var c0 := Begin("k", 0, 0, Set, 0, "...", {}, true);
    p := FirstBegin(cfg, now, c0);
    StepInv(s0, c0);
    var s1 := Step(s0, c0).0;
    ThenFill(s1, cfg, p, id);
    StepInv(s1, Fill(p, ONE));
    var s2 := Step(s1, Fill(p, ONE)).0;
    var c2 := Complete(p, Set, {}, true);
    ThenComplete(s2, cfg, p, id);
    StepInv(s2, c2);
    var s3 := Step(s2, c2).0;
    var later := now + TAIL_REPAIR_TIME + 1;
    ThenTick(s3, cfg, p, id, now, later);
    StepInv(s3, Tick(later));
    s := Step(s3, Tick(later)).0;
    h := FourSteps(s0, c0, s1, Fill(p, ONE), s2, c2, s3, Tick(later), s);
    IncrRepairs(s, cfg, p, now);
  }

  lemma ThenTick(s: State, cfg: Config, p: Chunk, id: nat, time: nat, later: nat)
    requires Inv(s) && Holding(s, cfg, p, id, time) && s.now <= later
    ensures Enabled(s, Tick(later))
    ensures Holding(Step(s, Tick(later)).0, cfg, p, id, time) && Step(s, Tick(later)).0.now == later
  {
    hide Inv;
  }

  lemma FourSteps(s0: State, c0: Command, s1: State, c1: Command, s2: State, c2: Command, s3: State, c3: Command,
                  s4: State) returns (h: seq<Event>)
    requires Inv(s0) && Enabled(s0, c0) && Step(s0, c0).0 == s1 && Inv(s1) && Enabled(s1, c1) && Step(s1, c1).0 == s2
    requires Inv(s2) && Enabled(s2, c2) && Step(s2, c2).0 == s3 && Inv(s3) && Enabled(s3, c3) && Step(s3, c3).0 == s4
    requires Inv(s4)
    ensures IsRun(s0, h) && G.StateAfter(s0, h) == s4
    ensures |h| == 4 && h[0].command == c0 && h[1].command == c1 && h[2].command == c2 && h[3].command == c3
  {
    hide Inv, Step, Enabled;
    var e0, e1 := Event(c0, Step(s0, c0).1), Event(c1, Step(s1, c1).1);
    var e2, e3 := Event(c2, Step(s2, c2).1), Event(c3, Step(s3, c3).1);
    assert IsRun(s4, []) && G.StateAfter(s4, []) == s4;
    RunCons(s3, e3, []);
    RunCons(s2, e2, [e3] + []);
    RunCons(s1, e1, [e2] + ([e3] + []));
    RunCons(s0, e0, [e1] + ([e2] + ([e3] + [])));
    h := [e0] + ([e1] + ([e2] + ([e3] + [])));
  }

  lemma IncrRepairs(s: State, cfg: Config, p: Chunk, time: nat)
    requires Inv(s) && ClsId(cfg.classes, NTotal(cfg, "k", 0, 3)) != 0
    requires Holding(s, cfg, p, ClsId(cfg.classes, NTotal(cfg, "k", 0, 3)), time) && time + TAIL_REPAIR_TIME < s.now
    ensures !Enabled(s, Delta("k", true, 1, 0, "", {}, true))
    ensures Get(s, "k").1 == Some(p)
    ensures var t := Get(s, "k").0;
      Inv(t) && p in t.items && t.items[p].key == "k" && WalkFor(t, "k", t.items[p].flags, 3, {}) == Repaired(p)
  {
    hide Inv, NTotal, Get, RepairIdle, NoneOverdue;
    var id := ClsId(cfg.classes, NTotal(cfg, "k", 0, 3));
    ThenLookUp(s, cfg, p, id, time);
    var t := Get(s, "k").0;
    OnlyOne(t, cfg, p, id, time);
    RepairIff(t, "k", 0, 3, {});
    OneMore();
    GetInv(s, "k");
    FoundFacts(s, "k");
  }
}
