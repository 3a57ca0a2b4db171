/** The commands of memcached.c and the steps of the background threads, carried out on the
    cache engine; and the whole server, command by command. */
module Server {
  import opened Seqs
  import opened CacheState
  import opened CacheInvariant
  import opened CacheProofs
  import opened CacheOps
  import opened Commands
  import opened Runs
  import opened LossyMap
  import opened Refinement
  import Engine = Cache
  import Steps = CacheSteps
  import H = HashTable
  import L = ItemLists

  class Server {
    const cache: Engine.Cache

    constructor (cache: Engine.Cache)
      ensures this.cache == cache
    {
      this.cache := cache;
    }

    ghost predicate Valid()
      reads cache, cache.Repr()
    {
      cache.Valid()
    }

    ghost function View(): State
      reads cache, cache.table, cache.lists
    {
      cache.View()
    }

    /** process_update_command: allocate the item the body will be read into. */
    method ProcessUpdate(c: Command) returns (r: Reply)
      requires Valid() && c.Begin? && |c.junk| >= 2 && RepairIdle(View(), c.key, c.flags, |c.junk|, c.blocked)
      modifies cache.Repr()
      ensures cache.Repr() == old(cache.Repr())
      ensures Valid() && (View(), r) == BeginStep(old(View()), c)
    {
      hide Inv, H.HashTable.Valid, L.ItemLists.Valid, ItemAlloc, RepairIdle, BeginStep;
      ghost var s := View();
      Beginning(s, c);
      var it := cache.DoItemAlloc(c.key, c.flags, c.exptime, c.junk, c.blocked, c.memOk);
      if it.None? {
        if c.verb == Set { var _ := ProcessDelete(c.key); }
        r := NoRoom;
      } else {
        if cache.cfg.useCas { cache.SetItem(it.value, cache.items[it.value].(cas := c.cas)); }
        cache.uploads := cache.uploads + {it.value};
        r := Uploading(it.value);
        Steps.Same(View(), BeginStep(s, c).0);
      }
    }

    /** item_get, item_unlink, item_remove. */
    method ProcessDelete(key: Key) returns (found: bool)
      requires Valid()
      modifies cache.Repr()
      ensures cache.Repr() == old(cache.Repr())
      ensures Valid() && (View(), found) == Delete(old(View()), key)
    {
      hide Inv, H.HashTable.Valid, L.ItemLists.Valid, Get, Unlink, Release;
      ghost var s := View();
      var it := cache.DoItemGet(key, cache.table.hash(key));
      if it.None? { return false; }
      FoundFacts(s, key);
      cache.Nuke(it.value, cache.table.hash(key));
      found := true;
    }

    method Fill(p: Chunk, bytes: string)
      requires Valid() && p in cache.uploads && p in cache.items && |bytes| == |cache.items[p].data|
      modifies cache.Repr()
      ensures cache.Repr() == old(cache.Repr())
      ensures Valid() && View() == FillStep(old(View()), p, bytes)
    {
      hide Inv, H.HashTable.Valid, L.ItemLists.Valid;
      FillInv(View(), p, bytes);
      cache.SetItem(p, cache.items[p].(data := bytes));
    }

    /** complete_nread_ascii. */
    method CompleteNread(p: Chunk, comm: Verb, blocked: set<Key>, memOk: bool) returns (r: Reply)
      requires Valid() && Enabled(View(), Complete(p, comm, blocked, memOk))
      modifies cache.Repr()
      ensures cache.Repr() == old(cache.Repr())
      ensures Valid() && (View(), r) == CompleteStep(old(View()), p, comm, blocked, memOk)
    {
      hide Inv, H.HashTable.Valid, L.ItemLists.Valid, Store, Release, JoinIdle, StoreIdle, CompleteStep;
      ghost var s := View();
      Completing(s, p, comm, blocked, memOk);
      cache.uploads := cache.uploads - {p};
      if !EndsLine(cache.items[p].data) {
        r := BadChunk;
      } else {
        var ret := cache.DoStoreItem(p, comm, cache.table.hash(cache.items[p].key), blocked, memOk);
        r := Finished(ret);
      }
      cache.DoItemRemove(p);
    }

    /** The connection goes away in the middle of an upload. */
    method ConnClose(p: Chunk)
      requires Valid() && p in cache.uploads
      modifies cache.Repr()
      ensures cache.Repr() == old(cache.Repr())
      ensures Valid() && View() == AbortStep(old(View()), p)
    {
      hide Inv, H.HashTable.Valid, L.ItemLists.Valid, Release;
      UploadFacts(View(), p);
      FewerUploads(View(), p);
      cache.uploads := cache.uploads - {p};
      cache.DoItemRemove(p);
    }

    /** One key of process_get_command; the item stays held until the reply has been sent. */
    method ProcessGet(key: Key) returns (r: Reply)
      requires Valid()
      modifies cache.Repr()
      ensures cache.Repr() == old(cache.Repr())
      ensures Valid() && (View(), r) == GetStep(old(View()), key)
    {
      hide Inv, H.HashTable.Valid, L.ItemLists.Valid, Get, Update;
      ghost var s := View();
      GetInv(s, key);
      var it := cache.DoItemGet(key, cache.table.hash(key));
      if it.None? { return Miss; }
      FoundFacts(s, key);
      var p := it.value;
      r := Hit(p, cache.items[p].flags, cache.items[p].data, cache.GetCas(p));
      cache.DoItemUpdate(p);
    }

    method ProcessTouch(key: Key, exptime: nat) returns (r: Reply)
      requires Valid()
      modifies cache.Repr()
      ensures cache.Repr() == old(cache.Repr())
      ensures Valid() && (View(), r) == TouchStep(old(View()), key, exptime)
    {
      hide Inv, H.HashTable.Valid, L.ItemLists.Valid, Get, Update, Release;
      ghost var s := View();
      GetInv(s, key);
      var it := cache.DoItemTouch(key, exptime, cache.table.hash(key));
      if it.None? { return Miss; }
      FoundFacts(s, key);
      AddFacts(View(), it.value);
      cache.DoItemUpdate(it.value);
      cache.DoItemRemove(it.value);
      r := Touched;
    }

    method ExecuteClient(c: Command) returns (r: Reply)
      requires Valid() && Enabled(View(), c) && IsClient(c)
      modifies cache.Repr()
      ensures cache.Repr() == old(cache.Repr())
      ensures Valid() && (View(), r) == ClientStep(old(View()), c)
    {
      hide Inv, H.HashTable.Valid, L.ItemLists.Valid, RepairIdle, StoreIdle, BeginStep, FillStep, CompleteStep,
           AbortStep, GetStep,
           DoneStep, Delete, TouchStep;
      r := Silent;
      match c {
        case Begin(_, _, _, _, _, _, _, _) => r := ProcessUpdate(c);
        case Fill(p, bytes) => Fill(p, bytes);
        case Complete(p, comm, blocked, memOk) => r := CompleteNread(p, comm, blocked, memOk);
        case Abort(p) => ConnClose(p);
        case GetKey(key) => r := ProcessGet(key);
        case Done(p) => DoneFacts(View(), p); cache.DoItemRemove(p);
        case DeleteKey(key) =>
          var found := ProcessDelete(key);
          r := if found then Deleted else Miss;
        case TouchKey(key, exptime) => r := ProcessTouch(key, exptime);
      }
    }

    method Execute(c: Command) returns (r: Reply)
      requires Valid() && Enabled(View(), c)
      modifies cache.Repr()
      ensures cache.Repr() == old(cache.Repr())
      ensures Valid() && (View(), r) == Step(old(View()), c)
    {
      hide Inv, H.HashTable.Valid, L.ItemLists.Valid, RepairIdle, StoreIdle, DeltaIdle, ClientStep, AddDelta, FlushAll,
           Reassign, StartMove,
           MoveStep, FinishMove;
      StepInv(View(), c);
      r := Silent;
      if IsClient(c) {
        r := ExecuteClient(c);
      } else {
        match c {
          case Delta(key, incr, delta, cas, behind, blocked, memOk) =>
            var result := cache.DoAddDelta(key, incr, delta, cas, behind, cache.table.hash(key), blocked, memOk);
            r := Counted(result);
          case Flush => cache.FlushEverything();
          case Tick(now) => cache.now := now;
          case AskMove(src, dst) => var _ := cache.DoSlabsReassign(src, dst);
          case BeginMove => cache.SlabRebalanceStart();
          case MoveOne(blocked) => MoveFacts(View(), blocked); var _ := cache.SlabRebalanceMove(1, blocked);
          case EndMove => cache.SlabRebalanceFinish();
        }
      }
    }

    /** A turn of the thread that maintains the hash table: it starts an expansion only when
        none is going on. */
    method MaintainTable(t: Turn)
      requires Valid() && !t.Run?
      modifies cache.Repr()
      ensures fresh(cache.Repr() - old(cache.Repr()))
      ensures Valid() && View() == old(View())
    {
      hide Inv, H.HashTable.Valid, L.ItemLists.Valid;
      match t {
        case Grow(ok) => if !cache.table.expanding { cache.AssocExpand(ok); }
        case Migrate(bulk) => cache.AssocMaintenance(bulk);
      }
    }

    /** Any run of commands and background steps, the hash table expanding and migrating in
        between whenever it likes, from a cache that holds nothing: every reply is one the
        lossy map allows. */
    method Serve(ts: seq<Turn>) returns (h: seq<Event>)
      requires Valid() && Runnable(View(), CommandsOf(ts)) && Refines(View(), Empty(cache.cfg, cache.now))
      modifies cache.Repr()
      ensures Valid() && |h| == |CommandsOf(ts)| && forall i :: 0 <= i < |h| ==> h[i].command == CommandsOf(ts)[i]
      ensures Conforms(Empty(cache.cfg, old(cache.now)), h)
    {
      hide Inv, H.HashTable.Valid, L.ItemLists.Valid, Enabled, Step, Refines, Allowed, After, Runnable;
      ghost var i := Empty(cache.cfg, cache.now);
      h := [];
      assert ts[0..] == ts;
      for n := 0 to |ts|
        invariant fresh(cache.Repr() - old(cache.Repr()))
        invariant Valid() && Issued(h) + CommandsOf(ts[n..]) == CommandsOf(ts)
        invariant Runnable(View(), CommandsOf(ts[n..]))
        invariant Refines(View(), MapAt(i, h, |h|)) && Conforms(i, h)
      {
        NextTurn(ts, n);
        if ts[n].Run? {
          var c := ts[n].command;
          RunnableHead(View(), CommandsOf(ts[n..]));
          StepInv(View(), c);
          StepRefines(View(), MapAt(i, h, |h|), c);
          var r := Execute(c);
          ConformsMore(i, h, Event(c, r));
          IssuedMore(h, Event(c, r), CommandsOf(ts[n + 1..]));
          h := h + [Event(c, r)];
        } else {
          MaintainTable(ts[n]);
        }
      }
      assert ts[|ts|..] == [];
      IssuedIs(h);
    }
  }

  /** A command or background step of the cache, or the hash table's thread at work: it asks
      for a bigger table, or moves some buckets. */
  datatype Turn = Run(command: Command) | Grow(ok: bool) | Migrate(bulk: int)

  function CommandsOf(ts: seq<Turn>): seq<Command> {
    if ts == [] then [] else (if ts[0].Run? then [ts[0].command] else []) + CommandsOf(ts[1..])
  }

  function Issued(h: seq<Event>): seq<Command> {
    if h == [] then [] else Issued(h[..|h| - 1]) + [h[|h| - 1].command]
  }

  lemma NextTurn(ts: seq<Turn>, n: nat)
    requires n < |ts|
    ensures CommandsOf(ts[n..]) == (if ts[n].Run? then [ts[n].command] else []) + CommandsOf(ts[n + 1..])
    ensures ts[n].Run? ==> CommandsOf(ts[n..]) != [] && CommandsOf(ts[n..])[1..] == CommandsOf(ts[n + 1..])
    ensures !ts[n].Run? ==> CommandsOf(ts[n..]) == CommandsOf(ts[n + 1..])
  {
    assert ts[n..][1..] == ts[n + 1..];
  }

  lemma IssuedMore(h: seq<Event>, e: Event, rest: seq<Command>)
    ensures Issued(h + [e]) + rest == Issued(h) + ([e.command] + rest)
  {
    assert (h + [e])[..|h|] == h;
  }

  lemma {:induction false} IssuedIs(h: seq<Event>)
    ensures |Issued(h)| == |h| && forall i :: 0 <= i < |h| ==> h[i].command == Issued(h)[i]
  {
    if h != [] { IssuedIs(h[..|h| - 1]); }
  }

  /** Every command of cs is one its callers may issue when its turn comes. */
  ghost predicate Runnable(s: State, cs: seq<Command>)
    requires Inv(s)
    decreases |cs|
  {
    cs != [] ==> Enabled(s, cs[0]) && (StepInv(s, cs[0]); Runnable(Step(s, cs[0]).0, cs[1..]))
  }

  lemma RunnableHead(s: State, cs: seq<Command>)
    requires Inv(s) && cs != [] && Runnable(s, cs)
    ensures Enabled(s, cs[0]) && Inv(Step(s, cs[0]).0) && Runnable(Step(s, cs[0]).0, cs[1..])
  {
    hide Inv, Enabled, Step;
    StepInv(s, cs[0]);
  }

  lemma {:induction false} MapAtPrefix(i: Ideal, h: seq<Event>, e: Event, n: nat)
    requires n <= |h|
    ensures MapAt(i, h + [e], n) == MapAt(i, h, n)
  {
    hide After;
    if n > 0 { MapAtPrefix(i, h, e, n - 1); }
  }

  lemma ConformsMore(i: Ideal, h: seq<Event>, e: Event)
    requires Conforms(i, h) && Allowed(MapAt(i, h, |h|), e.command, e.reply)
    ensures Conforms(i, h + [e])
    ensures MapAt(i, h + [e], |h| + 1) == After(MapAt(i, h, |h|), e.command, e.reply)
  {
    hide Allowed, After;
    forall n | 0 <= n <= |h| ensures MapAt(i, h + [e], n) == MapAt(i, h, n) { MapAtPrefix(i, h, e, n); }
  }

  /** What process_update_command needs to know and comes to. */
  lemma Beginning(s: State, c: Command)
    requires Inv(s) && c.Begin? && |c.junk| >= 2
    ensures Inv(BeginStep(s, c).0)
    ensures var (t, n) := ItemAlloc(s, c.key, c.flags, c.exptime, c.junk, c.blocked, c.memOk);
      && Inv(t) && t.uploads == s.uploads && t.cfg == s.cfg
      && match n
         case None => BeginStep(s, c) == (if c.verb == Set then Delete(t, c.key).0 else t, NoRoom)
         case Some(p) =>
           && p in t.items && (forall k :: k in t.index ==> t.index[k] != p)
           && var it := t.items[p].(cas := if s.cfg.useCas then c.cas else t.items[p].cas);
             BeginStep(s, c) == (t.(items := t.items[p := it], uploads := s.uploads + {p}), Uploading(p))
  {
    hide Inv, ItemAlloc, Delete;
    BeginInv(s, c);
    ItemAllocInv(s, c.key, c.flags, c.exptime, c.junk, c.blocked, c.memOk);
    var (t, n) := ItemAlloc(s, c.key, c.flags, c.exptime, c.junk, c.blocked, c.memOk);
    if n.Some? {
      forall k | k in t.index ensures t.index[k] != n.value { Steps.IndexFacts(t, k); }
    }
  }

  /** What complete_nread_ascii needs to know and comes to. */
  lemma Completing(s: State, p: Chunk, verb: Verb, blocked: set<Key>, memOk: bool)
    requires Inv(s) && Enabled(s, Complete(p, verb, blocked, memOk))
    ensures var u := s.(uploads := s.uploads - {p});
      && Inv(u) && p in u.items && !u.items[p].linked && p in u.holders
      && Inv(CompleteStep(s, p, verb, blocked, memOk).0)
      && if !EndsLine(s.items[p].data) then
          Has(u, p) && CompleteStep(s, p, verb, blocked, memOk) == (Release(u, p), BadChunk)
        else
          && (Concatenates(verb) ==> JoinIdle(u, p, blocked))
          && var (t, r) := Store(u, p, verb, blocked, memOk);
            && Inv(t) && p in t.holders && t.uploads == u.uploads && Has(t, p)
            && CompleteStep(s, p, verb, blocked, memOk) == (Release(t, p), Finished(r))
  {
    hide Inv, Store, Release, JoinIdle;
    UploadFacts(s, p);
    FewerUploads(s, p);
    CompleteInv(s, p, verb, blocked, memOk);
    var u := s.(uploads := s.uploads - {p});
    ChunkFacts(u, p);
    if EndsLine(s.items[p].data) {
      StoreInv(u, p, verb, blocked, memOk);
      var t := Store(u, p, verb, blocked, memOk).0;
      HolderFacts(t, p);
      ChunkFacts(t, p);
    }
  }

  lemma AddFacts(s: State, o: Chunk)
    requires Inv(s) && o in s.holders && o in s.items
    ensures Has(s, o) && Inv(Update(s, o)) && o in Update(s, o).holders && Update(s, o).uploads == s.uploads
  {
    Steps.AddFacts(s, o);
  }

  lemma DoneFacts(s: State, p: Chunk)
    requires Inv(s) && p in s.holders
    ensures Has(s, p) && DoneStep(s, p) == Release(s, p)
  {
    hide Inv;
    HolderFacts(s, p);
    ChunkFacts(s, p);
  }

  lemma MoveFacts(s: State, blocked: set<Key>)
    requires Inv(s) && s.rebal.signal == 2 && !s.rebal.done
    ensures MoveStep(s, blocked) == Steps.MoveChunks(s, blocked, 1)
  {
    hide Inv, MoveChunk;
  }
}
