/** The cache engine with its pointers: items.c and slabs.c as methods that change the
    table, the lists and the items in place, each proved against the state transition it
    stands for. */
module Cache {
  import opened Seqs
  import opened SlabClasses
  import opened CacheState
  import opened CacheInvariant
  import opened CacheProofs
  import opened CacheOps
  import opened CacheSteps
  import opened Links
  import Chains
  import H = HashTable
  import L = ItemLists
  import D = Decimal
  import R = Runs
  import C = Commands

  /** Class c cannot give a page to dst. */
  ghost predicate NoSource(slabs: seq<seq<nat>>, c: int, dst: int)
    requires 1 <= c < |slabs|
  {
    c == dst || |slabs[c]| <= 1
  }

  lemma ValidInv(c: Cache)
    requires c.Valid()
    ensures Inv(c.View())
  {
  }

  class Cache {
    const cfg: Config
    const table: H.HashTable
    const lists: L.ItemLists
    var items: map<Chunk, Item>
    var slabs: seq<seq<nat>>
    var nextPage: nat
    var malloced: nat
    var now: nat
    var oldestLive: nat
    var casId: nat
    var currItems: int
    var currBytes: int
    var rebal: Rebalance
    ghost var owner: map<nat, nat>
    ghost var holders: multiset<Chunk>
    ghost var uploads: set<Chunk>

    ghost function Repr(): set<object>
      reads this, table
    {
      {this, table, table.primary, table.previous,
       lists, lists.heads, lists.tails, lists.sizes, lists.slots, lists.slCurr}
    }

    /** The objects do not overlap and the pointers spell the lists and the chains. */
    ghost predicate Sound()
      reads this, table, table.primary, table.previous
      reads lists, lists.heads, lists.tails, lists.sizes, lists.slots, lists.slCurr
    {
      && table.primary != lists.heads && table.primary != lists.tails && table.primary != lists.slots
      && table.previous != lists.heads && table.previous != lists.tails && table.previous != lists.slots
      && table.Valid(items) && lists.Valid()
    }

    ghost function View(): State
      reads this, table, lists
    {
      State(cfg, items, table.index, lists.lru, lists.free, slabs, owner, nextPage, malloced, now, oldestLive,
            casId, currItems, currBytes, rebal, holders, uploads)
    }

    ghost predicate Valid()
      reads this, table, table.primary, table.previous
      reads lists, lists.heads, lists.tails, lists.sizes, lists.slots, lists.slCurr
    {
      Sound() && Inv(View())
    }

    /** slabs_init, assoc_init and item_init; the clock starts at 2. */
    constructor (cfg: Config, hash: Chains.Hash, hashpower: nat, now: nat)
      requires Geometry(cfg.classes, cfg.itemSizeMax) && now >= 2
      ensures Valid() && fresh(Repr())
      ensures View() == R.Start(cfg, now)
    {
      hide Inv, H.HashTable.Valid, L.ItemLists.Valid;
      this.cfg := cfg;
      table := new H.HashTable(hash, hashpower);
      lists := new L.ItemLists(|cfg.classes|);
      items := map[];
      slabs := seq(|cfg.classes|, i => []);
      nextPage, malloced, casId, currItems, currBytes := 0, 0, 0, 0, 0;
      this.now, oldestLive := now, 0;
      rebal := Rebalance(0, 0, 0, 0, 0, 0, false);
      owner, holders, uploads := map[], multiset{}, {};
      new;
      assert View() == R.Start(cfg, now);
      R.StartInv(cfg, now);
    }

    /** One write to the memory of an item.  It must not change the key of an item the
        table holds. */
    method SetItem(it: Chunk, v: Item)
      requires Sound() && it in items
      requires v.key == items[it].key || forall k :: k in table.index ==> table.index[k] != it
      modifies this`items
      ensures Sound() && items == old(items)[it := v]
    {
      hide H.HashTable.Valid, L.ItemLists.Valid;
      ghost var before := items;
      items := items[it := v];
      H.ValidKeys(table, before, items);
    }

    /** item_free with do_slabs_free. */
    method ItemFree(it: Chunk)
      requires Sound() && it in items && items[it].clsid < |lists.lru| && Absent(lists.lru + lists.free, it)
      modifies this`items, lists`next, lists`prev, lists`free, lists.slots, lists.slCurr
      ensures Sound()
      ensures items == old(items)[it := old(items)[it].(clsid := 0, slabbed := true)]
      ensures lists.free == old(lists.free)[old(items)[it].clsid := [it] + old(lists.free)[old(items)[it].clsid]]
    {
      hide H.HashTable.Valid, L.ItemLists.Valid, Absent;
      var clsid := items[it].clsid;
      SetItem(it, items[it].(clsid := 0));
      SetItem(it, items[it].(slabbed := true));
      lists.PushSlot(it, clsid);
    }

    method DoItemRemove(it: Chunk)
      requires Valid() && it in holders && it !in uploads
      modifies this`items, this`holders, lists`next, lists`prev, lists`free, lists.slots, lists.slCurr
      ensures Valid() && Has(old(View()), it) && View() == Release(old(View()), it)
    {
      hide Inv, H.HashTable.Valid, L.ItemLists.Valid, Absent, Release;
      ghost var s := View();
      Dropping(s, it);
      holders := holders - multiset{it};
      SetItem(it, items[it].(refcount := items[it].refcount - 1));
      if items[it].refcount == 0 { ItemFree(it); }
      assert items == s.items[it := Dropped(s.items[it])] && lists.free == FreeAfter(s, it);
      Same(View(), Release(s, it));
    }

    /** assoc_insert and item_link_q. */
    method Hook(it: Chunk, hv: nat)
      requires Sound() && it in items && items[it].clsid < |lists.lru| && Absent(lists.lru + lists.free, it)
      requires hv == table.hash(items[it].key) && items[it].key !in table.index
      modifies table, table.primary, table.previous
      modifies lists`next, lists`prev, lists`lru, lists.heads, lists.tails, lists.sizes
      ensures table.primary == old(table.primary) && table.previous == old(table.previous)
      ensures Sound() && table.index == old(table.index)[items[it].key := it]
      ensures lists.lru == old(lists.lru)[items[it].clsid := [it] + old(lists.lru)[items[it].clsid]]
    {
      hide H.HashTable.Valid, L.ItemLists.Valid, Absent;
      table.AssocInsert(items, it, hv);
      lists.ItemLinkQ(it, items[it].clsid);
    }

    /** assoc_delete and item_unlink_q. */
    method Unhook(it: Chunk, hv: nat)
      requires Sound() && it in items && items[it].clsid < |lists.lru| && it in lists.lru[items[it].clsid]
      requires hv == table.hash(items[it].key) && items[it].key in table.index && table.index[items[it].key] == it
      modifies table, table.primary, table.previous
      modifies lists`next, lists`prev, lists`lru, lists.heads, lists.tails, lists.sizes
      ensures table.primary == old(table.primary) && table.previous == old(table.previous)
      ensures Sound() && table.index == old(table.index) - {items[it].key}
      ensures lists.lru == old(lists.lru)[items[it].clsid := Without(old(lists.lru)[items[it].clsid], it)]
    {
      hide H.HashTable.Valid, L.ItemLists.Valid, Without;
      table.AssocDelete(items, items[it].key, hv);
      lists.ItemUnlinkQ(it, items[it].clsid);
    }

    /** The flag, the time, the counters and the cas id of an item that is being linked. */
    method Stamp(it: Chunk)
      requires Sound() && it in items
      modifies this`items, this`casId, this`currItems, this`currBytes
      ensures Sound()
      ensures casId == if cfg.useCas then old(casId) + 1 else old(casId)
      ensures items == old(items)[it :=
        old(items)[it].(linked := true, time := now, cas := if cfg.useCas then casId else 0)]
      ensures currItems == old(currItems) + 1 && currBytes == old(currBytes) + ItemTotal(cfg, old(items)[it])
    {
      hide H.HashTable.Valid, L.ItemLists.Valid, NTotal;
      SetItem(it, items[it].(linked := true, time := now));
      currBytes := currBytes + ItemTotal(cfg, items[it]);
      currItems := currItems + 1;
      if cfg.useCas { casId := casId + 1; }
      SetItem(it, items[it].(cas := if cfg.useCas then casId else 0));
    }

    method DoItemLink(it: Chunk, hv: nat)
      requires Valid() && it in holders && it !in uploads && it in items && !items[it].linked
      requires hv == table.hash(items[it].key) && items[it].key !in table.index
      modifies this`items, this`casId, this`currItems, this`currBytes, table, table.primary, table.previous
      modifies lists`next, lists`prev, lists`lru, lists.heads, lists.tails, lists.sizes
      ensures table.primary == old(table.primary) && table.previous == old(table.previous)
      ensures Valid() && Has(old(View()), it) && View() == Link(old(View()), it)
    {
      hide Inv, H.HashTable.Valid, L.ItemLists.Valid, Absent, NTotal, Link;
      ghost var s := View();
      Linking(s, it);
      LinkFields(s, it);
      Stamp(it);
      Hook(it, hv);
      SetItem(it, items[it].(refcount := items[it].refcount + 1));
      assert items == Link(s, it).items;
      Same(View(), Link(s, it));
    }

    /** The flag and the counters of an item that is being unlinked, whose reference from the
        table counts as an outside one from here on. */
    method Unstamp(it: Chunk)
      requires Sound() && it in items
      modifies this`items, this`holders, this`currItems, this`currBytes
      ensures Sound() && items == old(items)[it := old(items)[it].(linked := false)]
      ensures holders == old(holders) + multiset{it}
      ensures currItems == old(currItems) - 1 && currBytes == old(currBytes) - ItemTotal(cfg, old(items)[it])
    {
      hide H.HashTable.Valid, L.ItemLists.Valid, NTotal;
      SetItem(it, items[it].(linked := false));
      currBytes := currBytes - ItemTotal(cfg, items[it]);
      currItems := currItems - 1;
      holders := holders + multiset{it};
    }

    /** do_item_unlink up to the point where the reference of the link is dropped. */
    method Detaching(it: Chunk, hv: nat)
      requires Valid() && it in items && items[it].linked && hv == table.hash(items[it].key)
      modifies this`items, this`holders, this`currItems, this`currBytes, table, table.primary, table.previous
      modifies lists`next, lists`prev, lists`lru, lists.heads, lists.tails, lists.sizes
      ensures table.primary == old(table.primary) && table.previous == old(table.previous)
      ensures Valid() && Has(old(View()), it) && View() == Detach(old(View()), it)
    {
      hide Inv, H.HashTable.Valid, L.ItemLists.Valid, Absent, ItemTotal, Without, Detach;
      ghost var s := View();
      ChunkFacts(s, it);
      DetachInv(s, it);
      DetachFields(s, it);
      Unstamp(it);
      Unhook(it, hv);
      Same(View(), Detach(s, it));
    }

    method DoItemUnlink(it: Chunk, hv: nat)
      requires Valid() && it in items && hv == table.hash(items[it].key)
      modifies this`items, this`holders, this`currItems, this`currBytes, table, table.primary, table.previous
      modifies lists`next, lists`prev, lists`lru, lists`free, lists.heads, lists.tails, lists.sizes, lists.slots
      modifies lists.slCurr
      ensures table.primary == old(table.primary) && table.previous == old(table.previous)
      ensures Valid() && Has(old(View()), it) && View() == Unlink(old(View()), it)
    {
      hide Inv, H.HashTable.Valid, L.ItemLists.Valid, Detach, Release, Has;
      ghost var s := View();
      ChunkFacts(s, it);
      UnlinkInv(s, it);
      if items[it].linked {
        Detaching(it, hv);
        DetachHolds(s, it);
        DoItemRemove(it);
      }
    }

    method DoItemUpdate(it: Chunk)
      requires Valid() && it in items && it in holders
      modifies this`items, lists`next, lists`prev, lists`lru, lists.heads, lists.tails, lists.sizes
      ensures Valid() && Has(old(View()), it) && View() == Update(old(View()), it)
    {
      hide Inv, H.HashTable.Valid, L.ItemLists.Valid, Absent, Without;
      ghost var s := View();
      ChunkFacts(s, it);
      UpdateInv(s, it);
      if items[it].time < Staleness(now) {
        assert !items[it].slabbed;
        if items[it].linked {
          CutAbsent(s, it);
          lists.ItemUnlinkQ(it, items[it].clsid);
          SetItem(it, items[it].(time := now));
          lists.ItemLinkQ(it, items[it].clsid);
          assert lists.lru == Update(s, it).lru;
        }
      }
    }

    method DoItemReplace(it: Chunk, newIt: Chunk, hv: nat)
      requires Valid() && it in items && items[it].linked && it in holders
      requires newIt in items && newIt in holders && !items[newIt].linked && newIt !in uploads
      requires items[newIt].key == items[it].key && hv == table.hash(items[it].key)
      modifies this`items, this`holders, this`casId, this`currItems, this`currBytes, table, table.primary
      modifies table.previous
      modifies lists`next, lists`prev, lists`lru, lists`free, lists.heads, lists.tails, lists.sizes, lists.slots
      modifies lists.slCurr
      ensures table.primary == old(table.primary) && table.previous == old(table.previous)
      ensures Valid() && Has(old(View()), it) && Has(old(View()), newIt)
      ensures View() == Replace(old(View()), it, newIt)
    {
      hide Inv, H.HashTable.Valid, L.ItemLists.Valid, Link, Unlink, Has;
      ghost var s := View();
      ReplaceInv(s, it, newIt);
      UnlinkKeeps(s, it, newIt);
      DoItemUnlink(it, hv);
      DoItemLink(newIt, hv);
    }

    /** One more reference to an item the table holds. */
    method Refer(it: Chunk)
      requires Valid() && it in items && items[it].linked
      modifies this`items, this`holders
      ensures Valid() && Has(old(View()), it) && View() == Hold(old(View()), it)
    {
      hide Inv, H.HashTable.Valid, L.ItemLists.Valid;
      ghost var s := View();
      ChunkFacts(s, it);
      HoldInv(s, it);
      SetItem(it, items[it].(refcount := items[it].refcount + 1));
      holders := holders + multiset{it};
      Same(View(), Hold(s, it));
    }

    method DoItemGet(key: Key, hv: nat) returns (it: Ptr)
      requires Valid() && hv == table.hash(key)
      modifies this`items, this`holders, this`currItems, this`currBytes, table, table.primary, table.previous
      modifies lists`next, lists`prev, lists`lru, lists`free, lists.heads, lists.tails, lists.sizes, lists.slots
      modifies lists.slCurr
      ensures table.primary == old(table.primary) && table.previous == old(table.previous)
      ensures Valid() && (View(), it) == Get(old(View()), key)
    {
      hide Inv, H.HashTable.Valid, L.ItemLists.Valid, Release, Unlink, Has, Get, Hold;
      ghost var s := View();
      GetInv(s, key);
      it := table.AssocFind(items, key, hv);
      if it.None? {
        GetNothing(s, key);
      } else {
        GetCases(s, key);
        Refer(it.value);
        // Before a move has started slab_start and slab_end are NULL, so the address test fails.
        if rebal.signal == 2 && it.value.page == rebal.page {
          Nuke(it.value, hv);
          it := None;
        } else if oldestLive != 0 && oldestLive <= now && items[it.value].time <= oldestLive {
          Nuke(it.value, hv);
          it := None;
        } else if items[it.value].exptime != 0 && items[it.value].exptime <= now {
          Nuke(it.value, hv);
          it := None;
        }
      }
    }

    /** do_item_unlink followed by do_item_remove, on an item the caller holds. */
    method Nuke(it: Chunk, hv: nat)
      requires Valid() && it in items && it in holders && it !in uploads && hv == table.hash(items[it].key)
      modifies this`items, this`holders, this`currItems, this`currBytes, table, table.primary, table.previous
      modifies lists`next, lists`prev, lists`lru, lists`free, lists.heads, lists.tails, lists.sizes, lists.slots
      modifies lists.slCurr
      ensures table.primary == old(table.primary) && table.previous == old(table.previous)
      ensures Valid() && Has(old(View()), it) && View() == Release(Unlink(old(View()), it), it)
    {
      hide Inv, H.HashTable.Valid, L.ItemLists.Valid, Release, Unlink, Has;
      ghost var s := View();
      ChunkFacts(s, it);
      UnlinkInv(s, it);
      DoItemUnlink(it, hv);
      DoItemRemove(it);
    }

    // ----- slabs.c

    /** memset of a page that is about to be split into n chunks. */
    method Memset(page: nat, n: nat)
      requires Sound() && forall k :: k in table.index ==> table.index[k].page != page
      modifies this`items
      ensures Sound()
      ensures items == Wiped(old(items), page) + Blank(page, n)
    {
      hide H.HashTable.Valid, L.ItemLists.Valid;
      ghost var before := items;
      H.ValidIndex(table, items);
      items := Wiped(items, page) + Blank(page, n);
      H.ValidKeys(table, before, items);
    }

    /** do_slabs_free on a chunk that has just been zeroed. */
    method DoSlabsFree(it: Chunk, id: nat)
      requires Sound() && it in items && id < |lists.lru| && Absent(lists.lru + lists.free, it)
      modifies this`items, lists`next, lists`prev, lists`free, lists.slots, lists.slCurr
      ensures Sound()
      ensures items == old(items)[it := old(items)[it].(slabbed := true)]
      ensures lists.free == old(lists.free)[id := [it] + old(lists.free)[id]]
    {
      hide H.HashTable.Valid, L.ItemLists.Valid, Absent;
      SetItem(it, items[it].(slabbed := true));
      lists.PushSlot(it, id);
    }

    method SplitSlabPageIntoFreelist(page: nat, id: nat)
      requires Sound() && id < |lists.lru| && id < |cfg.classes|
      requires forall x :: 0 <= x < cfg.classes[id].perslab ==> At(page, x) in items && items[At(page, x)] == ZERO
      requires forall p :: !Absent(lists.lru + lists.free, p) ==> p.page != page
      modifies this`items, lists`next, lists`prev, lists`free, lists.slots, lists.slCurr
      ensures Sound()
      ensures items == old(items) + Fresh(page, cfg.classes[id].perslab)
      ensures lists.free == old(lists.free)[id := Stack(page, cfg.classes[id].perslab) + old(lists.free)[id]]
    {
      hide H.HashTable.Valid, L.ItemLists.Valid, Absent, Stack, Fresh;
      ghost var free := lists.free;
      L.ValidSizes(lists);
      assert Stack(page, 0) + free[id] == free[id] && old(items) + Fresh(page, 0) == old(items);
      var x := 0;
      while x < cfg.classes[id].perslab
        invariant 0 <= x <= cfg.classes[id].perslab && Sound()
        invariant items == old(items) + Fresh(page, x)
        invariant |lists.free| == |free| && lists.free == free[id := Stack(page, x) + free[id]]
      {
        NotStacked(lists.lru, free, id, page, x);
        StackMore(page, x, free[id]);
        FreshMore(old(items), page, x);
        DoSlabsFree(At(page, x), id);
        x := x + 1;
      }
    }

    /** memset and split_slab_page_into_freelist. */
    method FillPage(page: nat, id: nat)
      requires Sound() && id < |lists.lru| && id < |cfg.classes|
      requires Unused(table.index, lists.lru + lists.free, page)
      modifies this`items, lists`next, lists`prev, lists`free, lists.slots, lists.slCurr
      ensures Sound()
      ensures items == Wiped(old(items), page) + Fresh(page, cfg.classes[id].perslab)
      ensures |old(lists.free)| == |lists.lru|
      ensures lists.free == old(lists.free)[id := Stack(page, cfg.classes[id].perslab) + old(lists.free)[id]]
    {
      hide H.HashTable.Valid, L.ItemLists.Valid, Absent, Stack;
      L.ValidSizes(lists);
      FreshOver(Wiped(items, page), page, cfg.classes[id].perslab);
      Memset(page, cfg.classes[id].perslab);
      SplitSlabPageIntoFreelist(page, id);
    }

    /** `memOk` is the answer of memory_allocate. */
    method DoSlabsNewslab(id: nat, memOk: bool) returns (ok: bool)
      requires Valid() && 1 <= id < |slabs|
      modifies this`items, this`slabs, this`owner, this`nextPage, this`malloced
      modifies lists`next, lists`prev, lists`free, lists.slots, lists.slCurr
      ensures id < |cfg.classes| == |old(lists.free)| == |old(slabs)| == |lists.lru|
      ensures Valid() && ok == (RoomForPage(old(View()), id) && memOk)
      ensures View() == if ok then NewPage(old(View()), id) else old(View())
    {
      hide Inv, H.HashTable.Valid, L.ItemLists.Valid, Absent, Fresh, Stack, NewPage, Wiped, Unused, RoomForPage;
      ghost var s := View();
      NewSlab(s, id);
      var len := if cfg.slabReassign then cfg.itemSizeMax else cfg.classes[id].size * cfg.classes[id].perslab;
      if (cfg.memLimit != 0 && malloced + len > cfg.memLimit && |slabs[id]| > 0) || !memOk {
        return false;
      }
      var ptr := MemoryAllocate(id);
      FillPage(ptr, id);
      EnterPage(id, ptr, len);
      Same(View(), NewPage(s, id));
      ok := true;
    }

    /** memory_allocate: a page nobody has used. */
    method MemoryAllocate(id: nat) returns (ptr: nat)
      requires Sound()
      modifies this`owner, this`nextPage
      ensures Sound() && ptr == old(nextPage) && nextPage == ptr + 1 && owner == old(owner)[ptr := id]
    {
      hide H.HashTable.Valid, L.ItemLists.Valid;
      ptr := nextPage;
      nextPage := nextPage + 1;
      owner := owner[ptr := id];
    }

    /** The page becomes the last one of slab_list. */
    method EnterPage(id: nat, ptr: nat, len: nat)
      requires Sound() && id < |slabs|
      modifies this`slabs, this`malloced
      ensures Sound() && slabs == old(slabs)[id := old(slabs)[id] + [ptr]] && malloced == old(malloced) + len
    {
      hide H.HashTable.Valid, L.ItemLists.Valid;
      slabs := slabs[id := slabs[id] + [ptr]];
      malloced := malloced + len;
    }

    /** What slabs_alloc hands out is taken off the free list and not yet initialised. */
    method DoSlabsAlloc(id: nat, memOk: bool) returns (ret: Ptr)
      requires Valid() && 1 <= id < |slabs|
      modifies this`items, this`slabs, this`owner, this`nextPage, this`malloced
      modifies lists`next, lists`prev, lists`free, lists.slots, lists.slCurr
      ensures Sound()
      ensures var t := Supply(old(View()), id, memOk);
        if t.None? then ret == None && View() == old(View())
        else ret == Some(t.value.free[id][0]) && View() == t.value.(free := t.value.free[id := t.value.free[id][1..]])
    {
      hide Inv, H.HashTable.Valid, L.ItemLists.Valid, NewPage;
      ghost var s := View();
      Sizes(s);
      L.ValidSizes(lists);
      if lists.slCurr[id] == 0 {
        var ok := DoSlabsNewslab(id, memOk);
        if !ok { return None; }
        NewPageInv(s, id);
      }
      var it := lists.PopSlot(id);
      ret := Some(it);
    }

    // ----- do_item_alloc

    /** One look at an item of the tail: take its lock, take a reference, keep it only if
        that makes two. */
    method Probe(search: Chunk, blocked: set<Key>) returns (ours: bool)
      requires Valid() && search in items && items[search].linked && !Overdue(View(), search, blocked)
      modifies this`items, this`holders
      ensures Has(old(View()), search) && Valid()
      ensures ours == (old(items)[search].key !in blocked && old(items)[search].refcount == 1)
      ensures View() == if ours then Hold(old(View()), search) else old(View())
    {
      hide Inv, H.HashTable.Valid, L.ItemLists.Valid;
      ghost var s := View();
      ChunkFacts(s, search);
      HoldInv(s, search);
      if items[search].key in blocked { return false; }
      SetItem(search, items[search].(refcount := items[search].refcount + 1));
      if items[search].refcount != 2 {
        SetItem(search, items[search].(refcount := items[search].refcount - 1));
        if items[search].time + TAIL_REPAIR_TIME < now {
          assert false;   // the repair would force the reference count
        }
        assert items == s.items;
        return false;
      }
      holders := holders + multiset{search};
      ours := true;
    }

    /** An expired or evicted item is unlinked and its chunk kept. */
    method TakeOver(it: Chunk)
      requires Valid() && it in items && items[it].linked && items[it].refcount == 2
      modifies this`items, this`holders, this`currItems, this`currBytes, table, table.primary, table.previous
      modifies lists`next, lists`prev, lists`lru, lists`free, lists.heads, lists.tails, lists.sizes, lists.slots
      modifies lists.slCurr
      ensures table.primary == old(table.primary) && table.previous == old(table.previous)
      ensures Sound() && View() == Vacated(old(View()), it)
    {
      hide Inv, H.HashTable.Valid, L.ItemLists.Valid, Unlink;
      DoItemUnlink(it, table.hash(items[it].key));
      SetItem(it, items[it].(clsid := 0));
    }

    /** A new chunk if there is one, otherwise the evicted item. */
    method AllocOrEvict(search: Chunk, id: nat, memOk: bool) returns (it: Ptr, triedAlloc: bool)
      requires Valid() && search in items && items[search].linked && items[search].refcount == 2 && 1 <= id < |slabs|
      modifies this`items, this`holders, this`currItems, this`currBytes, this`slabs, this`owner, this`nextPage
      modifies this`malloced
      modifies table, table.primary, table.previous
      modifies lists`next, lists`prev, lists`lru, lists`free, lists.heads, lists.tails, lists.sizes, lists.slots
      modifies lists.slCurr
      ensures table.primary == old(table.primary) && table.previous == old(table.previous)
      ensures Sound()
      ensures var h := old(View()); var t := Supply(h, id, memOk);
        if t.Some? then
          it == Some(t.value.free[id][0]) && !triedAlloc
              && View() == t.value.(free := t.value.free[id := t.value.free[id][1..]])
        else if cfg.evictToFree then it == Some(search) && triedAlloc && View() == Vacated(h, search)
        else it == None && triedAlloc && View() == h
    {
      hide Inv, H.HashTable.Valid, L.ItemLists.Valid, Supply, Vacated;
      triedAlloc := false;
      it := DoSlabsAlloc(id, memOk);
      if it.None? {
        triedAlloc := true;
        if cfg.evictToFree {
          it := Some(search);
          TakeOver(search);
        }
      }
    }

    /** What do_item_alloc does with the item `search` it has settled on: reclaim it, or get
        a chunk from the slab allocator, or evict it. */
    method Settle(search: Chunk, id: nat, ghost s: State, ghost key: Key, ghost flags: int, ghost exptime: nat,
                  ghost data: string, ghost blocked: set<Key>, memOk: bool)
      returns (it: Ptr, triedAlloc: bool)
      requires Inv(s) && Valid() && Chosen(s, search, id, key, flags, data, blocked) && |data| >= 2
      requires Has(s, search) && View() == Hold(s, search)
      modifies this`items, this`holders, this`currItems, this`currBytes, this`slabs, this`owner, this`nextPage
      modifies this`malloced
      modifies table, table.primary, table.previous
      modifies lists`next, lists`prev, lists`lru, lists`free, lists.heads, lists.tails, lists.sizes, lists.slots
      modifies lists.slCurr
      ensures table.primary == old(table.primary) && table.previous == old(table.previous)
      ensures Sound() && Ready(View(), it, s, id, key, flags, exptime, data, blocked, memOk)
      ensures it.None? ==> triedAlloc
    {
      hide Inv, H.HashTable.Valid, L.ItemLists.Valid, Ready, Unlink, Supply, ItemAlloc, Chosen, Vacated, Unhold;
      ChosenFacts(s, search, id, key, flags, data, blocked);
      ghost var h := View();
      triedAlloc := false;
      var oldest := items[search];
      if (oldest.exptime != 0 && oldest.exptime < now) || (oldest.time <= oldestLive && oldestLive <= now) {
        it := Some(search);
        TakeOver(search);
      } else {
        it, triedAlloc := AllocOrEvict(search, id, memOk);
      }
      ghost var w := View();
      Settled(s, h, w, search, it, id, key, flags, exptime, data, blocked, memOk);
      GiveBack(search, it);
    }

    /** refcount_decr; the chunk that is handed out counts as held by the caller. */
    method GiveBack(search: Chunk, it: Ptr)
      requires Sound() && search in items && items[search].refcount > 0
      modifies this`items, this`holders
      ensures Sound() && View() == Unhold(old(View()), search, it)
    {
      hide H.HashTable.Valid, L.ItemLists.Valid;
      SetItem(search, items[search].(refcount := items[search].refcount - 1));
      holders := Settlement(holders, search, it);
    }

    /** The writes that make a chunk an item.  The chunk is in no list, so clearing its links
        changes nothing that is ever read. */
    method InitItem(it: Chunk, id: nat, key: Key, flags: int, exptime: nat, data: string)
      requires Sound() && it in items && forall k :: k in table.index ==> table.index[k] != it
      modifies this`items
      ensures Sound()
      ensures items == old(items)[it := Initialised(old(items)[it], id, key, flags, exptime, data)]
    {
      hide H.HashTable.Valid, L.ItemLists.Valid;
      SetItem(it, items[it].(refcount := 1));
      SetItem(it, items[it].(clsid := id, linked := false, slabbed := false));
      SetItem(it, items[it].(key := key, flags := flags, data := data, exptime := exptime));
    }

    /** The walk up the tail.  It is exhausted when it has looked at enough items or at all
        of them without settling on one. */
    method SearchTail(id: nat, ghost key: Key, ghost flags: int, ghost exptime: nat, ghost data: string,
                      blocked: set<Key>, memOk: bool)
      returns (it: Ptr, triedAlloc: bool, exhausted: bool)
      requires Valid() && |data| >= 2
      requires id == ClsId(cfg.classes, NTotal(cfg, key, flags, |data|)) && id != 0 && id < |lists.lru| == |slabs|
      requires forall p :: p in lists.lru[id] ==> p in items && items[p].linked
      requires NoneOverdue(View(), lists.lru[id], SEARCH_TRIES, blocked)
      modifies this`items, this`holders, this`currItems, this`currBytes, this`slabs, this`owner, this`nextPage
      modifies this`malloced
      modifies table, table.primary, table.previous
      modifies lists`next, lists`prev, lists`lru, lists`free, lists.heads, lists.tails, lists.sizes, lists.slots
      modifies lists.slCurr
      ensures table.primary == old(table.primary) && table.previous == old(table.previous)
      ensures Sound()
      ensures var s := old(View());
        if exhausted then it == None && !triedAlloc && Valid() && View() == s
            && Victim(s, s.lru[id], SEARCH_TRIES, blocked) == None
        else (it.None? ==> triedAlloc) && Ready(View(), it, s, id, key, flags, exptime, data, blocked, memOk)
    {
      hide Inv, H.HashTable.Valid, L.ItemLists.Valid, ItemAlloc, Ready, Hold, NoneOverdue, Overdue, Chosen, Victim,
          NTotal;
      ghost var s := View();
      L.ValidSizes(lists);
      var tries, search := SEARCH_TRIES, lists.tails[id];
      it, triedAlloc := None, false;
      ghost var q := lists.lru[id];
      while tries > 0 && search.Some?
        invariant Valid() && View() == s && unchanged(table) && unchanged(lists)
        invariant search == L.Last(q) && q <= lists.lru[id]
        invariant (forall p :: p in q ==> p in items) && NoneOverdue(s, q, tries, blocked)
        invariant Victim(s, lists.lru[id], SEARCH_TRIES, blocked) == Victim(s, q, tries, blocked)
        decreases tries
      {
        var p := search.value;
        assert p in lists.lru[id];
        L.ValidPrev(lists, id, |q| - 1);
        NoneOverdueStep(s, q, tries, blocked);
        var ours := Probe(p, blocked);
        VictimStep(s, q, tries, blocked);
        if ours {
          IsChosen(s, p, id, key, flags, data, blocked);
          it, triedAlloc := Settle(p, id, s, key, flags, exptime, data, blocked, memOk);
          return it, triedAlloc, false;
        }
        search := lists.prev[p];
        q := q[..|q| - 1];
        tries := tries - 1;
      }
      NoVictim(s, q, tries, blocked);
      exhausted := true;
    }

    /** `blocked` are the keys whose item lock another thread holds; `data` is what the data
        area of the chunk holds on return. */
    method DoItemAlloc(key: Key, flags: int, exptime: nat, data: string, blocked: set<Key>, memOk: bool)
      returns (it: Ptr)
      requires Valid() && |data| >= 2 && RepairIdle(View(), key, flags, |data|, blocked)
      modifies this`items, this`holders, this`currItems, this`currBytes, this`slabs, this`owner, this`nextPage
      modifies this`malloced
      modifies table, table.primary, table.previous
      modifies lists`next, lists`prev, lists`lru, lists`free, lists.heads, lists.tails, lists.sizes, lists.slots
      modifies lists.slCurr
      ensures table.primary == old(table.primary) && table.previous == old(table.previous)
      ensures Valid() && (View(), it) == ItemAlloc(old(View()), key, flags, exptime, data, blocked, memOk)
    {
      hide Inv, H.HashTable.Valid, L.ItemLists.Valid, ItemAlloc, Ready, Supply, NoneOverdue, Victim, NTotal;
      ghost var s := View();
      Sizes(s);
      var id := SlabsClsId(cfg.classes, NTotal(cfg, key, flags, |data|));
      if id == 0 {
        NoClass(s, key, flags, exptime, data, blocked, memOk);
        return None;
      }
      LruFacts(s, id);
      var triedAlloc, exhausted;
      it, triedAlloc, exhausted := SearchTail(id, key, flags, exptime, data, blocked, memOk);
      if !triedAlloc && exhausted {
        it := AllocLast(id, s, key, flags, exptime, data, blocked, memOk);
      }
      HandOut(it, id, s, key, flags, exptime, data, blocked, memOk);
    }

    /** The chunk, if there is one, becomes the new item. */
    method HandOut(it: Ptr, id: nat, ghost s: State, key: Key, flags: int, exptime: nat, data: string,
                   ghost blocked: set<Key>, ghost memOk: bool)
      requires Inv(s) && |data| >= 2 && Sound() && Ready(View(), it, s, id, key, flags, exptime, data, blocked, memOk)
      modifies this`items
      ensures Valid() && (View(), it) == ItemAlloc(s, key, flags, exptime, data, blocked, memOk)
    {
      hide Inv, H.HashTable.Valid, L.ItemLists.Valid, ItemAlloc, Initialised;
      ItemAllocInv(s, key, flags, exptime, data, blocked, memOk);
      if it.Some? {
        InitItem(it.value, id, key, flags, exptime, data);
        Same(View(), ItemAlloc(s, key, flags, exptime, data, blocked, memOk).0);
      }
    }

    /** The call of slabs_alloc after a walk that settled on nothing. */
    method AllocLast(id: nat, ghost s: State, ghost key: Key, ghost flags: int, ghost exptime: nat,
                     ghost data: string, ghost blocked: set<Key>, memOk: bool)
      returns (it: Ptr)
      requires Valid() && s == View() && |data| >= 2 && 1 <= id < |slabs| && id < |s.lru|
          && forall p :: p in s.lru[id] ==> p in s.items
      requires id == ClsId(cfg.classes, NTotal(cfg, key, flags, |data|))
      requires Victim(s, s.lru[id], SEARCH_TRIES, blocked) == None
      modifies this`items, this`slabs, this`owner, this`nextPage, this`malloced, this`holders
      modifies lists`next, lists`prev, lists`free, lists.slots, lists.slCurr
      ensures Sound() && Ready(View(), it, s, id, key, flags, exptime, data, blocked, memOk)
    {
      hide Inv, H.HashTable.Valid, L.ItemLists.Valid, Supply, Victim, NTotal, Ready;
      NoVictimReady(s, id, key, flags, exptime, data, blocked, memOk);
      it := DoSlabsAlloc(id, memOk);
      if it.Some? { holders := holders + multiset{it.value}; }
    }

    // ----- do_store_item and do_add_delta

    method DoItemTouch(key: Key, exptime: nat, hv: nat) returns (it: Ptr)
      requires Valid() && hv == table.hash(key)
      modifies this`items, this`holders, this`currItems, this`currBytes, table, table.primary, table.previous
      modifies lists`next, lists`prev, lists`lru, lists`free, lists.heads, lists.tails, lists.sizes, lists.slots
      modifies lists.slCurr
      ensures table.primary == old(table.primary) && table.previous == old(table.previous)
      ensures Valid() && (View(), it) == Touch(old(View()), key, exptime)
    {
      hide Inv, H.HashTable.Valid, L.ItemLists.Valid, Get;
      ghost var s := View();
      it := DoItemGet(key, hv);
      if it.Some? {
        FoundFacts(s, key);
        ExptimeInv(View(), it.value, exptime);
        SetItem(it.value, items[it.value].(exptime := exptime));
      }
    }

    /** item_replace, then the reference to the old item is dropped. */
    method ReplaceAndRemove(it: Chunk, newIt: Chunk, hv: nat) returns (stored: Outcome)
      requires Valid() && Pair(View(), it, newIt) && hv == table.hash(items[it].key)
      modifies this`items, this`holders, this`casId, this`currItems, this`currBytes
      modifies this`slabs, this`owner, this`nextPage, this`malloced, table, table.primary, table.previous
      modifies lists`next, lists`prev, lists`lru, lists`free, lists.heads, lists.tails, lists.sizes, lists.slots
      modifies lists.slCurr
      ensures table.primary == old(table.primary) && table.previous == old(table.previous)
      ensures Valid() && (View(), stored) == ReplaceHeld(old(View()), it, newIt)
    {
      hide Inv, H.HashTable.Valid, L.ItemLists.Valid, Replace, Release, Has;
      ghost var s := View();
      ReplaceHeldInv(s, it, newIt);
      ReplacedOld(s, it, newIt);
      DoItemReplace(it, newIt, hv);
      stored := Stored(if cfg.useCas then items[newIt].cas else 0);
      DoItemRemove(it);
    }

    /** The part of do_store_item that joins two data areas.  The new item is allocated and
        filled in one step. */
    method Concatenate(it: Chunk, flags: int, exptime: nat, data: string, hv: nat, blocked: set<Key>, memOk: bool)
      returns (stored: Outcome)
      requires Valid() && it in items && items[it].linked && it in holders && |data| >= 2
      requires hv == table.hash(items[it].key) && RepairIdle(View(), items[it].key, flags, |data|, blocked)
      modifies this`items, this`holders, this`casId, this`currItems, this`currBytes
      modifies this`slabs, this`owner, this`nextPage, this`malloced, table, table.primary, table.previous
      modifies lists`next, lists`prev, lists`lru, lists`free, lists.heads, lists.tails, lists.sizes, lists.slots
      modifies lists.slCurr
      ensures table.primary == old(table.primary) && table.previous == old(table.previous)
      ensures Valid() && (View(), stored)
          == Exchange(old(View()), it, old(items)[it].key, flags, exptime, data, blocked, memOk)
    {
      hide Inv, H.HashTable.Valid, L.ItemLists.Valid, ItemAlloc, ReplaceHeld, Release, Has, RepairIdle;
      ghost var s := View();
      var key := items[it].key;
      AllocPair(s, it, key, flags, exptime, data, blocked, memOk);
      ExchangeInv(s, it, key, flags, exptime, data, blocked, memOk);
      var newIt := DoItemAlloc(key, flags, exptime, data, blocked, memOk);
      ghost var s1 := View();
      if newIt.None? {
        AllocFailed(s, key, flags, exptime, data, blocked, memOk);
        DoItemRemove(it);
        return NotStored;
      }
      AllocKey(s, it, key, flags, exptime, data, blocked, memOk);
      ReplaceHeldInv(s1, it, newIt.value);
      StillHeld(s1, it, newIt.value);
      stored := ReplaceAndRemove(it, newIt.value, hv);
      DoItemRemove(newIt.value);
    }

    method DoStoreItem(it: Chunk, comm: Verb, hv: nat, blocked: set<Key>, memOk: bool) returns (stored: Outcome)
      requires Valid() && it in items && !items[it].linked && it in holders && it !in uploads
      requires hv == table.hash(items[it].key)
      requires C.Concatenates(comm) ==> JoinIdle(View(), it, blocked)
      modifies this`items, this`holders, this`casId, this`currItems, this`currBytes
      modifies this`slabs, this`owner, this`nextPage, this`malloced, table, table.primary, table.previous
      modifies lists`next, lists`prev, lists`lru, lists`free, lists.heads, lists.tails, lists.sizes, lists.slots
      modifies lists.slCurr
      ensures table.primary == old(table.primary) && table.previous == old(table.previous)
      ensures Valid() && (View(), stored) == Store(old(View()), it, comm, blocked, memOk)
    {
      hide Inv, H.HashTable.Valid, L.ItemLists.Valid, Get, Link, ConcatIdle, StorePresent;
      ghost var s := View();
      var key := items[it].key;
      StoreInv(s, it, comm, blocked, memOk);
      GetInv(s, key);
      GetLeaves(s, key, it);
      var oldIt := DoItemGet(key, hv);
      if oldIt.Some? {
        FoundFacts(s, key);
        stored := StoreOver(it, oldIt.value, comm, hv, blocked, memOk);
      } else if comm == Cas {
        stored := NotFound;
      } else if comm == Swap || comm == Append || comm == Prepend {
        stored := NotStored;
      } else {
        HolderFacts(View(), it);
        DoItemLink(it, hv);
        stored := Stored(GetCas(it));
      }
    }

    /** do_store_item when the look-up has found o. */
    method StoreOver(it: Chunk, o: Chunk, comm: Verb, hv: nat, blocked: set<Key>, memOk: bool) returns (stored: Outcome)
      requires Valid() && Pair(View(), o, it) && hv == table.hash(items[o].key)
      requires C.Concatenates(comm) ==> ConcatIdle(View(), it, o, blocked)
      modifies this`items, this`holders, this`casId, this`currItems, this`currBytes
      modifies this`slabs, this`owner, this`nextPage, this`malloced, table, table.primary, table.previous
      modifies lists`next, lists`prev, lists`lru, lists`free, lists.heads, lists.tails, lists.sizes, lists.slots
      modifies lists.slCurr
      ensures table.primary == old(table.primary) && table.previous == old(table.previous)
      ensures Valid() && (View(), stored) == StorePresent(old(View()), it, o, comm, blocked, memOk)
    {
      hide Inv, H.HashTable.Valid, L.ItemLists.Valid, Release, Update, ReplaceHeld, Exchange, RepairIdle;
      ghost var s := View();
      StorePresentInv(s, it, o, comm, blocked, memOk);
      ChunkFacts(s, o);
      HolderFacts(s, o);
      HolderFacts(s, it);
      if comm == Add {
        AddFacts(s, o);
        DoItemUpdate(o);
        DoItemRemove(o);
        stored := NotStored;
      } else if comm == Cas {
        if GetCas(it) == GetCas(o) {
          stored := ReplaceAndRemove(o, it, hv);
        } else {
          DoItemRemove(o);
          stored := Exists;
        }
      } else if comm == Append || comm == Prepend {
        stored := JoinData(it, o, comm, hv, blocked, memOk);
      } else {
        stored := ReplaceAndRemove(o, it, hv);
      }
    }

    /** The append and prepend branches: the cas id is checked if there is one, the flags are
        read back from the header. */
    method JoinData(it: Chunk, o: Chunk, comm: Verb, hv: nat, blocked: set<Key>, memOk: bool)
      returns (stored: Outcome)
      requires Valid() && Pair(View(), o, it) && hv == table.hash(items[o].key)
      requires C.Concatenates(comm) && ConcatIdle(View(), it, o, blocked)
      modifies this`items, this`holders, this`casId, this`currItems, this`currBytes
      modifies this`slabs, this`owner, this`nextPage, this`malloced, table, table.primary, table.previous
      modifies lists`next, lists`prev, lists`lru, lists`free, lists.heads, lists.tails, lists.sizes
      modifies lists.slots, lists.slCurr
      ensures table.primary == old(table.primary) && table.previous == old(table.previous)
      ensures Valid() && (View(), stored) == StorePresent(old(View()), it, o, comm, blocked, memOk)
    {
      hide Inv, H.HashTable.Valid, L.ItemLists.Valid, Release, Update, ReplaceHeld, Exchange, RepairIdle;
      ghost var s := View();
      StorePresentInv(s, it, o, comm, blocked, memOk);
      ChunkFacts(s, o);
      HolderFacts(s, o);
      HolderFacts(s, it);
      if GetCas(it) != 0 && GetCas(it) != GetCas(o) {
        DoItemRemove(o);
        return Exists;
      }
      var data := if comm == Append then Joined(items[o].data, items[it].data)
          else Joined(items[it].data, items[o].data);
      D.SuffixKeepsFlags(items[o].flags, |items[o].data|);
      var flags := D.Atoi(D.Suffix(items[o].flags, |items[o].data|)[1..]);
      stored := Concatenate(o, flags, items[o].exptime, data, hv, blocked, memOk);
    }

    /** ITEM_get_cas. */
    function GetCas(it: Chunk): nat
      requires it in items
      reads this
    {
      if cfg.useCas then items[it].cas else 0
    }

    /** `behind` is what the memory holds behind the data of the item. */
    method DoAddDelta(key: Key, incr: bool, delta: nat, cas: nat, behind: string, hv: nat, blocked: set<Key>,
                      memOk: bool)
      returns (result: DeltaResult)
      requires Valid() && hv == table.hash(key) && DeltaIdle(View(), key, incr, delta, cas, behind, blocked)
      modifies this`items, this`holders, this`casId, this`currItems, this`currBytes
      modifies this`slabs, this`owner, this`nextPage, this`malloced, table, table.primary, table.previous
      modifies lists`next, lists`prev, lists`lru, lists`free, lists.heads, lists.tails, lists.sizes, lists.slots
      modifies lists.slCurr
      ensures table.primary == old(table.primary) && table.previous == old(table.previous)
      ensures Valid() && (View(), result) == AddDelta(old(View()), key, incr, delta, cas, behind, blocked, memOk)
    {
      hide Inv, H.HashTable.Valid, L.ItemLists.Valid, Get, Release, Exchange, RepairIdle, Restamp,
          D.Parsed;
      ghost var s := View();
      AddDeltaInv(s, key, incr, delta, cas, behind, blocked, memOk);
      GetInv(s, key);
      var found := DoItemGet(key, hv);
      if found.None? { return DeltaNotFound; }
      FoundFacts(s, key);
      var it := found.value;
      if cas != 0 && GetCas(it) != cas {
        DoItemRemove(it);
        return CasMismatch;
      }
      var value := D.Parsed(items[it].data, behind);
      if value.None? {
        DoItemRemove(it);
        return NonNumeric;
      }
      var text := D.Digits(Applied(incr, value.value, delta));
      if |text| + 2 > |items[it].data| || items[it].refcount != 1 {
        result := Renumber(it, text, hv, blocked, memOk);
      } else {
        assert false;   // the look-up holds the item and the table links it: in place is never reached
      }
    }

    /** The branch of do_add_delta that replaces the item. */
    method Renumber(it: Chunk, text: string, hv: nat, blocked: set<Key>, memOk: bool) returns (result: DeltaResult)
      requires Valid() && it in items && items[it].linked && it in holders && |items[it].data| >= 2
      requires hv == table.hash(items[it].key)
      requires RepairIdle(View(), items[it].key, items[it].flags, |text| + 2, blocked)
      modifies this`items, this`holders, this`casId, this`currItems, this`currBytes
      modifies this`slabs, this`owner, this`nextPage, this`malloced, table, table.primary, table.previous
      modifies lists`next, lists`prev, lists`lru, lists`free, lists.heads, lists.tails, lists.sizes, lists.slots
      modifies lists.slCurr
      ensures table.primary == old(table.primary) && table.previous == old(table.previous)
      ensures Valid()
      ensures var s := old(View()); var o := s.items[it];
        var (u, r) := Exchange(s, it, o.key, o.flags, o.exptime, text + "\r\n", blocked, memOk);
        if r.Stored? then it in u.items && result == DeltaOk(text, r.cas) && View() == Restamp(u, it, r.cas)
        else result == OutOfMemory && View() == u
    {
      hide Inv, H.HashTable.Valid, L.ItemLists.Valid, ItemAlloc, Release, Replace, Has, RepairIdle;
      ghost var s := View();
      var o := items[it];
      var data := text + "\r\n";
      AllocPair(s, it, o.key, o.flags, o.exptime, data, blocked, memOk);
      ExchangeInv(s, it, o.key, o.flags, o.exptime, data, blocked, memOk);
      AllocFailed(s, o.key, o.flags, o.exptime, data, blocked, memOk);
      AllocKey(s, it, o.key, o.flags, o.exptime, data, blocked, memOk);
      D.SuffixKeepsFlags(o.flags, |o.data|);
      var flags := D.Atoi(D.Suffix(o.flags, |o.data|)[1..]);
      var newIt := DoItemAlloc(o.key, flags, o.exptime, data, blocked, memOk);
      if newIt.None? {
        DoItemRemove(it);
        return OutOfMemory;
      }
      ghost var s1 := View();
      AllocKey(s, it, o.key, o.flags, o.exptime, data, blocked, memOk);
      var newCas := Succeed(it, newIt.value, hv);
      result := DeltaOk(text, newCas);
    }

    /** The new item takes the place of the old one, which gets its cas id, and both
        references are dropped. */
    method Succeed(it: Chunk, n: Chunk, hv: nat) returns (newCas: nat)
      requires Valid() && Pair(View(), it, n) && hv == table.hash(items[it].key)
      modifies this`items, this`holders, this`casId, this`currItems, this`currBytes
      modifies this`slabs, this`owner, this`nextPage, this`malloced, table, table.primary, table.previous
      modifies lists`next, lists`prev, lists`lru, lists`free, lists.heads, lists.tails, lists.sizes
      modifies lists.slots, lists.slCurr
      ensures table.primary == old(table.primary) && table.previous == old(table.previous)
      ensures Valid() && View() == Succeeded(old(View()), it, n) && newCas == ReplaceHeld(old(View()), it, n).1.cas
    {
      hide Inv, H.HashTable.Valid, L.ItemLists.Valid, Release, Replace, Has;
      RestampLast(View(), it, n);
      DoItemReplace(it, n, hv);
      newCas := GetCas(n);
      if cfg.useCas { SetItem(it, items[it].(cas := items[n].cas)); }
      DoItemRemove(n);
      DoItemRemove(it);
    }

    // ----- flush_all

    /** One queue of do_item_flush_expired. */
    method FlushOneQueue(i: nat)
      requires Valid() && i < |lists.lru|
      modifies this`items, this`holders, this`currItems, this`currBytes, table, table.primary, table.previous
      modifies lists`next, lists`prev, lists`lru, lists`free, lists.heads, lists.tails, lists.sizes, lists.slots
      modifies lists.slCurr
      ensures table.primary == old(table.primary) && table.previous == old(table.previous)
      ensures Valid() && View() == FlushQueue(old(View()), i)
    {
      hide Inv, H.HashTable.Valid, L.ItemLists.Valid, Unlink;
      L.ValidHead(lists, i);
      var iter := lists.heads[i];
      while iter.Some?
        invariant Valid() && i < |lists.lru| && iter == Nth(lists.lru[i], 0)
        invariant FlushQueue(old(View()), i) == FlushQueue(View(), i)
        invariant table.primary == old(table.primary) && table.previous == old(table.previous)
        decreases |lists.lru[i]|
      {
        HeadFacts(View(), i);
        if items[iter.value].time < oldestLive { break; }
        L.ValidPrev(lists, i, 0);
        var next := lists.next[iter.value];
        ChunkFacts(View(), iter.value);
        if !items[iter.value].slabbed {
          DoItemUnlink(iter.value, table.hash(items[iter.value].key));
        } else {
          assert false;
        }
        iter := next;
      }
    }

    method DoItemFlushExpired()
      requires Valid()
      modifies this`items, this`holders, this`currItems, this`currBytes, table, table.primary, table.previous
      modifies lists`next, lists`prev, lists`lru, lists`free, lists.heads, lists.tails, lists.sizes, lists.slots
      modifies lists.slCurr
      ensures table.primary == old(table.primary) && table.previous == old(table.previous)
      ensures Valid() && View() == if oldestLive == 0 then old(View()) else FlushFrom(old(View()), 0)
    {
      hide Inv, H.HashTable.Valid, L.ItemLists.Valid, FlushQueue, Thinned;
      if oldestLive == 0 { return; }
      ghost var s := View();
      L.ValidSizes(lists);
      var i := 0;
      while i < lists.heads.Length
        invariant Valid() && i <= |lists.lru| == lists.heads.Length
        invariant FlushFrom(s, 0) == FlushFrom(View(), i)
        invariant table.primary == old(table.primary) && table.previous == old(table.previous)
      {
        FlushQueueInv(View(), i);
        ThinnedLength(View(), FlushQueue(View(), i), i);
        FlushOneQueue(i);
        i := i + 1;
      }
    }

    /** flush_all without a delay. */
    method FlushEverything()
      requires Valid()
      modifies this`oldestLive
      modifies this`items, this`holders, this`currItems, this`currBytes, table, table.primary, table.previous
      modifies lists`next, lists`prev, lists`lru, lists`free, lists.heads, lists.tails, lists.sizes, lists.slots
      modifies lists.slCurr
      ensures table.primary == old(table.primary) && table.previous == old(table.previous)
      ensures Valid() && View() == FlushAll(old(View()))
    {
      hide Inv, H.HashTable.Valid, L.ItemLists.Valid, FlushFrom;
      ClockFacts(View());
      ClockInv(View(), now, now - 1);
      oldestLive := now - 1;
      DoItemFlushExpired();
    }

    // ----- the page mover

    method DoSlabsReassign(src: int, dst: int) returns (r: ReassignResult)
      requires Valid()
      modifies this`rebal
      ensures Valid() && (View(), r) == Reassign(old(View()), src, dst)
    {
      hide Inv, H.HashTable.Valid, L.ItemLists.Valid;
      Sizes(View());
      ReassignInv(View(), src, dst);
      if rebal.signal != 0 { return Running; }
      if src == dst { return SrcDstSame; }
      if src < 1 || src >= |slabs| || dst < 1 || dst >= |slabs| { return BadClass; }
      if |slabs[src]| < 2 { return NoSpare; }
      rebal := rebal.(src := src, dst := dst, signal := 1);
      r := ReassignResult.Ok;
    }

    /** slabs_reassign_pick_any: the first class after `from`, going round, that is not dst
        and has a page to spare, or -1.  The function's static variable is passed in and out. */
    method SlabsReassignPickAny(dst: int, from: nat) returns (r: int, cur: nat)
      requires from < |slabs|
      ensures cur < |slabs|
      ensures r == -1 <==> forall c :: 1 <= c < |slabs| ==> NoSource(slabs, c, dst)
      ensures r != -1 ==> 1 <= r == cur < |slabs| && !NoSource(slabs, r, dst)
      ensures r > from ==> forall c :: from < c < r ==> NoSource(slabs, c, dst)
      ensures 0 <= r <= from ==> forall c :: 1 <= c < |slabs| && (c < r || c > from) ==> NoSource(slabs, c, dst)
    {
      cur := from;
      var tries := |slabs| - 1;
      ghost var wrapped := false;
      while tries > 0
        invariant cur < |slabs| && tries == (if wrapped then from - cur else |slabs| - 1 - (cur - from)) >= 0
        invariant wrapped ==> cur >= 1
        invariant forall c :: 1 <= c < |slabs| && (if wrapped then c > from || c <= cur else from < c <= cur) ==>
                    NoSource(slabs, c, dst)
      {
        cur := cur + 1;
        if cur > |slabs| - 1 {
          cur := 1;
          wrapped := true;
        }
        if cur != dst && |slabs[cur]| > 1 {
          assert !NoSource(slabs, cur, dst);
          return cur, cur;
        }
        tries := tries - 1;
      }
      r := -1;
    }

    /** do_slabs_reassign with source -1, and the source it settles on. */
    method DoSlabsReassignAny(dst: int, from: nat) returns (r: ReassignResult, src: int, cur: nat)
      requires Valid() && from < |slabs|
      modifies this`rebal
      ensures Valid() && (View(), r) == Reassign(old(View()), src, dst) && cur < |slabs|
      ensures r != NoSpare
      ensures r == BadClass
        <==> (old(rebal.signal) == 0 && dst != -1
              && (dst < 1 || dst >= |slabs| || forall c :: 1 <= c < |slabs| ==> NoSource(slabs, c, dst)))
    {
      hide Inv, H.HashTable.Valid, L.ItemLists.Valid;
      src, cur := -1, from;
      if rebal.signal == 0 && dst != -1 {
        src, cur := SlabsReassignPickAny(dst, from);
      }
      r := DoSlabsReassign(src, dst);
    }

    method SlabRebalanceStart()
      requires Valid() && rebal.signal == 1
      modifies this`rebal
      ensures Valid() && View() == StartMove(old(View()))
    {
      hide Inv, H.HashTable.Valid, L.ItemLists.Valid;
      StartMoveInv(View());
      var noGo := rebal.src < 1 || rebal.src >= |slabs| || rebal.dst < 1 || rebal.dst >= |slabs|;
      noGo := noGo || rebal.src == rebal.dst;
      if noGo || |slabs[rebal.src]| < 2 {
        rebal := rebal.(signal := 0);
      } else {
        rebal := rebal.(signal := 2, page := slabs[rebal.src][0], pos := 0, done := false);
      }
    }

    /** The test slab_rebalance_move puts an item to, and its way out of the free list or of
        table and queue; the item is left with the reference of the mover. */
    method PullOut(it: Chunk, blocked: set<Key>) returns (status: MoveStatus)
      requires Valid() && rebal.signal == 2 && !rebal.done && it == At(rebal.page, rebal.pos)
      requires it in items && items[it].clsid != MARKED
      modifies this`items, this`holders, this`currItems, this`currBytes, table, table.primary, table.previous
      modifies lists`next, lists`prev, lists`lru, lists`free, lists.heads, lists.tails, lists.sizes, lists.slots
      modifies lists.slCurr
      ensures table.primary == old(table.primary) && table.previous == old(table.previous)
      ensures Sound() && (View(), status) == Pulled(old(View()), it, blocked)
    {
      hide Inv, H.HashTable.Valid, L.ItemLists.Valid, Without, Unlink;
      ghost var s := View();
      MoverFacts(s);
      ChunkFacts(s, it);
      if items[it].key in blocked { return Locked; }
      SetItem(it, items[it].(refcount := items[it].refcount + 1));
      status := Busy;
      if items[it].refcount == 1 {
        if items[it].slabbed {
          lists.CutSlot(it, rebal.src);
          status := Moved;
        }
      } else if items[it].refcount == 2 {
        if items[it].linked {
          HoldInv(s, it);
          holders := holders + multiset{it};
          DoItemUnlink(it, table.hash(items[it].key));
          status := Moved;
        }
      }
    }

    /** What slab_rebalance_move does with the chunk under the cursor. */
    method ClearOne(it: Chunk, blocked: set<Key>) returns (status: MoveStatus)
      requires Valid() && rebal.signal == 2 && !rebal.done && it == At(rebal.page, rebal.pos)
      modifies this`items, this`holders, this`currItems, this`currBytes, table, table.primary, table.previous
      modifies lists`next, lists`prev, lists`lru, lists`free, lists.heads, lists.tails, lists.sizes, lists.slots
      modifies lists.slCurr
      ensures table.primary == old(table.primary) && table.previous == old(table.previous)
      ensures Sound() && (View(), status) == ClearChunk(old(View()), blocked)
    {
      hide Inv, H.HashTable.Valid, L.ItemLists.Valid, Pulled, ClearChunk, Branded, LetGone;
      ghost var s := View();
      MoverFacts(s);
      PassesMarked(s, blocked);
      status := Pass;
      if items[it].clsid != MARKED {
        status := PullOut(it, blocked);
        PulledThen(s, it, blocked);
        match status
        case Moved => Brand(it);
        case Busy => LetGo(it);
        case _ =>
      }
    }

    method Brand(it: Chunk)
      requires Sound() && it in items
      modifies this`items, this`holders
      ensures Sound() && View() == Branded(old(View()), it)
    {
      hide H.HashTable.Valid, L.ItemLists.Valid;
      SetItem(it, items[it].(refcount := 0, linked := false, slabbed := false, clsid := MARKED));
      holders := holders - multiset{it};
    }

    method LetGo(it: Chunk)
      requires Sound() && it in items && items[it].refcount > 0
      modifies this`items
      ensures Sound() && View() == LetGone(old(View()), it)
    {
      hide H.HashTable.Valid, L.ItemLists.Valid;
      SetItem(it, items[it].(refcount := items[it].refcount - 1));
    }

    /** slab_rebalance_move; the cursor is wrapped where the loop ends at the end of the page. */
    method SlabRebalanceMove(slabBulkCheck: nat, blocked: set<Key>) returns (wasBusy: nat)
      requires Valid() && rebal.signal == 2 && !rebal.done
      modifies this`rebal
      modifies this`items, this`holders, this`currItems, this`currBytes, table, table.primary, table.previous
      modifies lists`next, lists`prev, lists`lru, lists`free, lists.heads, lists.tails, lists.sizes, lists.slots
      modifies lists.slCurr
      ensures table.primary == old(table.primary) && table.previous == old(table.previous)
      ensures Valid() && View() == MoveChunks(old(View()), blocked, slabBulkCheck)
    {
      hide Inv, Valid, Sound, H.HashTable.Valid, L.ItemLists.Valid, MoveChunk, MoveChunks, ClearChunk, Advance, Has;
      ghost var s := View();
      ValidInv(this);
      wasBusy := 0;
      var x := 0;
      while x < slabBulkCheck
        invariant x <= slabBulkCheck && Valid() && Inv(View()) && rebal.signal == 2 && !rebal.done
        invariant MoveChunks(s, blocked, slabBulkCheck) == MoveChunks(View(), blocked, slabBulkCheck - x)
        invariant table.primary == old(table.primary) && table.previous == old(table.previous)
      {
        MoveChunksMore(View(), blocked, slabBulkCheck - x);
        var busy, ended := LookAtOne(blocked);
        ValidInv(this);
        if busy { wasBusy := wasBusy + 1; }
        if ended { return; }
        x := x + 1;
      }
      MoveChunksNone(View(), blocked);
    }

    /** The body of the loop of slab_rebalance_move. */
    method LookAtOne(blocked: set<Key>) returns (busy: bool, ended: bool)
      requires Valid() && rebal.signal == 2 && !rebal.done
      modifies this`rebal, this`items, this`holders, this`currItems, this`currBytes, table, table.primary
      modifies table.previous
      modifies lists`next, lists`prev, lists`lru, lists`free, lists.heads, lists.tails, lists.sizes, lists.slots
      modifies lists.slCurr
      ensures table.primary == old(table.primary) && table.previous == old(table.previous)
      ensures old(View()).rebal.src < |cfg.classes| && Has(old(View()), At(old(rebal).page, old(rebal).pos))
      ensures Valid() && View() == MoveChunk(old(View()), blocked)
      ensures ended <==> rebal.done || rebal.pos == 0
    {
      hide Inv, H.HashTable.Valid, L.ItemLists.Valid, MoveChunk, ClearChunk, Advance;
      MoveIsClear(View(), blocked);
      MoveChunkInv(View(), blocked);
      var status := ClearOne(At(rebal.page, rebal.pos), blocked);
      busy := status == Busy || status == Locked;
      ended := NextChunk(busy);
    }

    /** The cursor moves to the next chunk of the page. */
    method NextChunk(busy: bool) returns (ended: bool)
      requires Sound() && rebal.src < |cfg.classes| && !rebal.done
      modifies this`rebal
      ensures Sound() && View() == Advance(old(View()), busy)
      ensures ended <==> rebal.done || rebal.pos == 0
    {
      hide H.HashTable.Valid, L.ItemLists.Valid;
      if busy { rebal := rebal.(busy := rebal.busy + 1); }
      rebal := rebal.(pos := rebal.pos + 1);
      ended := rebal.pos >= cfg.classes[rebal.src].perslab;
      if ended {
        if rebal.busy > 0 {
          rebal := rebal.(pos := 0, busy := 0);
        } else {
          rebal := rebal.(done := true);
        }
      }
    }

    /** The last page of the old class takes the slot of the first, which goes to the new one. */
    method ChangeClass(src: nat, dst: nat, page: nat)
      requires Sound() && src < |slabs| && dst < |slabs| && slabs[src] != []
      modifies this`slabs, this`owner
      ensures Sound() && owner == old(owner)[page := dst]
      ensures var l := old(slabs)[src]; var now := old(slabs)[src := l[0 := l[|l| - 1]][..|l| - 1]];
        slabs == now[dst := now[dst] + [page]]
    {
      hide H.HashTable.Valid, L.ItemLists.Valid;
      var l := slabs[src];
      slabs := slabs[src := l[0 := l[|l| - 1]][..|l| - 1]];
      slabs := slabs[dst := slabs[dst] + [page]];
      owner := owner[page := dst];
    }

    method SlabRebalanceFinish()
      requires Valid() && rebal.signal == 2 && rebal.done
      modifies this`items, this`slabs, this`owner, this`rebal
      modifies lists`next, lists`prev, lists`free, lists.slots, lists.slCurr
      ensures rebal.src < |old(slabs)|
      ensures Valid() && View() == FinishMove(old(View()))
    {
      hide Inv, H.HashTable.Valid, L.ItemLists.Valid, Absent, Fresh, Stack, Unused, Wiped, FinishMove;
      ghost var s := View();
      Finishing(s);
      var src, dst, page := rebal.src, rebal.dst, rebal.page;
      ChangeClass(src, dst, page);
      FillPage(page, dst);
      rebal := Rebalance(0, 0, 0, 0, 0, rebal.busy, false);
      Same(View(), FinishMove(s));
    }

    // ----- the maintenance thread of the hash table

    method AssocExpand(ok: bool)
      requires Valid() && !table.expanding
      modifies table
      ensures Valid() && View() == old(View()) && fresh(Repr() - old(Repr()))
      ensures table.expanding == ok
    {
      hide Inv, H.HashTable.Valid, L.ItemLists.Valid;
      H.ValidShape(table, items);
      table.AssocExpand(items, ok);
      H.ValidShape(table, items);
    }

    /** However many buckets are moved, and whenever, the cache stands for the same state. */
    method AssocMaintenance(hashBulkMove: int)
      requires Valid()
      modifies table, table.primary, table.previous
      ensures Valid() && View() == old(View()) && Repr() == old(Repr())
    {
      hide Inv, H.HashTable.Valid, L.ItemLists.Valid;
      table.MaintenanceRound(items, hashBulkMove);
    }
  }
}
