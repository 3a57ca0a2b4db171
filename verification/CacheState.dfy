/** The state shared by items.c, slabs.c and assoc.c, on values, and the elementary
    transitions every operation is made of.  Lists and the hash table appear here as
    what they mean (sequences and a map); HashTable and ItemLists give them pointers. */
module CacheState {
  import opened Seqs
  import opened SlabClasses
  import D = Decimal

  type Key = string

  /** The address of a chunk: which page, and which chunk inside the page. */
  datatype Chunk = At(page: nat, idx: nat)

  const MARKED: nat := 255   // slabs_clsid of a chunk the page mover has emptied

  datatype Item = Item(
    key: Key, flags: int, data: string, time: nat, exptime: nat, cas: nat,
    refcount: nat, linked: bool, slabbed: bool, clsid: nat)

  /** A chunk after memset. */
  const ZERO := Item("", 0, "", 0, 0, 0, 0, false, false, 0)

  datatype Config = Config(
    classes: seq<SlabClass>, itemSizeMax: nat, memLimit: nat,
    useCas: bool, evictToFree: bool, slabReassign: bool)

  /** struct slab_rebalance together with slab_rebalance_signal. */
  datatype Rebalance = Rebalance(
    signal: nat, src: nat, dst: nat, page: nat, pos: nat, busy: nat, done: bool)

  datatype State = State(
    cfg: Config,
    items: map<Chunk, Item>,
    index: map<Key, Chunk>,        // what the hash table means
    lru: seq<seq<Chunk>>,          // per class, most recently used first
    free: seq<seq<Chunk>>,         // per class, next to be handed out first
    slabs: seq<seq<nat>>,          // slab_list per class
    owner: map<nat, nat>,          // the class each page is split for
    nextPage: nat, malloced: nat,
    now: nat, oldestLive: nat, casId: nat,
    currItems: int, currBytes: int,
    rebal: Rebalance,
    holders: multiset<Chunk>,      // references held outside table and queues
    uploads: set<Chunk>)           // held chunks whose data is still being read in

  /** ITEM_ntotal. */
  function NTotal(cfg: Config, key: Key, flags: int, nbytes: nat): nat {
    ITEM_HEADER + |key| + 1 + (if nbytes >= 2 then |D.Suffix(flags, nbytes)| else 0) + nbytes
    + (if cfg.useCas then 8 else 0)
  }

  function ItemTotal(cfg: Config, it: Item): nat { NTotal(cfg, it.key, it.flags, |it.data|) }

  /** Enough shape for the transitions below to be defined at p. */
  predicate Has(s: State, p: Chunk) {
    && p in s.items && p.page in s.owner
    && s.owner[p.page] < |s.lru| == |s.free|
  }

  function ClassOf(s: State, p: Chunk): nat
    requires p.page in s.owner
  {
    s.owner[p.page]
  }

  ghost predicate SameShape(s: State, t: State) {
    && t.cfg == s.cfg && t.items.Keys == s.items.Keys && t.owner == s.owner
    && |t.lru| == |s.lru| && |t.free| == |s.free| && t.slabs == s.slabs
    && t.nextPage == s.nextPage && t.malloced == s.malloced
    && t.now == s.now && t.oldestLive == s.oldestLive
    && t.uploads == s.uploads
  }

  // ----- one reference more or less

  function Hold(s: State, p: Chunk): (t: State)
    requires Has(s, p)
    ensures SameShape(s, t)
  {
    s.(items := s.items[p := s.items[p].(refcount := s.items[p].refcount + 1)],
       holders := s.holders + multiset{p})
  }

  /** do_item_remove: the last reference puts the chunk on its free list (item_free,
      do_slabs_free). */
  function Release(s: State, p: Chunk): (t: State)
    requires Has(s, p)
    ensures SameShape(s, t)
  {
    var it := s.items[p];
    var h := s.holders - multiset{p};
    if it.refcount > 1 then s.(items := s.items[p := it.(refcount := it.refcount - 1)], holders := h)
    else
      var c := ClassOf(s, p);
      s.(items := s.items[p := it.(refcount := 0, clsid := 0, slabbed := true)],
         free := s.free[c := [p] + s.free[c]], holders := h)
  }

  // ----- in and out of the hash table and the LRU queue

  /** Everything do_item_unlink does before it drops the reference of the link, which
      from here on counts as an outside one. */
  function Detach(s: State, p: Chunk): (t: State)
    requires Has(s, p)
    ensures SameShape(s, t)
  {
    var it := s.items[p];
    var c := ClassOf(s, p);
    s.(items := s.items[p := it.(linked := false)],
       index := s.index - {it.key},
       lru := s.lru[c := Without(s.lru[c], p)],
       currItems := s.currItems - 1, currBytes := s.currBytes - ItemTotal(s.cfg, it),
       holders := s.holders + multiset{p})
  }

  /** do_item_unlink and do_item_unlink_nolock. */
  function Unlink(s: State, p: Chunk): (t: State)
    requires Has(s, p)
    ensures SameShape(s, t)
  {
    if s.items[p].linked then Release(Detach(s, p), p) else s
  }

  /** do_item_link. */
  function Link(s: State, p: Chunk): (t: State)
    requires Has(s, p)
    ensures SameShape(s, t)
  {
    var c := ClassOf(s, p);
    var id := if s.cfg.useCas then s.casId + 1 else s.casId;
    var it := s.items[p].(linked := true, time := s.now, refcount := s.items[p].refcount + 1,
                          cas := if s.cfg.useCas then id else 0);
    s.(items := s.items[p := it], index := s.index[it.key := p],
       lru := s.lru[c := [p] + s.lru[c]], casId := id,
       currItems := s.currItems + 1, currBytes := s.currBytes + ItemTotal(s.cfg, it))
  }

  /** do_item_replace. */
  function Replace(s: State, old_it: Chunk, new_it: Chunk): (t: State)
    requires Has(s, old_it) && Has(s, new_it)
    ensures SameShape(s, t)
  {
    Link(Unlink(s, old_it), new_it)
  }

  const ITEM_UPDATE_INTERVAL: int := 60

  /** current_time - ITEM_UPDATE_INTERVAL on a 32-bit unsigned clock. */
  function Staleness(now: nat): nat { (now - ITEM_UPDATE_INTERVAL) % 0x1_0000_0000 }

  /** do_item_update. */
  function Update(s: State, p: Chunk): (t: State)
    requires Has(s, p)
    ensures SameShape(s, t)
  {
    if s.items[p].time < Staleness(s.now) && s.items[p].linked then
      var c := ClassOf(s, p);
      s.(items := s.items[p := s.items[p].(time := s.now)],
         lru := s.lru[c := [p] + Without(s.lru[c], p)])
    else s
  }

  // ----- chunks from the slab allocator

  /** The chunks of a page of n, last one first: the order splitting leaves them in. */
  function Stack(page: nat, n: nat): (q: seq<Chunk>)
    ensures |q| == n && forall i :: 0 <= i < n ==> q[i] == At(page, n - 1 - i)
  {
    seq(n, i requires 0 <= i < n => At(page, n - 1 - i))
  }

  function Fresh(page: nat, n: nat): (m: map<Chunk, Item>)
    ensures forall p :: p in m <==> p.page == page && p.idx < n
    ensures forall p :: p in m ==> m[p] == ZERO.(slabbed := true)
  {
    map i | 0 <= i < n :: At(page, i) := ZERO.(slabbed := true)
  }

  /** Bytes do_slabs_newslab asks for. */
  function PageBytes(cfg: Config, c: nat): nat
    requires c < |cfg.classes|
  {
    if cfg.slabReassign then cfg.itemSizeMax else cfg.classes[c].size * cfg.classes[c].perslab
  }

  predicate RoomForPage(s: State, c: nat)
    requires c < |s.cfg.classes| && c < |s.slabs|
  {
    !(s.cfg.memLimit != 0 && s.malloced + PageBytes(s.cfg, c) > s.cfg.memLimit && |s.slabs[c]| > 0)
  }

  /** A page enters class c and is split into its free list. */
  function AddPage(s: State, g: nat, c: nat): (t: State)
    requires c < |s.cfg.classes| == |s.slabs| == |s.free| == |s.lru|
  {
    var n := s.cfg.classes[c].perslab;
    s.(items := s.items + Fresh(g, n),
       owner := s.owner[g := c],
       free := s.free[c := Stack(g, n) + s.free[c]],
       slabs := s.slabs[c := s.slabs[c] + [g]])
  }

  /** A successful do_slabs_newslab. */
  function NewPage(s: State, c: nat): (t: State)
    requires c < |s.cfg.classes| == |s.slabs| == |s.free| == |s.lru|
  {
    AddPage(s, s.nextPage, c).(nextPage := s.nextPage + 1, malloced := s.malloced + PageBytes(s.cfg, c))
  }

  /** What do_item_alloc writes into the chunk it returns.  The time stamp and the cas
      word keep whatever the memory held; the data area too, here given as `data`. */
  function Initialised(it: Item, c: nat, key: Key, flags: int, exptime: nat, data: string): Item {
    it.(key := key, flags := flags, data := data, exptime := exptime,
        refcount := 1, linked := false, slabbed := false, clsid := c)
  }

  /** The head of the free list becomes a held chunk. */
  function Claim(s: State, c: nat, key: Key, flags: int, exptime: nat, data: string): State
    requires c < |s.free| && s.free[c] != [] && s.free[c][0] in s.items
  {
    var p := s.free[c][0];
    s.(items := s.items[p := Initialised(s.items[p], c, key, flags, exptime, data)],
       free := s.free[c := s.free[c][1..]],
       holders := s.holders + multiset{p})
  }

  /** A linked chunk nobody holds is taken out and becomes a held chunk with new content. */
  function Steal(s: State, p: Chunk, key: Key, flags: int, exptime: nat, data: string): (t: State)
    requires Has(s, p)
    ensures SameShape(s, t)
  {
    var d := Detach(s, p);
    d.(items := d.items[p := Initialised(d.items[p], ClassOf(s, p), key, flags, exptime, data)])
  }

  // ----- the page mover

  /** A free chunk, or one the mover itself has just unlinked, is emptied. */
  function Mark(s: State, p: Chunk): (t: State)
    requires Has(s, p)
    ensures SameShape(s, t)
  {
    var c := ClassOf(s, p);
    s.(items := s.items[p := s.items[p].(refcount := 0, linked := false, slabbed := false, clsid := MARKED)],
       free := s.free[c := Without(s.free[c], p)],
       holders := s.holders - multiset{p})
  }

  /** The cursor moves on; at the end of the page it starts again unless nothing was busy. */
  function Advance(s: State, wasBusy: bool): (t: State)
    requires s.rebal.src < |s.cfg.classes|
    ensures SameShape(s, t)
  {
    var r := s.rebal;
    var pos := r.pos + 1;
    var busy := if wasBusy then r.busy + 1 else r.busy;
    s.(rebal := if pos < s.cfg.classes[r.src].perslab then r.(pos := pos, busy := busy)
                else if busy > 0 then r.(pos := 0, busy := 0)
                else r.(pos := pos, done := true))
  }

  /** One chunk of slab_rebalance_move. */
  function MoveChunk(s: State, blocked: set<Key>): (t: State)
    requires s.rebal.src < |s.cfg.classes| && Has(s, At(s.rebal.page, s.rebal.pos))
    ensures SameShape(s, t)
  {
    var p := At(s.rebal.page, s.rebal.pos);
    var it := s.items[p];
    if it.clsid == MARKED then Advance(s, false)
    else if it.key in blocked then Advance(s, true)
    else if it.refcount == 0 && it.slabbed then Advance(Mark(s, p), false)
    else if it.refcount == 1 && it.linked then Advance(Mark(Detach(s, p), p), false)
    else Advance(s, true)
  }

  /** A page leaves its class: the last page of the class takes its place in slab_list. */
  function DropPage(s: State): (t: State)
    requires s.rebal.src < |s.slabs|
  {
    var r := s.rebal;
    var l := s.slabs[r.src];
    s.(items := map p | p in s.items && p.page != r.page :: s.items[p],
       owner := s.owner - {r.page},
       slabs := s.slabs[r.src := if |l| < 2 then [] else [l[|l| - 1]] + l[1..|l| - 1]],
       rebal := Rebalance(0, 0, 0, 0, 0, r.busy, false))
  }

  /** slab_rebalance_finish. */
  function FinishMove(s: State): (t: State)
    requires s.rebal.src < |s.slabs| && s.rebal.dst < |s.cfg.classes| == |s.slabs| == |s.free| == |s.lru|
  {
    AddPage(DropPage(s), s.rebal.page, s.rebal.dst)
  }

  datatype ReassignResult = Ok | Running | BadClass | NoSpare | SrcDstSame

  /** do_slabs_reassign with an explicit source class. */
  function Reassign(s: State, src: int, dst: int): (State, ReassignResult)
    requires |s.slabs| >= 1
  {
    if s.rebal.signal != 0 then (s, Running)
    else if src == dst then (s, SrcDstSame)
    else if src < 1 || src >= |s.slabs| || dst < 1 || dst >= |s.slabs| then (s, BadClass)
    else if |s.slabs[src]| < 2 then (s, NoSpare)
    else (s.(rebal := s.rebal.(src := src, dst := dst, signal := 1)), Ok)
  }

  /** slab_rebalance_start; on an error the rebalancer thread withdraws the request. */
  function StartMove(s: State): State {
    var r := s.rebal;
    if r.src < 1 || r.src >= |s.slabs| || r.dst < 1 || r.dst >= |s.slabs| || r.src == r.dst || |s.slabs[r.src]| < 2
    then s.(rebal := r.(signal := 0))
    else s.(rebal := r.(signal := 2, page := s.slabs[r.src][0], pos := 0, done := false))
  }
}
