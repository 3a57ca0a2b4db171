/** The invariant that ties a chunk's free-list, linked and held status to the table,
    the queues, the counters and the reference counts.  Each part names only the fields it depends on. */
module CacheInvariant {
  import opened Seqs
  import opened SlabClasses
  import opened CacheState

  ghost predicate Shape(s: State) {
    && Geometry(s.cfg.classes, s.cfg.itemSizeMax)
    && |s.lru| == |s.free| == |s.slabs| == |s.cfg.classes|
  }

  /** Every page belongs to one class, and the chunks in memory are exactly the chunks
      of the pages. */
  ghost predicate Pages(classes: seq<SlabClass>, owner: map<nat, nat>, slabs: seq<seq<nat>>,
                        nextPage: nat, chunks: set<Chunk>)
  {
    && |slabs| == |classes|
    && (forall g :: g in owner ==> g < nextPage && 1 <= owner[g] < |slabs|)
    && (forall c :: 0 <= c < |slabs| ==> NoDup(slabs[c]))
    && (forall c, g :: 0 <= c < |slabs| ==> (g in slabs[c] <==> g in owner && owner[g] == c))
    && (forall p :: p in chunks <==> p.page in owner && p.idx < classes[owner[p.page]].perslab)
  }

  /** Every list holds chunks of its own class, each once. */
  ghost predicate Lists(lists: seq<seq<Chunk>>, owner: map<nat, nat>, chunks: set<Chunk>) {
    && (forall c :: 0 <= c < |lists| ==> NoDup(lists[c]))
    && (forall c, p :: 0 <= c < |lists| && p in lists[c] ==>
          p in chunks && p.page in owner && owner[p.page] == c)
  }

  /** One chunk on its own: the reference count is one for the link plus one per outside
      holder, and the chunk is free, or linked, or only held, or emptied by the mover. */
  predicate Accounted(it: Item, held: nat, c: nat) {
    && it.refcount == (if it.linked then 1 else 0) + held
    && (it.slabbed ==> it.refcount == 0 && it.clsid == 0)
    && (it.clsid == MARKED ==> it.refcount == 0 && !it.slabbed)
    && (!it.slabbed && it.clsid != MARKED ==> it.refcount > 0 && it.clsid == c)
    && (it.refcount > 0 ==> |it.data| >= 2)
  }

  ghost predicate Accounts(items: map<Chunk, Item>, holders: multiset<Chunk>, owner: map<nat, nat>) {
    && (forall p :: p in items ==> p.page in owner && Accounted(items[p], holders[p], owner[p.page]))
    && (forall p :: p in holders ==> p in items)
  }

  ghost predicate Uploads(items: map<Chunk, Item>, holders: multiset<Chunk>, uploads: set<Chunk>) {
    forall p :: p in uploads ==> p in items && !items[p].linked && holders[p] == 1
  }

  /** The LRU queues hold exactly the linked chunks, the free lists the slabbed ones. */
  ghost predicate Queued(items: map<Chunk, Item>, owner: map<nat, nat>, lru: seq<seq<Chunk>>) {
    forall p :: p in items ==>
      p.page in owner && owner[p.page] < |lru| && (items[p].linked <==> p in lru[owner[p.page]])
  }

  ghost predicate Freed(items: map<Chunk, Item>, owner: map<nat, nat>, free: seq<seq<Chunk>>) {
    forall p :: p in items ==>
      p.page in owner && owner[p.page] < |free| && (items[p].slabbed <==> p in free[owner[p.page]])
  }

  /** The table finds exactly the linked chunks, each under its own key. */
  ghost predicate Index(items: map<Chunk, Item>, index: map<Key, Chunk>) {
    && (forall k :: k in index ==> index[k] in items && items[index[k]].linked && items[index[k]].key == k)
    && (forall p :: p in items && items[p].linked ==> items[p].key in index && index[items[p].key] == p)
  }

  /** The LRU queues run from recent to old. */
  ghost predicate Ordered(items: map<Chunk, Item>, lru: seq<seq<Chunk>>, now: nat) {
    && (forall c, i :: 0 <= c < |lru| && 0 <= i < |lru[c]| ==>
          lru[c][i] in items && items[lru[c][i]].time <= now)
    && (forall c, i, j :: 0 <= c < |lru| && 0 <= i < j < |lru[c]| ==>
          items[lru[c][i]].time >= items[lru[c][j]].time)
  }

  ghost predicate Clock(now: nat, oldestLive: nat) { 2 <= now && oldestLive < now }

  /** Linked items carry distinct cas ids that have been issued. */
  ghost predicate CasIds(items: map<Chunk, Item>, useCas: bool, casId: nat) {
    useCas ==>
      && (forall p :: p in items && items[p].linked ==> 1 <= items[p].cas <= casId)
      && (forall p, q :: (p in items && q in items && p != q && items[p].linked && items[q].linked) ==>
            items[p].cas != items[q].cas)
  }

  ghost function LinkedBytes(cfg: Config, items: map<Chunk, Item>): map<Chunk, nat> {
    map p | p in items && items[p].linked :: ItemTotal(cfg, items[p])
  }

  ghost predicate Counters(s: State) {
    && s.currItems == |s.index|
    && s.currBytes == Total(LinkedBytes(s.cfg, s.items))
  }

  predicate Emptied(items: map<Chunk, Item>, p: Chunk) { p in items && items[p].clsid == MARKED }

  /** The page mover: while it has met no busy chunk, everything behind it is empty; and
      only chunks of the page it drains are ever marked. */
  ghost predicate Mover(r: Rebalance, slabs: seq<seq<nat>>, classes: seq<SlabClass>, items: map<Chunk, Item>) {
    && |slabs| == |classes|
    && (forall p :: Emptied(items, p) ==> r.signal == 2 && p.page == r.page)
    && (r.signal == 2 ==>
          && 1 <= r.src < |slabs| && 1 <= r.dst < |slabs| && r.src != r.dst
          && |slabs[r.src]| >= 2 && slabs[r.src][0] == r.page
          && r.pos <= classes[r.src].perslab
          && (r.done <==> r.pos == classes[r.src].perslab)
          && (r.done ==> r.busy == 0)
          && (r.busy == 0 ==> forall i :: 0 <= i < r.pos ==> Emptied(items, At(r.page, i))))
    && (r.signal != 2 ==> r.busy == 0 && !r.done)
  }

  function NonEmpty(slabs: seq<seq<nat>>): set<nat> { set c | 0 <= c < |slabs| && slabs[c] != [] }

  /** Only the first page of a class may go beyond the memory limit. */
  ghost predicate Memory(cfg: Config, slabs: seq<seq<nat>>, malloced: nat) {
    cfg.memLimit != 0 ==> malloced <= cfg.memLimit + |NonEmpty(slabs)| * cfg.itemSizeMax
  }

  ghost predicate Inv(s: State) {
    var State(cfg, items, index, lru, free, slabs, owner, nextPage, malloced, now, oldestLive, casId, _, _,
        rebal, holders, uploads) := s;
    && Shape(s)
    && Pages(cfg.classes, owner, slabs, nextPage, items.Keys)
    && Lists(lru, owner, items.Keys)
    && Lists(free, owner, items.Keys)
    && Accounts(items, holders, owner)
    && Uploads(items, holders, uploads)
    && Queued(items, owner, lru)
    && Freed(items, owner, free)
    && Index(items, index)
    && Ordered(items, lru, now)
    && Clock(now, oldestLive)
    && CasIds(items, cfg.useCas, casId)
    && Counters(s)
    && Mover(rebal, slabs, cfg.classes, items)
    && Memory(cfg, slabs, malloced)
  }
}
