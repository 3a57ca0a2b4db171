/** The LRU queues of items.c and the free lists of slabs.c: head, tail and size arrays,
    and the next and prev fields of the items, which both kinds of list use. */
module ItemLists {
  import opened Seqs
  import opened CacheState
  import opened Links

  function Last(q: seq<Chunk>): Ptr { if q == [] then None else Some(q[|q| - 1]) }

  class ItemLists {
    const heads: array<Ptr>
    const tails: array<Ptr>
    const sizes: array<nat>
    const slots: array<Ptr>
    const slCurr: array<nat>
    var next: map<Chunk, Ptr>
    var prev: map<Chunk, Ptr>
    ghost var lru: seq<seq<Chunk>>
    ghost var free: seq<seq<Chunk>>

    ghost const Repr: set<object> := {this, heads, tails, sizes, slots, slCurr}

    ghost predicate Valid()
      reads this, heads, tails, sizes, slots, slCurr
    {
      && heads != tails && heads != slots && tails != slots && sizes != slCurr
      && |lru| == |free| == heads.Length == tails.Length == sizes.Length == slots.Length == slCurr.Length
      && Apart(lru + free)
      && AllDll(heads[..] + slots[..], next, prev, lru + free)
      && (forall c :: 0 <= c < |lru| ==> tails[c] == Last(lru[c]) && sizes[c] == |lru[c]|)
      && (forall c :: 0 <= c < |free| ==> slCurr[c] == |free[c]|)
    }

    constructor (n: nat)
      ensures Valid() && fresh(Repr)
      ensures lru == free == seq(n, i => [])
    {
      heads := new Ptr[n](_ => None);
      tails := new Ptr[n](_ => None);
      sizes := new nat[n](_ => 0);
      slots := new Ptr[n](_ => None);
      slCurr := new nat[n](_ => 0);
      next, prev := map[], map[];
      lru := seq(n, i => []);
      free := seq(n, i => []);
    }

    method ItemLinkQ(it: Chunk, c: nat)
      requires Valid() && c < |lru| && Absent(lru + free, it)
      modifies `next, `prev, `lru, heads, tails, sizes
      ensures Valid()
      ensures lru == old(lru)[c := [it] + old(lru)[c]]
    {
      hide Apart, AllDll, Absent;
      ghost var was := heads[..];
      QueuePush(was, slots[..], next, prev, lru, free, c, it);
      prev := prev[it := None];
      next := next[it := heads[c]];
      if next[it].Some? { prev := prev[next[it].value := Some(it)]; }
      heads[c] := Some(it);
      if tails[c].None? { tails[c] := Some(it); }
      sizes[c] := sizes[c] + 1;
      assert heads[..] == was[c := Some(it)];
      lru := lru[c := [it] + lru[c]];
    }

    method ItemUnlinkQ(it: Chunk, c: nat)
      requires Valid() && c < |lru| && it in lru[c]
      modifies `next, `prev, `lru, heads, tails, sizes
      ensures Valid()
      ensures lru == old(lru)[c := Without(old(lru)[c], it)]
    {
      hide Apart, AllDll, Without;
      AllDllCut(heads[..] + slots[..], next, prev, lru + free, c, it);
      ghost var was := heads[..];
      LastWithout(lru[c], it, heads[c], next, prev) by { HeadOf(heads[..] + slots[..], next, prev, lru + free, c); }
      ghost var q := Without(lru[c], it);
      if heads[c] == Some(it) { heads[c] := next[it]; }
      if tails[c] == Some(it) { tails[c] := prev[it]; }
      if next[it].Some? { prev := prev[next[it].value := prev[it]]; }
      if prev[it].Some? { next := next[prev[it].value := next[it]]; }
      sizes[c] := sizes[c] - 1;
      assert heads[..] == was[c := heads[c]];
      LeftUpdate(was, slots[..], c, heads[c]);
      LeftUpdate(lru, free, c, q);
      lru := lru[c := q];
    }

    /** do_slabs_free puts a chunk in front of the free list of its class. */
    method PushSlot(it: Chunk, c: nat)
      requires Valid() && c < |lru| && Absent(lru + free, it)
      modifies `next, `prev, `free, slots, slCurr
      ensures Valid()
      ensures free == old(free)[c := [it] + old(free)[c]]
    {
      hide Apart, AllDll, Absent;
      ghost var n := |lru|;
      AllDllPush(heads[..] + slots[..], next, prev, lru + free, n + c, it);
      ghost var was := slots[..];
      prev := prev[it := None];
      next := next[it := slots[c]];
      if next[it].Some? { prev := prev[next[it].value := Some(it)]; }
      slots[c] := Some(it);
      slCurr[c] := slCurr[c] + 1;
      assert slots[..] == was[c := Some(it)];
      RightUpdate(heads[..], was, c, Some(it));
      RightUpdate(lru, free, c, [it] + free[c]);
      free := free[c := [it] + free[c]];
    }

    /** do_slabs_alloc returns the first chunk of a free list that is not empty. */
    method PopSlot(c: nat) returns (it: Chunk)
      requires Valid() && c < |lru| && free[c] != []
      modifies `next, `prev, `free, slots, slCurr
      ensures Valid()
      ensures it == old(free)[c][0] && free == old(free)[c := old(free)[c][1..]]
    {
      hide Apart, AllDll, Without;
      ghost var n := |lru|;
      HeadOf(heads[..] + slots[..], next, prev, lru + free, n + c);
      it := slots[c].value;
      AllDllCut(heads[..] + slots[..], next, prev, lru + free, n + c, it);
      FirstOf(free[c]);
      ghost var was := slots[..];
      slots[c] := next[it];
      if next[it].Some? { prev := prev[next[it].value := None]; }
      slCurr[c] := slCurr[c] - 1;
      assert slots[..] == was[c := slots[c]];
      RightUpdate(heads[..], was, c, slots[c]);
      RightUpdate(lru, free, c, free[c][1..]);
      free := free[c := free[c][1..]];
    }

    /** slab_rebalance_move takes a chunk out of the middle of the free list. */
    method CutSlot(it: Chunk, c: nat)
      requires Valid() && c < |lru| && it in free[c]
      modifies `next, `prev, `free, slots, slCurr
      ensures Valid()
      ensures free == old(free)[c := Without(old(free)[c], it)]
    {
      hide Apart, AllDll, Without;
      ghost var n := |lru|;
      AllDllCut(heads[..] + slots[..], next, prev, lru + free, n + c, it);
      LastWithout(free[c], it, slots[c], next, prev) by {
        HeadOf(heads[..] + slots[..], next, prev, lru + free, n + c);
      }
      ghost var was := slots[..];
      ghost var q := Without(free[c], it);
      if slots[c] == Some(it) { slots[c] := next[it]; }
      if next[it].Some? { prev := prev[next[it].value := prev[it]]; }
      if prev[it].Some? { next := next[prev[it].value := next[it]]; }
      slCurr[c] := slCurr[c] - 1;
      assert slots[..] == was[c := slots[c]];
      RightUpdate(heads[..], was, c, slots[c]);
      RightUpdate(lru, free, c, q);
      free := free[c := q];
    }
  }

  lemma ValidSizes(l: ItemLists)
    requires l.Valid()
    ensures |l.lru| == |l.free| == l.slCurr.Length == l.tails.Length == l.heads.Length
    ensures forall c :: 0 <= c < |l.lru| ==> l.slCurr[c] == |l.free[c]| && l.tails[c] == Last(l.lru[c])
  {
  }

  lemma ValidPrev(l: ItemLists, c: nat, i: nat)
    requires l.Valid() && c < |l.lru| && i < |l.lru[c]|
    ensures l.lru[c][i] in l.prev && l.prev[l.lru[c][i]] == Before(l.lru[c], i)
    ensures l.lru[c][i] in l.next && l.next[l.lru[c][i]] == Nth(l.lru[c], i + 1)
  {
    assert Dll((l.heads[..] + l.slots[..])[c], l.next, l.prev, (l.lru + l.free)[c]);
  }

  lemma ValidHead(l: ItemLists, c: nat)
    requires l.Valid() && c < |l.lru|
    ensures c < l.heads.Length && l.heads[c] == Nth(l.lru[c], 0)
  {
    assert Dll((l.heads[..] + l.slots[..])[c], l.next, l.prev, (l.lru + l.free)[c]);
  }

  /** A chunk becomes the head of a queue. */
  lemma QueuePush(heads: seq<Ptr>, slots: seq<Ptr>, next: map<Chunk, Ptr>, prev: map<Chunk, Ptr>,
                  lru: seq<seq<Chunk>>, free: seq<seq<Chunk>>, c: nat, p: Chunk)
    requires |heads| == |lru| && AllDll(heads + slots, next, prev, lru + free) && Apart(lru + free)
    requires Absent(lru + free, p) && c < |lru|
    ensures heads[c] == Nth(lru[c], 0) && (heads[c].Some? ==> heads[c].value != p)
    ensures AllDll(heads[c := Some(p)] + slots, PushNext(next, heads[c], p), PushPrev(prev, heads[c], p),
        lru[c := [p] + lru[c]] + free)
    ensures Apart(lru[c := [p] + lru[c]] + free)
  {
    hide Apart, AllDll;
    AllDllPush(heads + slots, next, prev, lru + free, c, p);
    HeadOf(heads + slots, next, prev, lru + free, c);
    LeftUpdate(heads, slots, c, Some(p));
    LeftUpdate(lru, free, c, [p] + lru[c]);
    assert (lru + free)[c] == lru[c] && (heads + slots)[c] == heads[c];
  }

  lemma LeftUpdate<T>(a: seq<T>, b: seq<T>, c: nat, v: T)
    requires c < |a|
    ensures a[c := v] + b == (a + b)[c := v]
  {
  }

  lemma RightUpdate<T>(a: seq<T>, b: seq<T>, c: nat, v: T)
    requires c < |b|
    ensures a + b[c := v] == (a + b)[|a| + c := v]
  {
  }

  lemma HeadOf(heads: seq<Ptr>, next: map<Chunk, Ptr>, prev: map<Chunk, Ptr>, lists: seq<seq<Chunk>>, c: nat)
    requires AllDll(heads, next, prev, lists) && Apart(lists) && c < |lists|
    ensures c < |heads| && NoDup(lists[c]) && heads[c] == Nth(lists[c], 0) && Dll(heads[c], next, prev, lists[c])
  {
  }

  lemma FirstOf(q: seq<Chunk>)
    requires q != []
    ensures IndexOf(q, q[0]) == 0 && Without(q, q[0]) == q[1..]
  {
    WithoutHead(q);
  }

  /** The tail moves exactly when the last item goes. */
  lemma LastWithout(q: seq<Chunk>, p: Chunk, head: Ptr, next: map<Chunk, Ptr>, prev: map<Chunk, Ptr>)
    requires Dll(head, next, prev, q) && p in q && NoDup(q)
    ensures p in next && p in prev && |Without(q, p)| == |q| - 1
    ensures Last(Without(q, p)) == if Last(q) == Some(p) then prev[p] else Last(q)
    ensures next[p] != Some(p) && prev[p] != Some(p)
  {
    hide Dll, NoDup, Without;
    DllWithout(head, next, prev, q, p);
    LastCut(q, p);
  }

  lemma LastCut(q: seq<Chunk>, p: Chunk)
    requires p in q && NoDup(q)
    ensures var i := IndexOf(q, p);
      && Last(Without(q, p)) == (if Last(q) == Some(p) then Before(q, i) else Last(q))
      && Nth(q, i + 1) != Some(p) && Before(q, i) != Some(p)
  {
    var i := IndexOf(q, p);
    assert q[i] == p;
  }
}
