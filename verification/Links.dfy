/** Pointers between chunks: h_next chains and next/prev lists as maps from chunk to
    chunk, and what they spell as sequences. */
module Links {
  import opened Seqs
  import opened CacheState

  type Ptr = Option<Chunk>

  /** Following h_next from head visits exactly the chunks of q, in order. */
  ghost predicate Spells(head: Ptr, next: map<Chunk, Ptr>, q: seq<Chunk>) {
    && head == Nth(q, 0)
    && (forall i :: 0 <= i < |q| ==> q[i] in next && next[q[i]] == Nth(q, i + 1))
  }

  function Nth(q: seq<Chunk>, i: nat): Ptr { if i < |q| then Some(q[i]) else None }

  lemma SpellsFrame(head: Ptr, next: map<Chunk, Ptr>, q: seq<Chunk>, p: Chunk, v: Ptr)
    requires Spells(head, next, q) && p !in q
    ensures Spells(head, next[p := v], q)
  {
  }

  lemma SpellsPush(head: Ptr, next: map<Chunk, Ptr>, q: seq<Chunk>, p: Chunk)
    requires Spells(head, next, q) && p !in q
    ensures Spells(Some(p), next[p := head], [p] + q)
  {
    var w := [p] + q;
    forall i | 0 <= i < |w| ensures w[i] in next[p := head] && next[p := head][w[i]] == Nth(w, i + 1) {
      if i > 0 { assert w[i] == q[i - 1] && Nth(w, i + 1) == Nth(q, i); }
    }
  }

  lemma SpellsCut(head: Ptr, next: map<Chunk, Ptr>, q: seq<Chunk>, i: nat)
    requires Spells(head, next, q) && i < |q| && NoDup(q)
    ensures var w := q[..i] + q[i + 1..];
      var cleared := next[q[i] := None];
      if i == 0 then Spells(next[q[0]], cleared, w)
      else Spells(head, cleared[q[i - 1] := next[q[i]]], w)
  {
    var w := q[..i] + q[i + 1..];
    var next' := if i == 0 then next[q[i] := None] else next[q[i] := None][q[i - 1] := next[q[i]]];
    forall j | 0 <= j < |w| ensures w[j] in next' && next'[w[j]] == Nth(w, j + 1) {
      var old_j := if j < i then j else j + 1;
      assert w[j] == q[old_j] && q[old_j] != q[i];
      if j + 1 != i { assert Nth(w, j + 1) == Nth(q, old_j + 1); }
    }
  }

  // ----- doubly linked lists

  function Before(q: seq<Chunk>, i: nat): Ptr
    requires i <= |q|
  {
    if i == 0 then None else Some(q[i - 1])
  }

  /** From head, `next` runs through q and `prev` runs back. */
  ghost predicate Dll(head: Ptr, next: map<Chunk, Ptr>, prev: map<Chunk, Ptr>, q: seq<Chunk>) {
    && head == Nth(q, 0)
    && (forall i :: 0 <= i < |q| ==> q[i] in next && next[q[i]] == Nth(q, i + 1))
    && (forall i :: 0 <= i < |q| ==> q[i] in prev && prev[q[i]] == Before(q, i))
  }

  /** The writes of item_link_q and do_slabs_free to the fields of items. */
  function PushNext(next: map<Chunk, Ptr>, head: Ptr, p: Chunk): map<Chunk, Ptr> { next[p := head] }

  function PushPrev(prev: map<Chunk, Ptr>, head: Ptr, p: Chunk): map<Chunk, Ptr> {
    if head.Some? then prev[p := None][head.value := Some(p)] else prev[p := None]
  }

  /** The writes of item_unlink_q: `n` and `b` are the neighbours of the item taken out. */
  function CutNext(next: map<Chunk, Ptr>, n: Ptr, b: Ptr): map<Chunk, Ptr> {
    if b.Some? then next[b.value := n] else next
  }

  function CutPrev(prev: map<Chunk, Ptr>, n: Ptr, b: Ptr): map<Chunk, Ptr> {
    if n.Some? then prev[n.value := b] else prev
  }

  lemma DllPush(head: Ptr, next: map<Chunk, Ptr>, prev: map<Chunk, Ptr>, q: seq<Chunk>, p: Chunk)
    requires Dll(head, next, prev, q) && p !in q && NoDup(q)
    ensures Dll(Some(p), PushNext(next, head, p), PushPrev(prev, head, p), [p] + q)
  {
    var w := [p] + q;
    var next', prev' := PushNext(next, head, p), PushPrev(prev, head, p);
    forall i | 0 <= i < |w|
      ensures w[i] in next' && next'[w[i]] == Nth(w, i + 1) && w[i] in prev' && prev'[w[i]] == Before(w, i)
    {
      if i > 0 { assert w[i] == q[i - 1] && Nth(w, i + 1) == Nth(q, i); }
      if i > 1 { assert w[i] != q[0] && Before(w, i) == Before(q, i - 1); }
    }
  }

  lemma NthCut(q: seq<Chunk>, i: nat, m: nat)
    requires i < |q|
    ensures Nth(q[..i] + q[i + 1..], m) == if m < i then Nth(q, m) else Nth(q, m + 1)
  {
  }

  lemma Only(q: seq<Chunk>, m: nat)
    requires m < |q| && NoDup(q)
    ensures forall k :: 0 <= k < |q| && k != m ==> q[k] != q[m]
  {
  }

  lemma CutForward(next: map<Chunk, Ptr>, q: seq<Chunk>, i: nat)
    requires i < |q| && NoDup(q) && forall j :: 0 <= j < |q| ==> q[j] in next && next[q[j]] == Nth(q, j + 1)
    ensures var w := q[..i] + q[i + 1..]; var next' := CutNext(next, Nth(q, i + 1), Before(q, i));
      forall j :: 0 <= j < |w| ==> w[j] in next' && next'[w[j]] == Nth(w, j + 1)
  {
    hide NoDup;
    var w := q[..i] + q[i + 1..];
    var next' := CutNext(next, Nth(q, i + 1), Before(q, i));
    if i > 0 { Only(q, i - 1); }
    forall j | 0 <= j < |w| ensures w[j] in next' && next'[w[j]] == Nth(w, j + 1) {
      NthCut(q, i, j + 1);
      assert w[j] == q[if j < i then j else j + 1];
    }
  }

  lemma CutBackward(prev: map<Chunk, Ptr>, q: seq<Chunk>, i: nat)
    requires i < |q| && NoDup(q) && forall j :: 0 <= j < |q| ==> q[j] in prev && prev[q[j]] == Before(q, j)
    ensures var w := q[..i] + q[i + 1..]; var prev' := CutPrev(prev, Nth(q, i + 1), Before(q, i));
      forall j :: 0 <= j < |w| ==> w[j] in prev' && prev'[w[j]] == Before(w, j)
  {
    var w := q[..i] + q[i + 1..];
    var prev' := CutPrev(prev, Nth(q, i + 1), Before(q, i));
    forall j | 0 <= j < |w| ensures w[j] in prev' && prev'[w[j]] == Before(w, j) {
      var k := if j < i then j else j + 1;
      assert w[j] == q[k];
      if j != i { assert Before(w, j) == Before(q, k) && (i + 1 < |q| ==> q[i + 1] != q[k]); }
    }
  }

  lemma DllCut(head: Ptr, next: map<Chunk, Ptr>, prev: map<Chunk, Ptr>, q: seq<Chunk>, i: nat)
    requires Dll(head, next, prev, q) && i < |q| && NoDup(q)
    ensures q[i] in next && q[i] in prev && next[q[i]] == Nth(q, i + 1) && prev[q[i]] == Before(q, i)
    ensures var n, b := next[q[i]], prev[q[i]];
      Dll(if head == Some(q[i]) then n else head, CutNext(next, n, b), CutPrev(prev, n, b), q[..i] + q[i + 1..])
  {
    hide NoDup;
    CutForward(next, q, i);
    CutBackward(prev, q, i);
    FirstCut(q, i);
  }

  lemma FirstCut(q: seq<Chunk>, i: nat)
    requires i < |q| && NoDup(q)
    ensures Nth(q[..i] + q[i + 1..], 0) == if Nth(q, 0) == Some(q[i]) then Nth(q, i + 1) else Nth(q, 0)
  {
  }

  ghost predicate AllDll(heads: seq<Ptr>, next: map<Chunk, Ptr>, prev: map<Chunk, Ptr>, lists: seq<seq<Chunk>>) {
    |heads| == |lists| && forall c :: 0 <= c < |lists| ==> Dll(heads[c], next, prev, lists[c])
  }

  /** Writes to the fields of chunks that are in none of the lists leave them alone. */
  lemma AllDllFrame(heads: seq<Ptr>, next: map<Chunk, Ptr>, prev: map<Chunk, Ptr>, lists: seq<seq<Chunk>>,
                    next': map<Chunk, Ptr>, prev': map<Chunk, Ptr>)
    requires AllDll(heads, next, prev, lists)
    requires forall c, p :: 0 <= c < |lists| && p in lists[c] ==> 
      && (p in next ==> p in next' && next'[p] == next[p])
      && (p in prev ==> p in prev' && prev'[p] == prev[p])
    ensures AllDll(heads, next', prev', lists)
  {
    forall c | 0 <= c < |lists| ensures Dll(heads[c], next', prev', lists[c]) {
      var q := lists[c];
      assert Dll(heads[c], next, prev, q);
      forall i | 0 <= i < |q|
        ensures q[i] in next' && next'[q[i]] == Nth(q, i + 1) && q[i] in prev' && prev'[q[i]] == Before(q, i)
      {
        assert q[i] in lists[c];
      }
    }
  }

  /** No chunk sits in two places. */
  ghost predicate Apart(lists: seq<seq<Chunk>>) {
    && (forall c :: 0 <= c < |lists| ==> NoDup(lists[c]))
    && (forall c, d, p :: 0 <= c < |lists| && 0 <= d < |lists| && p in lists[c] && p in lists[d] ==> c == d)
  }

  ghost predicate Absent(lists: seq<seq<Chunk>>, p: Chunk) { forall c :: 0 <= c < |lists| ==> p !in lists[c] }

  lemma AllDllPush(heads: seq<Ptr>, next: map<Chunk, Ptr>, prev: map<Chunk, Ptr>, lists: seq<seq<Chunk>>, c: nat,
                   p: Chunk)
    requires AllDll(heads, next, prev, lists) && Apart(lists) && Absent(lists, p) && c < |lists|
    ensures |heads| == |lists|
    ensures AllDll(heads[c := Some(p)], PushNext(next, heads[c], p), PushPrev(prev, heads[c], p),
        lists[c := [p] + lists[c]])
    ensures Apart(lists[c := [p] + lists[c]])
  {
    var q := lists[c];
    assert Dll(heads[c], next, prev, q);
    DllPush(heads[c], next, prev, q, p);
    AllDllFrame(heads[c := None], next, prev, lists[c := []], PushNext(next, heads[c], p), PushPrev(prev, heads[c], p));
    forall d | 0 <= d < |lists| && d != c
      ensures Dll(heads[d], PushNext(next, heads[c], p), PushPrev(prev, heads[c], p), lists[d])
    {
      assert heads[c := None][d] == heads[d] && lists[c := []][d] == lists[d];
    }
  }

  lemma ApartCut(lists: seq<seq<Chunk>>, c: nat, p: Chunk)
    requires Apart(lists) && c < |lists|
    ensures Apart(lists[c := Without(lists[c], p)])
  {
    hide NoDup, Without;
    assert NoDup(lists[c]);
    WithoutNoDup(lists[c], p);
    var lists' := lists[c := Without(lists[c], p)];
    forall d, e, r | 0 <= d < |lists| && 0 <= e < |lists| && r in lists'[d] && r in lists'[e]
      ensures d == e
    {
      assert r in lists[d] && r in lists[e];
    }
  }

  lemma DllWithout(head: Ptr, next: map<Chunk, Ptr>, prev: map<Chunk, Ptr>, q: seq<Chunk>, p: Chunk)
    requires Dll(head, next, prev, q) && p in q && NoDup(q)
    ensures p in next && p in prev
    ensures var i := IndexOf(q, p); next[p] == Nth(q, i + 1) && prev[p] == Before(q, i)
    ensures next[p].Some? ==> next[p].value in q
    ensures prev[p].Some? ==> prev[p].value in q
    ensures Dll(if head == Some(p) then next[p] else head,
                CutNext(next, next[p], prev[p]), CutPrev(prev, next[p], prev[p]), Without(q, p))
  {
    hide Dll;
    DllCut(head, next, prev, q, IndexOf(q, p));
  }

  lemma AllDllCut(heads: seq<Ptr>, next: map<Chunk, Ptr>, prev: map<Chunk, Ptr>, lists: seq<seq<Chunk>>, c: nat,
                  p: Chunk)
    requires AllDll(heads, next, prev, lists) && Apart(lists) && c < |lists| && p in lists[c]
    ensures |heads| == |lists| && p in next && p in prev
    ensures var i := IndexOf(lists[c], p); next[p] == Nth(lists[c], i + 1) && prev[p] == Before(lists[c], i)
    ensures next[p].Some? ==> next[p].value in lists[c]
    ensures prev[p].Some? ==> prev[p].value in lists[c]
    ensures var n, b := next[p], prev[p];
      AllDll(heads[c := if heads[c] == Some(p) then n else heads[c]], CutNext(next, n, b), CutPrev(prev, n, b),
             lists[c := Without(lists[c], p)])
    ensures Apart(lists[c := Without(lists[c], p)])
  {
    hide Dll, NoDup, Without;
    assert Dll(heads[c], next, prev, lists[c]) && NoDup(lists[c]);
    DllWithout(heads[c], next, prev, lists[c], p);
    ApartCut(lists, c, p);
    var n, b := next[p], prev[p];
    var next', prev' := CutNext(next, n, b), CutPrev(prev, n, b);
    AllDllFrame(heads[c := None], next, prev, lists[c := []], next', prev') by { EmptyDll(next, prev); }
    EmptyDll(next', prev');
    forall d | 0 <= d < |lists| && d != c ensures Dll(heads[d], next', prev', lists[d]) {
      assert heads[c := None][d] == heads[d] && lists[c := []][d] == lists[d];
    }
  }

  lemma EmptyDll(next: map<Chunk, Ptr>, prev: map<Chunk, Ptr>)
    ensures Dll(None, next, prev, [])
  {
  }
}
