/** The page mover from the asking to the hand-over: what starts a move, which chunks hold it up,
    and that a pass that meets none of these ends it. */
module PageMoves {
  import opened Seqs
  import opened SlabClasses
  import opened CacheState
  import opened CacheInvariant
  import opened CacheProofs
  import opened CacheOps
  import opened Commands
  import opened Runs
  import opened Guarantees
  import opened Survival

  /** The chunk the mover looks at next. */
  function Next(s: State): Chunk { At(s.rebal.page, s.rebal.pos) }

  /** The chunk holds the mover up: it has not been emptied, and its lock is taken or somebody
      has a reference to it. */
  predicate Stuck(s: State, p: Chunk, blocked: set<Key>)
    requires p in s.items
  {
    s.items[p].clsid != MARKED && (s.items[p].key in blocked || p in s.holders)
  }

  /** One chunk: a stuck one is left as it is, any other is emptied, linked or not. */
  lemma ChunkLaw(s: State, blocked: set<Key>)
    requires Inv(s) && s.rebal.signal == 2 && !s.rebal.done
    ensures Next(s) in s.items
    ensures var t := MoveStep(s, blocked);
      && (forall p :: p in s.items && p != Next(s) ==> p in t.items && t.items[p] == s.items[p])
      && Next(s) in t.items
      && if Stuck(s, Next(s), blocked) then t.items[Next(s)] == s.items[Next(s)] else Emptied(t.items, Next(s))
  {
    hide Inv;
    MoveChunkInv(s, blocked);
    MoverFacts(s);
    ChunkFacts(s, Next(s));
  }

  /** The cursor: it counts the stuck chunks, and at the end of the page the move is done if
      there were none, and starts again from the front otherwise. */
  lemma CursorLaw(s: State, blocked: set<Key>)
    requires Inv(s) && s.rebal.signal == 2 && !s.rebal.done
    ensures Next(s) in s.items && s.rebal.src < |s.cfg.classes|
    ensures var (r, q) := (s.rebal, MoveStep(s, blocked).rebal);
      var busy := r.busy + if Stuck(s, Next(s), blocked) then 1 else 0;
      && q.signal == 2 && q.src == r.src && q.dst == r.dst && q.page == r.page
      && if r.pos + 1 < s.cfg.classes[r.src].perslab then q.pos == r.pos + 1 && q.busy == busy && !q.done
         else if busy == 0 then q.done
         else q.pos == 0 && q.busy == 0 && !q.done
  {
    hide Inv;
    MoveChunkInv(s, blocked);
    MoverFacts(s);
    ChunkFacts(s, Next(s));
  }

  /** The number of chunks the mover has looked at. */
  function Moves(h: seq<Event>): nat {
    if h == [] then 0 else (if h[0].command.MoveOne? then 1 else 0) + Moves(h[1..])
  }

  /** No chunk the mover looks at is stuck. */
  ghost predicate Smooth(s: State, h: seq<Event>)
    requires Inv(s) && IsRun(s, h)
    decreases |h|
  {
    h != [] ==>
      var c := h[0].command;
      StepInv(s, c);
      && (c.MoveOne? ==> Next(s) in s.items && !Stuck(s, Next(s), c.blocked))
      && Smooth(Step(s, c).0, h[1..])
  }

  /** A pass that meets no stuck chunk ends the move, whatever else goes on in between. */
  lemma {:induction false} PassEnds(s: State, h: seq<Event>)
    requires Inv(s) && IsRun(s, h) && s.rebal.signal == 2 && !s.rebal.done && s.rebal.busy == 0
    requires h != [] && h[|h| - 1].command.MoveOne? && Smooth(s, h)
    requires s.rebal.src < |s.cfg.classes| && Moves(h) == s.cfg.classes[s.rebal.src].perslab - s.rebal.pos
    ensures StateAfter(s, h).rebal.done
    decreases |h|
  {
    hide Inv, Enabled, Step, Stuck;
    var c := h[0].command;
    StepInv(s, c);
    var t := Step(s, c).0;
    var g := h[1..];
    MoverSteps(s, c);
    assert h[|h| - 1] in h;
    if c.MoveOne? {
      CursorLaw(s, c.blocked);
      StepCfg(s, c);
      if g == [] {
        assert t == StateAfter(s, h);
      } else {
        assert g[|g| - 1] == h[|h| - 1];
        LastMove(g);
        PassEnds(t, g);
      }
    } else {
      StepCfg(s, c);
      assert g[|g| - 1] == h[|h| - 1];
      PassEnds(t, g);
    }
  }

  lemma {:induction false} LastMove(h: seq<Event>)
    requires h != [] && h[|h| - 1].command.MoveOne?
    ensures Moves(h) >= 1
  {
    if |h| > 1 { LastMove(h[1..]); }
  }

  /** While a move is under way and not done, only MoveOne moves the mover. */
  lemma MoverSteps(s: State, c: Command)
    requires Inv(s) && Enabled(s, c) && s.rebal.signal == 2 && !s.rebal.done
    ensures !c.EndMove? && !c.BeginMove?
    ensures c.MoveOne? ==> Step(s, c).0 == MoveStep(s, c.blocked)
  {
    hide Inv;
  }

  /** Two different classes, the first with a page to spare. */
  predicate Movable(s: State, src: int, dst: int) {
    1 <= src < |s.slabs| && 1 <= dst < |s.slabs| && src != dst && |s.slabs[src]| >= 2
  }

  /** A request is accepted if and only if no move is pending and the page can be had; then the
      rebalancer, when it comes to it in this state, starts at the first chunk of the first page. */
  lemma AskLaw(s: State, src: int, dst: int)
    requires Inv(s)
    ensures var (t, r) := Reassign(s, src, dst);
      && (r == Ok <==> s.rebal.signal == 0 && Movable(s, src, dst))
      && (r == Running <==> s.rebal.signal != 0)
      && (r != Ok ==> t == s)
      && (r == Ok ==>
            var q := StartMove(t).rebal;
            t.rebal.signal == 1 && q.signal == 2 && q.src == src && q.dst == dst && q.pos == 0 && q.busy == 0 && !q.done
            && q.page == s.slabs[src][0])
  {
    hide Memory, Pages, Lists, Accounts, Uploads, Queued, Freed, Index, Ordered, Clock, CasIds, Counters;
  }

  /** If the class has lost its spare page in the meantime the request is withdrawn. */
  lemma StartLaw(s: State)
    requires Inv(s) && s.rebal.signal == 1
    ensures StartMove(s).rebal.signal == if Movable(s, s.rebal.src, s.rebal.dst) then 2 else 0
  {
    hide Inv;
  }

  /** The hand-over: the page leaves one class for the other, all its chunks are free there, and
      every other chunk is as it was. */
  lemma EndLaw(s: State)
    requires Inv(s) && s.rebal.signal == 2 && s.rebal.done
    ensures var (t, r) := (EndStep(s), s.rebal);
      && r.src < |s.slabs| == |t.slabs| == |t.free| == |t.cfg.classes| && r.dst < |t.slabs|
      && t.rebal.signal == 0 && t.owner == s.owner[r.page := r.dst]
      && r.page !in t.slabs[r.src] && r.page in t.slabs[r.dst]
      && (forall p :: p in s.items && p.page != r.page ==> p in t.items && t.items[p] == s.items[p])
      && (forall i :: 0 <= i < t.cfg.classes[r.dst].perslab ==>
            At(r.page, i) in t.items && t.items[At(r.page, i)].slabbed && At(r.page, i) in t.free[r.dst])
  {
    hide Inv, FinishMove;
    FinishMoveInv(s);
    FinishFields(s);
    ShapeFacts(s);
    var (t, r) := (EndStep(s), s.rebal);
    ShapeFacts(t);
    PageChunkFree(t, r.page);
    NotInSource(t, r.page, r.src);
  }

  lemma FinishFields(s: State)
    requires Inv(s) && s.rebal.signal == 2 && s.rebal.done
    ensures s.rebal.src < |s.slabs| && s.rebal.dst < |s.slabs| && s.rebal.src != s.rebal.dst
    ensures |s.cfg.classes| == |s.slabs| == |s.free| == |s.lru|
    ensures var t := FinishMove(s);
      && t.cfg == s.cfg && t.rebal.signal == 0 && t.owner == s.owner[s.rebal.page := s.rebal.dst]
      && (forall p :: p in s.items && p.page != s.rebal.page ==> p in t.items && t.items[p] == s.items[p])
      && (forall i :: 0 <= i < t.cfg.classes[s.rebal.dst].perslab ==>
            At(s.rebal.page, i) in t.items && t.items[At(s.rebal.page, i)].slabbed)
  {
    hide Inv;
    MoverFacts(s);
    ShapeFacts(s);
    assert s.owner - {s.rebal.page} + map[s.rebal.page := s.rebal.dst] == s.owner[s.rebal.page := s.rebal.dst];
  }

  lemma PageChunkFree(s: State, g: nat)
    requires Inv(s) && g in s.owner
    ensures s.owner[g] < |s.free|
    ensures forall i :: At(g, i) in s.items && s.items[At(g, i)].slabbed ==> At(g, i) in s.free[s.owner[g]]
  {
    hide Memory, Lists, Accounts, Uploads, Queued, Index, Ordered, Clock, CasIds, Mover, Counters;
  }

  lemma NotInSource(s: State, g: nat, c: nat)
    requires Inv(s) && g in s.owner && c < |s.slabs| && s.owner[g] != c
    ensures g !in s.slabs[c] && s.owner[g] < |s.slabs| && g in s.slabs[s.owner[g]]
  {
    hide Memory, Lists, Accounts, Uploads, Queued, Freed, Index, Ordered, Clock, CasIds, Mover, Counters;
  }
}
