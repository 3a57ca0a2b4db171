/** Whole runs of the cache: safety over every interleaving of commands and background
    steps, told as properties of the history of commands and replies. */
module Runs {
  import opened Seqs
  import opened SlabClasses
  import opened CacheState
  import opened CacheInvariant
  import opened CacheProofs
  import opened CacheOps
  import opened Commands
  import opened LossyMap
  import opened Refinement
  import D = Decimal

  /** The state after slabs_init and assoc_init. */
  function Start(cfg: Config, now: nat): State {
    var none := seq(|cfg.classes|, i => []);
    State(cfg, map[], map[], none, none, seq(|cfg.classes|, i => []), map[], 0, 0, now, 0, 0, 0, 0,
          Rebalance(0, 0, 0, 0, 0, 0, false), multiset{}, {})
  }

  function Empty(cfg: Config, now: nat): Ideal { Ideal(map[], map[], now, cfg.useCas, 0) }

  lemma StartInv(cfg: Config, now: nat)
    requires Geometry(cfg.classes, cfg.itemSizeMax) && now >= 2
    ensures Inv(Start(cfg, now)) && Refines(Start(cfg, now), Empty(cfg, now))
  {
    var s := Start(cfg, now);
    assert NonEmpty(s.slabs) == {};
    assert LinkedBytes(cfg, s.items) == map[];
    forall k ensures KeyMatches(s, Empty(cfg, now), k) {}
  }

  datatype Event = Event(command: Command, reply: Reply)

  /** h is what a run from s looks like to its clients. */
  ghost predicate IsRun(s: State, h: seq<Event>)
    requires Inv(s)
    decreases |h|
  {
    h != [] ==>
      && Enabled(s, h[0].command)
      && h[0].reply == Step(s, h[0].command).1
      && (StepInv(s, h[0].command); IsRun(Step(s, h[0].command).0, h[1..]))
  }

  /** The ideal map after the first n events. */
  function MapAt(i: Ideal, h: seq<Event>, n: nat): Ideal
    requires n <= |h|
  {
    if n == 0 then i else After(MapAt(i, h, n - 1), h[n - 1].command, h[n - 1].reply)
  }

  ghost predicate Conforms(i: Ideal, h: seq<Event>) {
    forall n :: 0 <= n < |h| ==> Allowed(MapAt(i, h, n), h[n].command, h[n].reply)
  }

  lemma {:induction false} MapAtShift(i: Ideal, h: seq<Event>, n: nat)
    requires 0 < n <= |h|
    ensures MapAt(i, h, n) == MapAt(After(i, h[0].command, h[0].reply), h[1..], n - 1)
  {
    if n > 1 { MapAtShift(i, h, n - 1); }
  }

  /** Every reply of every run is one the lossy map allows. */
  lemma {:induction false} RunConforms(s: State, i: Ideal, h: seq<Event>)
    requires Inv(s) && Refines(s, i) && IsRun(s, h)
    ensures Conforms(i, h)
    decreases |h|
  {
    hide Inv, Refines, Enabled, Step;
    if h != [] {
      var (c, r) := (h[0].command, h[0].reply);
      StepInv(s, c);
      StepRefines(s, i, c);
      RunConforms(Step(s, c).0, After(i, c, r), h[1..]);
      forall n | 0 < n < |h| ensures Allowed(MapAt(i, h, n), h[n].command, h[n].reply) {
        MapAtShift(i, h, n);
        assert h[n] == h[1..][n - 1];
      }
    }
  }

  // ----- a hit is the latest write

  /** Event e stores an entry under k. */
  predicate Writes(i: Ideal, e: Event, k: Key) {
    match e.command
    case Complete(p, _, _, _) => p in i.pending && i.pending[p].key == k && e.reply.Finished? && e.reply.outcome.Stored?
    case Delta(key, _, _, _, _, _, _) => key == k && e.reply.Counted? && e.reply.result.DeltaOk?
    case _ => false
  }

  /** Event e ends the life of what k held: a write, a delete, a flush, or a reply that
      says nothing is there. */
  predicate Ends(i: Ideal, e: Event, k: Key) {
    || Writes(i, e, k)
    || (e.command.DeleteKey? && e.command.key == k)
    || e.command.Flush?
    || (e.command.GetKey? && e.command.key == k && e.reply == Miss)
    || (e.command.TouchKey? && e.command.key == k && e.reply == Miss)
  }

  predicate SameValue(a: Entry, b: Entry) { a.flags == b.flags && a.data == b.data && a.cas == b.cas }

  /** In every run, the value of a hit on k was written to k by an earlier event, and no
      event in between wrote, deleted, flushed or missed k. */
  lemma {:induction false} EntryIsLatestWrite(i: Ideal, h: seq<Event>, n: nat, k: Key) returns (m: nat)
    requires n <= |h| && i.entries == map[] && Conforms(i, h) && k in MapAt(i, h, n).entries
    ensures m < n && Writes(MapAt(i, h, m), h[m], k)
    ensures k in MapAt(i, h, m + 1).entries && SameValue(MapAt(i, h, m + 1).entries[k], MapAt(i, h, n).entries[k])
    ensures forall j :: m < j < n ==> !Ends(MapAt(i, h, j), h[j], k)
  {
    hide Allowed, After, Ends, SameValue, Writes;
    SameValueTransitive();
    var before := MapAt(i, h, n - 1);
    assert Allowed(before, h[n - 1].command, h[n - 1].reply);
    if Writes(before, h[n - 1], k) {
      m := n - 1;
    } else {
      StepKeepsValue(before, h[n - 1], k);
      m := EntryIsLatestWrite(i, h, n - 1, k);
    }
  }

  lemma SameValueTransitive()
    ensures forall a, b, c :: SameValue(a, b) && SameValue(b, c) ==> SameValue(a, c)
    ensures forall a :: SameValue(a, a)
  {
  }

  lemma StepKeepsValue(i: Ideal, e: Event, k: Key)
    requires Allowed(i, e.command, e.reply) && !Writes(i, e, k)
    requires k in After(i, e.command, e.reply).entries
    ensures k in i.entries && SameValue(i.entries[k], After(i, e.command, e.reply).entries[k])
    ensures !Ends(i, e, k)
  {
  }

  lemma HitIsLatestWrite(s: State, i: Ideal, h: seq<Event>, n: nat) returns (m: nat)
    requires Inv(s) && Refines(s, i) && i.entries == map[] && IsRun(s, h)
    requires n < |h| && h[n].command.GetKey? && h[n].reply.Hit?
    ensures var k := h[n].command.key;
      && m < n && Writes(MapAt(i, h, m), h[m], k)
      && k in MapAt(i, h, m + 1).entries
      && h[n].reply.flags == MapAt(i, h, m + 1).entries[k].flags
      && h[n].reply.data == MapAt(i, h, m + 1).entries[k].data
      && h[n].reply.cas == MapAt(i, h, m + 1).entries[k].cas
      && Live(MapAt(i, h, n), k)
      && forall j :: m < j < n ==> !Ends(MapAt(i, h, j), h[j], k)
  {
    hide Inv, Refines, IsRun;
    RunConforms(s, i, h);
    assert Allowed(MapAt(i, h, n), h[n].command, h[n].reply);
    m := EntryIsLatestWrite(i, h, n, h[n].command.key);
  }

  // ----- check-and-set

  ghost predicate CasBelow(i: Ideal) { forall k :: k in i.entries ==> i.entries[k].cas <= i.lastCas }

  lemma StepCas(i: Ideal, e: Event)
    requires Allowed(i, e.command, e.reply) && i.useCas && CasBelow(i)
    ensures var j := After(i, e.command, e.reply); j.useCas && CasBelow(j) && j.lastCas >= i.lastCas
    ensures forall k :: Writes(i, e, k) ==> After(i, e.command, e.reply).lastCas > i.lastCas
    ensures var j := After(i, e.command, e.reply);
      forall k :: k in j.entries
          ==> (k in i.entries && j.entries[k].cas == i.entries[k].cas) || j.entries[k].cas > i.lastCas
  {
  }

  lemma {:induction false} CasGrows(i: Ideal, h: seq<Event>, m: nat, n: nat, k: Key, u: nat)
    requires m <= n <= |h| && Conforms(i, h) && MapAt(i, h, m).useCas && CasBelow(MapAt(i, h, m))
    requires MapAt(i, h, m).lastCas >= u
    requires k in MapAt(i, h, m).entries ==> MapAt(i, h, m).entries[k].cas > u
    ensures k in MapAt(i, h, n).entries ==> MapAt(i, h, n).entries[k].cas > u
    decreases n - m
  {
    hide Allowed, After, Writes, CasBelow;
    if m < n {
      assert Allowed(MapAt(i, h, m), h[m].command, h[m].reply);
      StepCas(MapAt(i, h, m), h[m]);
      CasGrows(i, h, m + 1, n, k, u);
    }
  }

  lemma {:induction false} CasAlwaysBelow(i: Ideal, h: seq<Event>, n: nat)
    requires n <= |h| && Conforms(i, h) && i.useCas && CasBelow(i)
    ensures MapAt(i, h, n).useCas && CasBelow(MapAt(i, h, n))
  {
    hide Allowed, After, Writes, CasBelow;
    if n > 0 {
      CasAlwaysBelow(i, h, n - 1);
      assert Allowed(MapAt(i, h, n - 1), h[n - 1].command, h[n - 1].reply);
      StepCas(MapAt(i, h, n - 1), h[n - 1]);
    }
  }

  /** Event e is an attempt on key k with id u that succeeded: a cas, or an append, prepend,
      incr or decr that was given an id. */
  predicate CasStored(i: Ideal, e: Event, k: Key, u: nat) {
    match e.command
    case Complete(p, verb, _, _) =>
      && (verb == Cas || (Concatenates(verb) && u != 0))
      && p in i.pending && i.pending[p].key == k && i.pending[p].cas == u
      && e.reply.Finished? && e.reply.outcome.Stored?
    case Delta(key, _, _, cas, _, _, _) => key == k && cas == u != 0 && e.reply.Counted? && e.reply.result.DeltaOk?
    case _ => false
  }

  /** Of any number of attempts with the same key and id, at most one succeeds. */
  lemma CasAtMostOnce(s: State, i: Ideal, h: seq<Event>, m: nat, n: nat, k: Key, u: nat)
    requires Inv(s) && Refines(s, i) && i.useCas && CasBelow(i) && IsRun(s, h)
    requires m < n < |h|
    requires CasStored(MapAt(i, h, m), h[m], k, u)
    ensures !CasStored(MapAt(i, h, n), h[n], k, u)
  {
    hide Inv, Refines, IsRun, Allowed, After, Writes, CasBelow, CasStored, MapAt;
    RunConforms(s, i, h);
    CasAlwaysBelow(i, h, m);
    CasAlwaysBelow(i, h, n);
    var before := MapAt(i, h, m);
    assert Allowed(before, h[m].command, h[m].reply);
    StepCas(before, h[m]);
    CasStoredFacts(before, h[m], k, u);
    assert MapAt(i, h, m + 1) == After(before, h[m].command, h[m].reply) by { MapAtNext(i, h, m); }
    CasAlwaysBelow(i, h, m + 1);
    CasGrows(i, h, m + 1, n, k, u);
    assert Allowed(MapAt(i, h, n), h[n].command, h[n].reply);
    if CasStored(MapAt(i, h, n), h[n], k, u) { CasStoredFacts(MapAt(i, h, n), h[n], k, u); }
  }

  lemma MapAtNext(i: Ideal, h: seq<Event>, m: nat)
    requires m < |h|
    ensures MapAt(i, h, m + 1) == After(MapAt(i, h, m), h[m].command, h[m].reply)
  {
  }

  /** An attempt succeeds only on the entry its id was issued for, and gives the entry a
      larger id. */
  lemma CasStoredFacts(i: Ideal, e: Event, k: Key, u: nat)
    requires Allowed(i, e.command, e.reply) && CasStored(i, e, k, u) && i.useCas
    ensures k in i.entries && i.entries[k].cas == u
    ensures var j := After(i, e.command, e.reply); k in j.entries && j.entries[k].cas > i.lastCas
    ensures CasBelow(i) ==> u <= i.lastCas
  {
  }
}
