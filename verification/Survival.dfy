/** What has been stored can be read until something happens to it, over every run: a delete,
    a flush, another write, a failed set, an expiry, an eviction or a page move. */
module Survival {
  import opened Seqs
  import opened CacheState
  import opened CacheInvariant
  import opened CacheProofs
  import opened CacheOps
  import opened Commands
  import opened Runs
  import opened Guarantees
  import opened Presence
  import opened Answers
  import D = Decimal

  /** The chunk of p has been handed out for another item. */
  ghost predicate HandedOut(t: State, k: Key, p: Chunk) {
    p in t.uploads || (p in t.items && t.items[p].linked && t.items[p].key != k)
  }

  /** What takes p from under k: a delete of k, a flush, a write to k, a set of k for which
      there was no room, and the use of its chunk for another item. */
  ghost predicate Removes(s: State, e: Event, t: State, k: Key, p: Chunk) {
    || e.command == DeleteKey(k)
    || e.command.Flush?
    || StoresUnder(s, e, k)
    || (e.command.Begin? && e.command.verb == Set && e.command.key == k && e.reply.NoRoom?)
    || HandedOut(t, k, p)
  }

  /** p is still what it was, but for the expiry if that has been touched. */
  ghost predicate Remains(s: State, t: State, c: Command, p: Chunk) {
    && p in s.items && p in t.items
    && Stays(s, t.(items := t.items[p := t.items[p].(exptime := s.items[p].exptime)]), p)
    && t.items[p].exptime == (if c.TouchKey? && c.key == s.items[p].key then c.exptime else s.items[p].exptime)
  }

  lemma StaysRemains(s: State, t: State, c: Command, p: Chunk)
    requires Stays(s, t, p) && !(c.TouchKey? && p in s.items && c.key == s.items[p].key)
    ensures Remains(s, t, c, p)
  {
  }

  lemma SameItem(s: State, t: State, p: Chunk)
    requires p in s.items && s.items[p].linked && p in t.items && t.items[p] == s.items[p]
    ensures Stays(s, t, p)
  {
  }

  // ----- commands on other keys

  lemma DeleteStays(s: State, k: Key, p: Chunk)
    requires Inv(s) && p in s.items && s.items[p].linked && s.items[p].key != k
    ensures Stays(s, Delete(s, k).0, p)
  {
    hide Inv, Get, Stays, Unlink, Release, Finds;
    GetInv(s, k);
    LookUpStays(s, k, p);
    var (t, found) := Get(s, k);
    if found.Some? {
      var x := found.value;
      FoundFacts(s, k);
      StaysLinked(s, t, p);
      OneStays(t, x, p);
      UnlinkInv(t, x);
      StaysTrans(s, t, Unlink(t, x), p);
      StaysLinked(s, Unlink(t, x), p);
      OneStays(Unlink(t, x), x, p);
      StaysTrans(s, Unlink(t, x), Release(Unlink(t, x), x), p);
    }
  }

  lemma BeginStays(s: State, c: Command, p: Chunk)
    requires Inv(s) && c.Begin? && |c.junk| >= 2 && p in s.items && s.items[p].linked
    requires !(c.verb == Set && c.key == s.items[p].key && BeginStep(s, c).1.NoRoom?)
    ensures var t := BeginStep(s, c).0; Stays(s, t, p) || p in t.uploads
  {
    hide Inv, ItemAlloc, Delete;
    ItemAllocInv(s, c.key, c.flags, c.exptime, c.junk, c.blocked, c.memOk);
    AllocStays(s, c.key, c.flags, c.exptime, c.junk, c.blocked, c.memOk, p);
    var (t, n) := ItemAlloc(s, c.key, c.flags, c.exptime, c.junk, c.blocked, c.memOk);
    if n.None? && c.verb == Set { DeleteStays(s, c.key, p); }
  }

  lemma GetStays(s: State, k: Key, p: Chunk)
    requires Inv(s) && p in s.items && s.items[p].linked && (s.items[p].key != k || Finds(s, k, p))
    ensures Stays(s, GetStep(s, k).0, p)
  {
    hide Inv, Get, Stays, Update, Finds;
    GetInv(s, k);
    LookUpStays(s, k, p);
    var (t, found) := Get(s, k);
    if found.Some? {
      FoundFacts(s, k);
      StaysLinked(s, t, p);
      OneStays(t, found.value, p);
      StaysTrans(s, t, Update(t, found.value), p);
    }
  }

  /** Touching one key leaves the items under the others. */
  lemma TouchStays(s: State, k: Key, exptime: nat, p: Chunk)
    requires Inv(s) && p in s.items && s.items[p].linked && s.items[p].key != k
    ensures Stays(s, TouchStep(s, k, exptime).0, p)
  {
    hide Inv, Get, Stays, Update, Release;
    GetInv(s, k);
    LookUpStays(s, k, p);
    var (t, found) := Get(s, k);
    if found.Some? {
      var x := found.value;
      FoundFacts(s, k);
      StaysLinked(s, t, p);
      ExptimeInv(t, x, exptime);
      var u := t.(items := t.items[x := t.items[x].(exptime := exptime)]);
      SameItem(t, u, p);
      OneStays(u, x, p);
      UpdateInv(u, x);
      StaysLinked(u, Update(u, x), p);
      OneStays(Update(u, x), x, p);
      StaysTrans(s, t, u, p);
      StaysTrans(s, u, Update(u, x), p);
      StaysTrans(s, Update(u, x), Release(Update(u, x), x), p);
    }
  }

  /** p is as it was, or its chunk now holds an item under another key. */
  ghost predicate StaysOr(s: State, t: State, p: Chunk, k: Key) {
    Stays(s, t, p) || (p in t.items && t.items[p].linked && t.items[p].key == k)
  }

  lemma StaysOrTrans(s: State, t: State, u: State, p: Chunk, k: Key)
    requires Stays(s, t, p) && StaysOr(t, u, p, k)
    ensures StaysOr(s, u, p, k)
  {
  }

  lemma StaysOrRelease(s: State, t: State, p: Chunk, k: Key, x: Chunk)
    requires Inv(t) && Has(t, x) && StaysOr(s, t, p, k)
    ensures StaysOr(s, Release(t, x), p, k)
  {
    hide Inv, Release, Stays;
    assert p in t.items && t.items[p].linked by { if Stays(s, t, p) { StaysLinked(s, t, p); } }
    OneStays(t, x, p);
    StaysLinked(t, Release(t, x), p);
    if Stays(s, t, p) { StaysTrans(s, t, Release(t, x), p); }
  }

  lemma StorePresentStays(s: State, q: Chunk, o: Chunk, verb: Verb, blocked: set<Key>, memOk: bool, p: Chunk)
    requires Inv(s) && Pair(s, o, q) && p in s.items && s.items[p].linked && p != o
    ensures StaysOr(s, StorePresent(s, q, o, verb, blocked, memOk).0, p, s.items[o].key)
  {
    hide Inv, Exchange, ReplaceHeld, Release, Update, Stays;
    LinkedIsIndexed(s, o);
    HolderFacts(s, o);
    HolderFacts(s, q);
    OneStays(s, o, p);
    var (a, b) := (s.items[o], s.items[q]);
    match verb
    case Add =>
      UpdateInv(s, o);
      StaysLinked(s, Update(s, o), p);
      OneStays(Update(s, o), o, p);
      StaysTrans(s, Update(s, o), Release(Update(s, o), o), p);
    case Append => ExchangeStays(s, o, a.key, a.flags, a.exptime, Joined(a.data, b.data), blocked, memOk, p);
    case Prepend => ExchangeStays(s, o, a.key, a.flags, a.exptime, Joined(b.data, a.data), blocked, memOk, p);
    case _ => ReplaceStays(s, o, q, p);
  }

  lemma StoreStays(s: State, q: Chunk, verb: Verb, blocked: set<Key>, memOk: bool, p: Chunk)
    requires Inv(s) && q in s.items && !s.items[q].linked && q in s.holders && q !in s.uploads
    requires p in s.items && s.items[p].linked && s.items[p].key != s.items[q].key
    ensures StaysOr(s, Store(s, q, verb, blocked, memOk).0, p, s.items[q].key)
  {
    hide Inv, Get, StorePresent, Link, Stays, Finds;
    var k := s.items[q].key;
    GetInv(s, k);
    GetLeaves(s, k, q);
    LookUpStays(s, k, p);
    var (t, found) := Get(s, k);
    StaysLinked(s, t, p);
    match found
    case None =>
      ChunkFacts(t, q);
      OneStays(t, q, p);
      StaysTransIf(s, t, Link(t, q), p);
    case Some(o) =>
      StorePresentStays(t, q, o, verb, blocked, memOk, p);
      StaysOrTrans(s, t, StorePresent(t, q, o, verb, blocked, memOk).0, p, k);
  }

  lemma StaysTransIf(s: State, t: State, u: State, p: Chunk)
    requires Stays(s, t, p)
    ensures Stays(t, u, p) ==> Stays(s, u, p)
  {
  }

  lemma CompleteStays(s: State, q: Chunk, verb: Verb, blocked: set<Key>, memOk: bool, p: Chunk)
    requires Inv(s) && q in s.uploads && q in s.items && p in s.items && s.items[p].linked
    requires s.items[p].key != s.items[q].key
    ensures StaysOr(s, CompleteStep(s, q, verb, blocked, memOk).0, p, s.items[q].key)
  {
    hide Inv, Store, Release, Stays, StaysOr;
    UploadFacts(s, q);
    FewerUploads(s, q);
    var u := s.(uploads := s.uploads - {q});
    var k := s.items[q].key;
    StaysSame(s, u, p);
    ChunkFacts(u, q);
    if EndsLine(s.items[q].data) {
      StoreStays(u, q, verb, blocked, memOk, p);
      StoreInv(u, q, verb, blocked, memOk);
      var t := Store(u, q, verb, blocked, memOk).0;
      HolderFacts(t, q);
      ChunkFacts(t, q);
      StaysOrTrans(s, u, t, p, k);
      StaysOrRelease(s, t, p, k, q);
    } else {
      OneStays(u, q, p);
      Either(u, Release(u, q), p, k);
      StaysOrTrans(s, u, Release(u, q), p, k);
    }
  }

  lemma Either(s: State, t: State, p: Chunk, k: Key)
    requires Stays(s, t, p)
    ensures StaysOr(s, t, p, k)
  {
  }

  lemma RestampStays(s: State, t: State, p: Chunk, k: Key, x: Chunk, cas: nat)
    requires StaysOr(s, t, p, k) && x in t.items && !t.items[x].linked
    ensures StaysOr(s, Restamp(t, x, cas), p, k)
  {
  }

  lemma DeltaStays(s: State, k: Key, incr: bool, d: nat, cas: nat, behind: string, blocked: set<Key>, memOk: bool,
                   p: Chunk)
    requires Inv(s) && p in s.items && s.items[p].linked && s.items[p].key != k
    ensures StaysOr(s, AddDelta(s, k, incr, d, cas, behind, blocked, memOk).0, p, k)
  {
    hide Inv, Get, Exchange, Release, Restamp, Stays, StaysOr, Finds, D.Parsed, D.Digits, Applied;
    GetInv(s, k);
    LookUpStays(s, k, p);
    var (t, found) := Get(s, k);
    Either(s, t, p, k);
    StaysLinked(s, t, p);
    if found.Some? {
      var o := found.value;
      FoundFacts(s, k);
      StaysOrRelease(s, t, p, k, o);
      var it := t.items[o];
      var v := D.Parsed(it.data, behind);
      if v.Some? {
        var text := D.Digits(Applied(incr, v.value, d)) + "\r\n";
        ExchangeStays(t, o, k, it.flags, it.exptime, text, blocked, memOk, p);
        var (u, r) := Exchange(t, o, k, it.flags, it.exptime, text, blocked, memOk);
        assert StaysOr(t, u, p, k) by { if Stays(t, u, p) { Either(t, u, p, k); } else { Other(t, u, p, k); } }
        StaysOrTrans(s, t, u, p, k);
        if r.Stored? {
          ExchangeOld(t, o, k, it.flags, it.exptime, text, blocked, memOk);
          RestampStays(s, u, p, k, o, r.cas);
        }
      }
    }
  }

  lemma Other(s: State, t: State, p: Chunk, k: Key)
    requires p in t.items && t.items[p].linked && t.items[p].key == k
    ensures StaysOr(s, t, p, k)
  {
  }

  // ----- the page mover and the rest

  /** The mover touches only the page it drains. */
  lemma MoveStays(s: State, blocked: set<Key>, p: Chunk)
    requires Inv(s) && s.rebal.signal == 2 && !s.rebal.done
    requires p in s.items && s.items[p].linked && p.page != s.rebal.page
    ensures Stays(s, MoveStep(s, blocked), p)
  {
    hide Inv;
    MoveChunkInv(s, blocked);
  }

  lemma EndStays(s: State, p: Chunk)
    requires Inv(s) && s.rebal.signal == 2 && s.rebal.done
    requires p in s.items && s.items[p].linked && p.page != s.rebal.page
    ensures Stays(s, EndStep(s), p)
  {
    hide Inv;
    FinishMoveInv(s);
  }

  lemma OtherStays(s: State, c: Command, p: Chunk)
    requires Inv(s) && Enabled(s, c) && p in s.items && s.items[p].linked
    requires c.Fill? || c.Abort? || c.Done?
    ensures Stays(s, ClientStep(s, c).0, p)
  {
    hide Inv, Stays, Release;
    match c
    case Fill(q, bytes) => UploadFacts(s, q); SameItem(s, FillStep(s, q, bytes), p);
    case Abort(q) =>
      UploadFacts(s, q);
      FewerUploads(s, q);
      var u := s.(uploads := s.uploads - {q});
      ChunkFacts(u, q);
      StaysSame(s, u, p);
      OneStays(u, q, p);
      StaysTrans(s, u, Release(u, q), p);
    case Done(q) => HolderFacts(s, q); ChunkFacts(s, q); OneStays(s, q, p);
  }

  lemma AskItems(s: State, src: int, dst: int)
    requires Inv(s)
    ensures AskStep(s, src, dst).items == s.items && StartMove(s).items == s.items
  {
    hide Inv;
  }

  // ----- one step

  lemma TouchRemains(s: State, k: Key, exptime: nat, p: Chunk)
    requires Inv(s) && Finds(s, k, p)
    ensures Remains(s, TouchStep(s, k, exptime).0, TouchKey(k, exptime), p)
  {
    hide Inv, TouchStep;
    TouchLaw(s, k, exptime);
  }

  lemma CompleteRemains(s: State, c: Command, k: Key, p: Chunk)
    requires Inv(s) && c.Complete? && c.p in s.uploads && c.p in s.items && Finds(s, k, p)
    requires var (t, r) := CompleteStep(s, c.p, c.verb, c.blocked, c.memOk);
      !(s.items[c.p].key == k && r.Finished? && r.outcome.Stored?) && !HandedOut(t, k, p)
    ensures Stays(s, CompleteStep(s, c.p, c.verb, c.blocked, c.memOk).0, p)
  {
    hide Inv, CompleteStep, Stays, OverOutcome, Stores, Carries;
    var q := c.p;
    if s.items[q].key != k {
      CompleteStays(s, q, c.verb, c.blocked, c.memOk, p);
    } else if Terminated(s.items[q].data) {
      CompleteOver(s, q, p, c.verb, c.blocked, c.memOk);
    } else {
      BadBody(s, q, c.verb, c.blocked, c.memOk, p);
    }
  }

  lemma DeltaRemains(s: State, c: Command, k: Key, p: Chunk)
    requires Inv(s) && c.Delta? && Finds(s, k, p)
    requires var (t, r) := AddDelta(s, c.key, c.incr, c.delta, c.cas, c.behind, c.blocked, c.memOk);
      !(c.key == k && r.DeltaOk?) && !HandedOut(t, k, p)
    ensures Stays(s, AddDelta(s, c.key, c.incr, c.delta, c.cas, c.behind, c.blocked, c.memOk).0, p)
  {
    hide Inv, AddDelta, Stays, Stores, DeltaAnswer;
    if c.key != k {
      DeltaStays(s, c.key, c.incr, c.delta, c.cas, c.behind, c.blocked, c.memOk, p);
    } else {
      DeltaLaw(s, k, p, c.incr, c.delta, c.cas, c.behind, c.blocked, c.memOk);
    }
  }

  /** Whatever the step: an item that is found stays linked under its key with its bytes and
      its id, and with its expiry unless that is touched, if the step is none of those that take
      it away. */
  lemma StepSurvives(s: State, e: Event, k: Key, p: Chunk)
    requires Inv(s) && Finds(s, k, p) && Enabled(s, e.command) && e.reply == Step(s, e.command).1
    requires !Removes(s, e, Step(s, e.command).0, k, p)
    ensures Remains(s, Step(s, e.command).0, e.command, p)
  {
    hide Inv, Stays, BeginStep, CompleteStep, GetStep, TouchStep, Delete, AddDelta, FlushAll, AskStep,
         StartMove, MoveStep, EndStep, AbortStep, DoneStep, FillStep, StoreIdle, DeltaIdle, RepairIdle, Remains;
    var c := e.command;
    var t := Step(s, c).0;
    match c
    case Begin(_, _, _, _, _, _, _, _) => BeginStays(s, c, p); StaysRemains(s, t, c, p);
    case Complete(q, _, _, _) => UploadFacts(s, q); CompleteRemains(s, c, k, p); StaysRemains(s, t, c, p);
    case GetKey(j) => GetStays(s, j, p); StaysRemains(s, t, c, p);
    case TouchKey(j, exptime) =>
      if j == k { TouchRemains(s, k, exptime, p); } else { TouchStays(s, j, exptime, p); StaysRemains(s, t, c, p); }
    case DeleteKey(j) => DeleteStays(s, j, p); StaysRemains(s, t, c, p);
    case Delta(_, _, _, _, _, _, _) => DeltaRemains(s, c, k, p); StaysRemains(s, t, c, p);
    case MoveOne(blocked) => MoveStays(s, blocked, p); StaysRemains(s, t, c, p);
    case EndMove => EndStays(s, p); StaysRemains(s, t, c, p);
    case Tick(_) => StaysSame(s, t, p); StaysRemains(s, t, c, p);
    case AskMove(src, dst) => AskItems(s, src, dst); StaysSame(s, t, p); StaysRemains(s, t, c, p);
    case BeginMove => AskItems(s, 0, 0); StaysSame(s, t, p); StaysRemains(s, t, c, p);
    case _ => OtherStays(s, c, p); StaysRemains(s, t, c, p);
  }

  // ----- what an event has stored

  /** p is linked under k since event e, with the id of the reply: it is the client's item, or
      holds what the client sent joined to what was found, or the number the reply gives. */
  ghost predicate Put(s: State, e: Event, t: State, k: Key, p: Chunk) {
    && StoresUnder(s, e, k) && p in t.items && t.items[p].linked && t.items[p].key == k && t.items[p].time == s.now
    && match e.command
       case Complete(q, verb, _, _) =>
         && Id(t, p) == e.reply.outcome.cas
         && (if Concatenates(verb) then exists o :: Finds(s, k, o) && JoinedTo(s, q, o, verb, t.items[p].data)
             else t.items[p].data == s.items[q].data && t.items[p].flags == s.items[q].flags
                  && t.items[p].exptime == s.items[q].exptime)
       case Delta(_, _, _, _, _, _, _) =>
         t.items[p].data == e.reply.result.text + "\r\n" && Id(t, p) == e.reply.result.cas
       case _ => false
  }

  ghost predicate JoinedTo(s: State, q: Chunk, o: Chunk, verb: Verb, data: string) {
    && q in s.items && o in s.items
    && var (a, b) := if verb == Append then (s.items[o].data, s.items[q].data) else (s.items[q].data, s.items[o].data);
      |a| >= 2 && data == a[..|a| - 2] + b
  }

  lemma OverPut(s: State, e: Event, k: Key, o: Chunk)
    requires Inv(s) && e.command.Complete? && e.command.p in s.uploads && StoresUnder(s, e, k) && Finds(s, k, o)
    requires Terminated(s.items[e.command.p].data)
    requires var c := e.command; e.reply == CompleteStep(s, c.p, c.verb, c.blocked, c.memOk).1
    ensures var c := e.command; exists p :: Put(s, e, CompleteStep(s, c.p, c.verb, c.blocked, c.memOk).0, k, p)
  {
    hide Inv, CompleteStep, Terminated, OverOutcome;
    var c := e.command;
    var t := CompleteStep(s, c.p, c.verb, c.blocked, c.memOk).0;
    var q := c.p;
    CompleteOver(s, q, o, c.verb, c.blocked, c.memOk);
    var (a, b) := (s.items[o], s.items[q]);
    if c.verb == Append {
      var n :| Carries(s, t, n, k, a.flags, a.exptime, a.data[..|a.data| - 2] + b.data, e.reply.outcome.cas);
      assert JoinedTo(s, q, o, Append, t.items[n].data);
      assert Put(s, e, t, k, n);
    } else if c.verb == Prepend {
      var n :| Carries(s, t, n, k, a.flags, a.exptime, b.data[..|b.data| - 2] + a.data, e.reply.outcome.cas);
      assert JoinedTo(s, q, o, Prepend, t.items[n].data);
      assert Put(s, e, t, k, n);
    } else {
      assert Put(s, e, t, k, q);
    }
  }

  lemma CompletePut(s: State, e: Event, k: Key)
    requires Inv(s) && e.command.Complete? && e.command.p in s.uploads && StoresUnder(s, e, k)
    requires var c := e.command; e.reply == CompleteStep(s, c.p, c.verb, c.blocked, c.memOk).1
    ensures var c := e.command; exists p :: Put(s, e, CompleteStep(s, c.p, c.verb, c.blocked, c.memOk).0, k, p)
  {
    hide Inv, CompleteStep, Finds, Terminated;
    var c := e.command;
    var t := CompleteStep(s, c.p, c.verb, c.blocked, c.memOk).0;
    var q := c.p;
    BodyChecked(s, q, c.verb, c.blocked, c.memOk);
    if o :| Finds(s, k, o) {
      OverPut(s, e, k, o);
    } else {
      CompleteMissing(s, q, c.verb, c.blocked, c.memOk);
      assert Put(s, e, t, k, q);
    }
  }

  lemma DeltaPut(s: State, e: Event, k: Key)
    requires Inv(s) && e.command.Delta? && StoresUnder(s, e, k)
    requires var c := e.command;
      e.reply == Counted(AddDelta(s, k, c.incr, c.delta, c.cas, c.behind, c.blocked, c.memOk).1)
    ensures var c := e.command;
      exists p :: Put(s, e, AddDelta(s, k, c.incr, c.delta, c.cas, c.behind, c.blocked, c.memOk).0, k, p)
  {
    hide Inv, AddDelta, Finds, DeltaAnswer, Stays;
    var c := e.command;
    var (t, r) := AddDelta(s, k, c.incr, c.delta, c.cas, c.behind, c.blocked, c.memOk);
    DeltaMissing(s, k, c.incr, c.delta, c.cas, c.behind, c.blocked, c.memOk);
    var o :| Finds(s, k, o);
    DeltaLaw(s, k, o, c.incr, c.delta, c.cas, c.behind, c.blocked, c.memOk);
    Linked(s, k, o);
    var it := s.items[o];
    var n :| Carries(s, t, n, k, it.flags, it.exptime, r.text + "\r\n", r.cas);
    assert Put(s, e, t, k, n);
  }

  lemma Linked(s: State, k: Key, p: Chunk)
    requires Finds(s, k, p)
    ensures p in s.items && s.items[p].key == k
  {
  }

  /** A reply that says so has stored something. */
  lemma StoredPut(s: State, e: Event, k: Key)
    requires Inv(s) && Enabled(s, e.command) && e.reply == Step(s, e.command).1 && StoresUnder(s, e, k)
    ensures exists p :: Put(s, e, Step(s, e.command).0, k, p)
  {
    hide Inv, CompleteStep, AddDelta, Put;
    match e.command
    case Complete(_, _, _, _) => CompletePut(s, e, k);
    case Delta(_, _, _, _, _, _, _) => DeltaPut(s, e, k);
  }

  // ----- the settings and the page mover stay

  lemma BeginCfg(s: State, c: Command)
    requires Inv(s) && c.Begin? && |c.junk| >= 2
    ensures var t := BeginStep(s, c).0; t.cfg == s.cfg && t.rebal == s.rebal
  {
    hide Inv, ItemAlloc, Delete;
    ItemAllocInv(s, c.key, c.flags, c.exptime, c.junk, c.blocked, c.memOk);
    DeleteInv(ItemAlloc(s, c.key, c.flags, c.exptime, c.junk, c.blocked, c.memOk).0, c.key);
  }

  lemma CompleteCfg(s: State, q: Chunk, verb: Verb, blocked: set<Key>, memOk: bool)
    requires Inv(s) && q in s.uploads
    ensures var t := CompleteStep(s, q, verb, blocked, memOk).0; t.cfg == s.cfg && t.rebal == s.rebal
  {
    hide Inv, Store;
    UploadFacts(s, q);
    FewerUploads(s, q);
    StoreInv(s.(uploads := s.uploads - {q}), q, verb, blocked, memOk);
  }

  lemma LookupCfg(s: State, k: Key, exptime: nat)
    requires Inv(s)
    ensures var t := GetStep(s, k).0; t.cfg == s.cfg && t.rebal == s.rebal
    ensures var t := TouchStep(s, k, exptime).0; t.cfg == s.cfg && t.rebal == s.rebal
  {
    hide Inv, Get;
    GetInv(s, k);
    if Get(s, k).1.Some? { FoundFacts(s, k); }
  }

  lemma StepCfg(s: State, c: Command)
    requires Inv(s) && Enabled(s, c)
    ensures Step(s, c).0.cfg == s.cfg
    ensures !(c.MoveOne? || c.EndMove? || c.BeginMove?) && s.rebal.signal == 2 ==> Step(s, c).0.rebal == s.rebal
  {
    hide Inv, BeginStep, CompleteStep, GetStep, TouchStep, Delete, AddDelta, FlushAll, MoveChunk, AskStep,
        StoreIdle, DeltaIdle, RepairIdle, FillStep, AbortStep, DoneStep;
    match c
    case Begin(_, _, _, _, _, _, _, _) => BeginCfg(s, c);
    case Complete(q, verb, blocked, memOk) => CompleteCfg(s, q, verb, blocked, memOk);
    case GetKey(k) => LookupCfg(s, k, 0);
    case TouchKey(k, exptime) => LookupCfg(s, k, exptime);
    case DeleteKey(k) => DeleteInv(s, k);
    case Delta(k, incr, delta, cas, behind, blocked, memOk) =>
      AddDeltaInv(s, k, incr, delta, cas, behind, blocked, memOk);
    case Flush => FlushAllInv(s);
    case AskMove(src, dst) => AskCfg(s, src, dst);
    case Fill(_, _) => ReleaseCfg(s, c);
    case Abort(_) => ReleaseCfg(s, c);
    case Done(_) => ReleaseCfg(s, c);
    case _ =>
  }

  lemma ReleaseCfg(s: State, c: Command)
    requires Inv(s) && Enabled(s, c) && (c.Fill? || c.Abort? || c.Done?)
    ensures var t := ClientStep(s, c).0; t.cfg == s.cfg && t.rebal == s.rebal
  {
    hide Inv;
  }

  lemma AskCfg(s: State, src: int, dst: int)
    requires Inv(s)
    ensures var t := AskStep(s, src, dst); t.cfg == s.cfg && (s.rebal.signal == 2 ==> t.rebal == s.rebal)
  {
    hide Inv;
  }

  // ----- reading it back

  /** p is not on the page that is being drained, and its expiry is not past. */
  predicate Untroubled(s: State, p: Chunk) {
    p in s.items ==>
      && !(s.rebal.signal == 2 && p.page == s.rebal.page)
      && (s.items[p].exptime == 0 || s.now < s.items[p].exptime)
  }

  lemma ShownFinds(s: State, k: Key, p: Chunk)
    requires Inv(s) && Shown(s, k) && p in s.items && s.items[p].linked && s.items[p].key == k
    ensures Finds(s, k, p) <==> Untroubled(s, p)
    ensures Present(s, k) <==> Finds(s, k, p)
  {
    hide Inv;
    LinkedIsIndexed(s, p);
    if q :| Finds(s, k, q) { LinkedIsIndexed(s, q); }
  }

  /** A get right after STORED is a hit, whatever was flushed before, if and only if the item
      has not expired already and did not land on the page being drained. */
  lemma StoredIsRead(s: State, e: Event, k: Key, p: Chunk)
    requires Inv(s) && Enabled(s, e.command) && e.reply == Step(s, e.command).1 && StoresUnder(s, e, k)
    requires Put(s, e, Step(s, e.command).0, k, p)
    ensures var t := Step(s, e.command).0; Inv(t) && (GetStep(t, k).1.Hit? <==> Untroubled(t, p))
  {
    hide Inv, Enabled, Step, StoresUnder, Shown, Untroubled, Finds, GetStep;
    StepInv(s, e.command);
    var t := Step(s, e.command).0;
    StoredShown(s, e, k);
    PutLinked(s, e, t, k, p);
    ShownFinds(t, k, p);
    GetLaw(t, k);
  }

  lemma PutLinked(s: State, e: Event, t: State, k: Key, p: Chunk)
    requires Put(s, e, t, k, p)
    ensures p in t.items && t.items[p].linked && t.items[p].key == k
  {
  }

  /** In no step of the run does anything happen to p. */
  ghost predicate LeftAlone(s: State, h: seq<Event>, k: Key, p: Chunk)
    requires Inv(s) && IsRun(s, h)
    decreases |h|
  {
    h != [] ==>
      var t := Step(s, h[0].command).0;
      StepInv(s, h[0].command);
      !Removes(s, h[0], t, k, p) && Untroubled(t, p) && LeftAlone(t, h[1..], k, p)
  }

  /** p has the content and the id it had. */
  ghost predicate Unchanged(s: State, t: State, p: Chunk) {
    && t.cfg == s.cfg && p in s.items && p in t.items && t.items[p].flags == s.items[p].flags
    && t.items[p].data == s.items[p].data && t.items[p].cas == s.items[p].cas
  }

  lemma StepFinds(s: State, e: Event, k: Key, p: Chunk)
    requires Inv(s) && Finds(s, k, p) && Enabled(s, e.command) && e.reply == Step(s, e.command).1
    requires !Removes(s, e, Step(s, e.command).0, k, p) && Untroubled(Step(s, e.command).0, p)
    ensures var t := Step(s, e.command).0; Inv(t) && Finds(t, k, p) && Unchanged(s, t, p)
  {
    hide Inv, Enabled, Step, Removes, Untroubled, Shown;
    var t := Step(s, e.command).0;
    StepInv(s, e.command);
    StepSurvives(s, e, k, p);
    NotFlush(s, e, t, k, p);
    FoundIsShown(s, k, p);
    StepHides(s, e.command);
    ShownAfter(s, t, k);
    ShownFinds(t, k, p);
    StepCfg(s, e.command);
  }

  lemma NotFlush(s: State, e: Event, t: State, k: Key, p: Chunk)
    requires !Removes(s, e, t, k, p)
    ensures !e.command.Flush?
  {
  }

  lemma FoundIsShown(s: State, k: Key, p: Chunk)
    requires Inv(s) && Finds(s, k, p)
    ensures Shown(s, k)
  {
    hide Inv;
    LinkedIsIndexed(s, p);
  }

  lemma ShownAfter(s: State, t: State, k: Key)
    requires NoneHidden(s, t) && Shown(s, k)
    ensures Shown(t, k)
  {
  }

  lemma UnchangedTrans(s: State, t: State, u: State, p: Chunk)
    requires Unchanged(s, t, p) && Unchanged(t, u, p)
    ensures Unchanged(s, u, p)
  {
  }

  lemma UnchangedRefl(s: State, k: Key, p: Chunk)
    requires Finds(s, k, p)
    ensures Unchanged(s, s, p)
  {
  }

  /** In every run that leaves it alone an item stays found, with its content and its id. */
  lemma {:induction false} RunSurvives(s: State, h: seq<Event>, k: Key, p: Chunk)
    requires Inv(s) && IsRun(s, h) && Finds(s, k, p) && LeftAlone(s, h, k, p)
    ensures var t := StateAfter(s, h); Finds(t, k, p) && Unchanged(s, t, p)
    decreases |h|
  {
    hide Inv, Enabled, Step, Finds, Unchanged, Removes, Untroubled;
    if h == [] {
      UnchangedRefl(s, k, p);
    } else {
      StepFinds(s, h[0], k, p);
      var t := Step(s, h[0].command).0;
      RunSurvives(t, h[1..], k, p);
      UnchangedTrans(s, t, StateAfter(t, h[1..]), p);
    }
  }

  /** A reply to get with what event e has stored. */
  ghost predicate Returns(s: State, e: Event, r: Reply) {
    && r.Hit?
    && match e.command
       case Complete(q, verb, _, _) =>
         && e.reply.Finished? && e.reply.outcome.Stored? && r.cas == e.reply.outcome.cas && q in s.items
         && (if Concatenates(verb) then exists o :: Finds(s, s.items[q].key, o) && JoinedTo(s, q, o, verb, r.data)
             else r.data == s.items[q].data && r.flags == s.items[q].flags)
       case Delta(_, _, _, _, _, _, _) =>
         && e.reply.Counted? && e.reply.result.DeltaOk?
         && r.data == e.reply.result.text + "\r\n" && r.cas == e.reply.result.cas
       case _ => false
  }

  lemma PutReturns(s: State, e: Event, t: State, u: State, k: Key, p: Chunk, r: Reply)
    requires Put(s, e, t, k, p) && Unchanged(t, u, p)
    requires r == Hit(p, u.items[p].flags, u.items[p].data, Id(u, p))
    ensures Returns(s, e, r)
  {
  }

  /** In every run h after an event that has stored something under k: a get of k returns it,
      if in the run nothing has happened to it. */
  lemma StoredStaysRead(s: State, e: Event, t: State, h: seq<Event>, k: Key)
    requires Inv(s) && Enabled(s, e.command) && Step(s, e.command) == (t, e.reply) && StoresUnder(s, e, k)
    requires Inv(t) && IsRun(t, h)
    requires forall p :: Put(s, e, t, k, p) ==> Untroubled(t, p) && LeftAlone(t, h, k, p)
    ensures Returns(s, e, GetStep(StateAfter(t, h), k).1)
  {
    hide Inv, Enabled, Step, Finds, Unchanged, Untroubled, StoresUnder, Put, Returns, LeftAlone, Shown;
    StoredPut(s, e, k);
    var p :| Put(s, e, t, k, p);
    StoredShown(s, e, k);
    PutLinked(s, e, t, k, p);
    ShownFinds(t, k, p);
    RunSurvives(t, h, k, p);
    var u := StateAfter(t, h);
    GetLaw(u, k);
    Linked(u, k, p);
    PutReturns(s, e, t, u, k, p, GetStep(u, k).1);
  }
}
