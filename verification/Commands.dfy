/** The commands and background steps of a running server, as steps on the cache state. */
module Commands {
  import opened Seqs
  import opened CacheState
  import opened CacheInvariant
  import opened CacheProofs
  import opened CacheOps
  import D = Decimal

  /** One atomic step.  `blocked` names the keys whose item lock another thread holds and
      `memOk` says whether memory_allocate succeeds; both are up to the environment. */
  datatype Command =
    | Begin(key: Key, flags: int, exptime: nat, verb: Verb, cas: nat, junk: string, blocked: set<Key>, memOk: bool)
    | Fill(p: Chunk, bytes: string)
    | Complete(p: Chunk, verb: Verb, blocked: set<Key>, memOk: bool)
    | Abort(p: Chunk)
    | GetKey(key: Key)
    | Done(p: Chunk)
    | DeleteKey(key: Key)
    | TouchKey(key: Key, exptime: nat)
    | Delta(key: Key, incr: bool, delta: nat, cas: nat, behind: string, blocked: set<Key>, memOk: bool)
    | Flush
    | Tick(now: nat)
    | AskMove(src: int, dst: int)
    | BeginMove
    | MoveOne(blocked: set<Key>)
    | EndMove

  datatype Reply =
    | Silent
    | Uploading(p: Chunk)
    | NoRoom
    | BadChunk
    | Finished(outcome: Outcome)
    | Hit(p: Chunk, flags: int, data: string, cas: nat)
    | Miss
    | Deleted
    | Touched
    | Counted(result: DeltaResult)

  /** Joining data to an item allocates while the item is held. */
  predicate Concatenates(verb: Verb) { verb == Append || verb == Prepend }

  /** The tail repair does not fire while the body of p is stored. */
  ghost predicate StoreIdle(s: State, p: Chunk, verb: Verb, blocked: set<Key>)
    requires Inv(s) && p in s.uploads
  {
    UploadFacts(s, p); FewerUploads(s, p);
    EndsLine(s.items[p].data) && Concatenates(verb) ==> JoinIdle(s.(uploads := s.uploads - {p}), p, blocked)
  }

  /** What the callers of each operation guarantee, and that the tail repair of do_item_alloc
      does not fire: module TailRepair has what happens when it does. */
  ghost predicate Enabled(s: State, c: Command)
    requires Inv(s)
  {
    match c
    case Begin(key, flags, _, _, _, junk, blocked, _) => |junk| >= 2 && RepairIdle(s, key, flags, |junk|, blocked)
    case Fill(p, bytes) => p in s.uploads && p in s.items && |bytes| == |s.items[p].data|
    case Complete(p, verb, blocked, _) => p in s.uploads && StoreIdle(s, p, verb, blocked)
    case Abort(p) => p in s.uploads
    case Done(p) => p in s.holders && p !in s.uploads
    case Delta(k, incr, delta, cas, behind, blocked, _) => DeltaIdle(s, k, incr, delta, cas, behind, blocked)
    case Tick(now) => now >= s.now
    case BeginMove => s.rebal.signal == 1
    case MoveOne(_) => s.rebal.signal == 2 && !s.rebal.done
    case EndMove => s.rebal.signal == 2 && s.rebal.done
    case _ => true
  }

  /** process_update_command up to the point where the body is read. */
  function BeginStep(s: State, c: Command): (State, Reply)
    requires Inv(s) && c.Begin? && |c.junk| >= 2
  {
    ItemAllocInv(s, c.key, c.flags, c.exptime, c.junk, c.blocked, c.memOk);
    var (t, n) := ItemAlloc(s, c.key, c.flags, c.exptime, c.junk, c.blocked, c.memOk);
    match n
    case Some(p) =>
      (t.(items := t.items[p := t.items[p].(cas := if s.cfg.useCas then c.cas else t.items[p].cas)],
          uploads := s.uploads + {p}),
       Uploading(p))
    case None => (if c.verb == Set then Delete(t, c.key).0 else t, NoRoom)
  }

  predicate EndsLine(data: string) { |data| >= 2 && data[|data| - 2..] == "\r\n" }

  /** complete_nread_ascii: store the body unless it does not end in CRLF, then let the
      item go. */
  function CompleteStep(s: State, p: Chunk, verb: Verb, blocked: set<Key>, memOk: bool): (State, Reply)
    requires Inv(s) && p in s.uploads
  {
    UploadFacts(s, p); FewerUploads(s, p);
    var u := s.(uploads := s.uploads - {p});
    if !EndsLine(s.items[p].data) then ChunkFacts(u, p); (Release(u, p), BadChunk)
    else
      StoreInv(u, p, verb, blocked, memOk);
      var (t, r) := Store(u, p, verb, blocked, memOk);
      HolderFacts(t, p);
      (Release(t, p), Finished(r))
  }

  /** item_get and item_update for one key of a get command. */
  function GetStep(s: State, k: Key): (State, Reply)
    requires Inv(s)
  {
    GetInv(s, k);
    var (t, found) := Get(s, k);
    match found
    case None => (t, Miss)
    case Some(p) =>
      FoundFacts(s, k);
      (Update(t, p), Hit(p, t.items[p].flags, t.items[p].data, CasOf(t, p)))
  }

  function TouchStep(s: State, k: Key, exptime: nat): (State, Reply)
    requires Inv(s)
  {
    var (t, found) := Touch(s, k, exptime);
    match found
    case None => (t, Miss)
    case Some(p) => FoundFacts(s, k); (Release(Update(t, p), p), Touched)
  }

  function FillStep(s: State, p: Chunk, bytes: string): State
    requires p in s.items
  {
    s.(items := s.items[p := s.items[p].(data := bytes)])
  }

  /** The connection closes in the middle of an upload. */
  function AbortStep(s: State, p: Chunk): State
    requires Inv(s) && p in s.uploads
  {
    UploadFacts(s, p); ChunkFacts(s, p);
    Release(s.(uploads := s.uploads - {p}), p)
  }

  /** A reply has been sent: item_remove on one item of the list. */
  function DoneStep(s: State, p: Chunk): State
    requires Inv(s) && p in s.holders
  {
    HolderFacts(s, p); ChunkFacts(s, p);
    Release(s, p)
  }

  function MoveStep(s: State, blocked: set<Key>): State
    requires Inv(s) && s.rebal.signal == 2 && !s.rebal.done
  {
    MoveChunkInv(s, blocked);
    MoveChunk(s, blocked)
  }

  function EndStep(s: State): State
    requires Inv(s) && s.rebal.signal == 2 && s.rebal.done
  {
    FinishMoveInv(s);
    FinishMove(s)
  }

  predicate IsClient(c: Command) {
    c.Begin? || c.Fill? || c.Complete? || c.Abort? || c.GetKey? || c.Done? || c.DeleteKey? || c.TouchKey?
  }

  function ClientStep(s: State, c: Command): (State, Reply)
    requires Inv(s) && Enabled(s, c) && IsClient(c)
  {
    match c
    case Begin(_, _, _, _, _, _, _, _) => BeginStep(s, c)
    case Fill(p, bytes) => (FillStep(s, p, bytes), Silent)
    case Complete(p, verb, blocked, memOk) => CompleteStep(s, p, verb, blocked, memOk)
    case Abort(p) => (AbortStep(s, p), Silent)
    case GetKey(k) => GetStep(s, k)
    case Done(p) => (DoneStep(s, p), Silent)
    case DeleteKey(k) => var (t, found) := Delete(s, k); (t, if found then Deleted else Miss)
    case TouchKey(k, exptime) => TouchStep(s, k, exptime)
  }

  function Step(s: State, c: Command): (State, Reply)
    requires Inv(s) && Enabled(s, c)
  {
    if IsClient(c) then ClientStep(s, c) else
      match c
      case Delta(k, incr, delta, cas, behind, blocked, memOk) =>
        var (t, r) := AddDelta(s, k, incr, delta, cas, behind, blocked, memOk); (t, Counted(r))
      case Flush => (FlushAll(s), Silent)
      case Tick(now) => (s.(now := now), Silent)
      case AskMove(src, dst) => (AskStep(s, src, dst), Silent)
      case BeginMove => (StartMove(s), Silent)
      case MoveOne(blocked) => (MoveStep(s, blocked), Silent)
      case EndMove => (EndStep(s), Silent)
  }

  function AskStep(s: State, src: int, dst: int): State
    requires Inv(s)
  {
    Reassign(s, src, dst).0
  }

  // ----- every step keeps the invariant

  lemma BeginInv(s: State, c: Command)
    requires Inv(s) && c.Begin? && |c.junk| >= 2
    ensures Inv(BeginStep(s, c).0)
  {
    hide Inv, ItemAlloc, Delete;
    ItemAllocInv(s, c.key, c.flags, c.exptime, c.junk, c.blocked, c.memOk);
    var (t, n) := ItemAlloc(s, c.key, c.flags, c.exptime, c.junk, c.blocked, c.memOk);
    match n
    case None => DeleteInv(s, c.key);
    case Some(p) =>
      var it := t.items[p].(cas := if s.cfg.useCas then c.cas else t.items[p].cas);
      ContentInv(t, p, it);
      ClaimUpload(t.(items := t.items[p := it]), p);
  }

  lemma ClaimUpload(s: State, p: Chunk)
    requires Inv(s) && p in s.items && !s.items[p].linked && s.holders[p] == 1
    ensures Inv(s.(uploads := s.uploads + {p}))
  {
    hide Memory, Pages, Lists, Accounts, Queued, Freed, Index, Ordered, CasIds, Mover;
    UploadsInv(s, s.uploads + {p});
  }

  lemma FillInv(s: State, p: Chunk, bytes: string)
    requires Inv(s) && p in s.uploads && p in s.items && |bytes| == |s.items[p].data|
    ensures Inv(FillStep(s, p, bytes))
  {
    hide Inv;
    UploadFacts(s, p);
    HolderFacts(s, p);
    var it := s.items[p].(data := bytes);
    assert it == s.items[p].(data := bytes, cas := s.items[p].cas);
    ContentInv(s, p, it);
  }

  lemma CompleteInv(s: State, p: Chunk, verb: Verb, blocked: set<Key>, memOk: bool)
    requires Inv(s) && p in s.uploads
    ensures Inv(CompleteStep(s, p, verb, blocked, memOk).0)
  {
    hide Inv, Store, Release;
    UploadFacts(s, p);
    FewerUploads(s, p);
    var u := s.(uploads := s.uploads - {p});
    if EndsLine(s.items[p].data) {
      StoreInv(u, p, verb, blocked, memOk);
      ReleaseInv(Store(u, p, verb, blocked, memOk).0, p);
    } else {
      ReleaseInv(u, p);
    }
  }

  lemma LookupInv(s: State, k: Key, exptime: nat)
    requires Inv(s)
    ensures Inv(GetStep(s, k).0) && Inv(TouchStep(s, k, exptime).0)
  {
    hide Inv, Get, Update, Release;
    GetInv(s, k);
    var (t, found) := Get(s, k);
    if found.Some? {
      FoundFacts(s, k);
      var p := found.value;
      UpdateInv(t, p);
      ExptimeInv(t, p, exptime);
      var u := t.(items := t.items[p := t.items[p].(exptime := exptime)]);
      UpdateInv(u, p);
      UpdateHolds(u, p);
      ReleaseInv(Update(u, p), p);
    }
  }

  lemma UpdateHolds(s: State, p: Chunk)
    requires Has(s, p)
    ensures Update(s, p).holders == s.holders
  {
  }

  /** Every enabled step keeps the invariant. */
  lemma StepInv(s: State, c: Command)
    requires Inv(s) && Enabled(s, c)
    ensures Inv(Step(s, c).0)
  {
    hide Inv, BeginStep, FillStep, CompleteStep, GetStep, TouchStep, Delete, AddDelta, FlushAll, AskStep,
         StartMove, MoveStep, EndStep, AbortStep, DoneStep;
    match c
    case Begin(_, _, _, _, _, _, _, _) => BeginInv(s, c);
    case Fill(p, bytes) => FillInv(s, p, bytes);
    case Complete(p, verb, blocked, memOk) => CompleteInv(s, p, verb, blocked, memOk);
    case Abort(p) => AbortInv(s, p);
    case GetKey(k) => LookupInv(s, k, 0);
    case Done(p) => DoneInv(s, p);
    case DeleteKey(k) => DeleteInv(s, k);
    case TouchKey(k, exptime) => LookupInv(s, k, exptime);
    case Delta(k, incr, delta, cas, behind, blocked, memOk) =>
      AddDeltaInv(s, k, incr, delta, cas, behind, blocked, memOk);
    case Flush => FlushAllInv(s);
    case Tick(now) => TickInv(s, now);
    case AskMove(src, dst) => AskInv(s, src, dst);
    case BeginMove => StartMoveInv(s);
    case MoveOne(blocked) => MoveInv(s, blocked);
    case EndMove => EndInv(s);
  }

  lemma AbortInv(s: State, p: Chunk)
    requires Inv(s) && p in s.uploads
    ensures Inv(AbortStep(s, p))
  {
    hide Inv, Release;
    UploadFacts(s, p);
    FewerUploads(s, p);
    ReleaseInv(s.(uploads := s.uploads - {p}), p);
  }

  lemma DoneInv(s: State, p: Chunk)
    requires Inv(s) && p in s.holders && p !in s.uploads
    ensures Inv(DoneStep(s, p))
  {
    hide Inv, Release;
    ReleaseInv(s, p);
  }

  lemma TickInv(s: State, now: nat)
    requires Inv(s) && now >= s.now
    ensures Inv(s.(now := now))
  {
    ClockInv(s, now, s.oldestLive);
  }

  lemma AskInv(s: State, src: int, dst: int)
    requires Inv(s)
    ensures Inv(AskStep(s, src, dst))
  {
    hide Inv, Reassign;
    ReassignInv(s, src, dst);
  }

  lemma MoveInv(s: State, blocked: set<Key>)
    requires Inv(s) && s.rebal.signal == 2 && !s.rebal.done
    ensures Inv(MoveStep(s, blocked))
  {
    hide Inv, MoveChunk;
    MoveChunkInv(s, blocked);
  }

  lemma EndInv(s: State)
    requires Inv(s) && s.rebal.signal == 2 && s.rebal.done
    ensures Inv(EndStep(s))
  {
    hide Inv, FinishMove;
    FinishMoveInv(s);
  }
}
