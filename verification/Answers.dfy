/** The answer to every command and what it leaves behind, told on the fields of the items and
    not through the operations: when a key is found, which outcome each verb has, what is then
    linked under the key, and what incr and decr compute. */
module Answers {
  import opened Seqs
  import opened CacheState
  import opened CacheInvariant
  import opened CacheProofs
  import opened CacheOps
  import opened Commands
  import opened Presence
  import opened Lru
  import D = Decimal
  import R = Refinement

  // ----- what is stored

  /** n is linked under k since the current second, with this content and the next id. */
  ghost predicate Carries(s: State, t: State, n: Chunk, k: Key, flags: int, exptime: nat, data: string, cas: nat) {
    && t.cfg == s.cfg && n in t.items && t.items[n].linked && t.items[n].key == k && t.items[n].flags == flags
    && t.items[n].exptime == exptime && t.items[n].data == data && t.items[n].time == s.now
    && t.items[n].cas == cas == (if s.cfg.useCas then s.casId + 1 else 0)
  }

  ghost predicate Stores(s: State, t: State, k: Key, flags: int, exptime: nat, data: string, cas: nat) {
    exists n :: Carries(s, t, n, k, flags, exptime, data, cas)
  }

  lemma CarriesRelease(s: State, t: State, n: Chunk, k: Key, flags: int, exptime: nat, data: string, cas: nat, x: Chunk)
    requires Carries(s, t, n, k, flags, exptime, data, cas) && Has(t, x)
    ensures Carries(s, Release(t, x), n, k, flags, exptime, data, cas)
  {
  }

  lemma CarriesFrom(s: State, s1: State, t: State, n: Chunk, k: Key, flags: int, exptime: nat, data: string, cas: nat)
    requires Carries(s1, t, n, k, flags, exptime, data, cas)
    requires s1.now == s.now && s1.cfg == s.cfg && s1.casId == s.casId
    ensures Carries(s, t, n, k, flags, exptime, data, cas)
  {
  }

  lemma ReplaceCarries(s: State, o: Chunk, n: Chunk)
    requires Inv(s) && Pair(s, o, n)
    ensures var (t, r) := ReplaceHeld(s, o, n); var it := s.items[n];
      r.Stored? && Has(t, n) && Carries(s, t, n, it.key, it.flags, it.exptime, it.data, r.cas)
  {
    hide Inv;
    ReplaceInv(s, o, n);
    ChunkFacts(s, o);
    ChunkFacts(s, n);
  }

  /** Exchanging the held item o for a new one works if and only if there is room for it. */
  lemma ExchangeLaw(s: State, o: Chunk, key: Key, flags: int, exptime: nat, data: string, blocked: set<Key>,
                    memOk: bool)
    requires Inv(s) && o in s.items && s.items[o].linked && o in s.holders && s.items[o].key == key && |data| >= 2
    ensures var (t, r) := Exchange(s, o, key, flags, exptime, data, blocked, memOk);
      if CanAlloc(s, key, flags, |data|, blocked, memOk, None)
      then r.Stored? && Stores(s, t, key, flags, exptime, data, r.cas)
      else r.NotStored? && Stays(s, t, o)
  {
    hide Inv, ItemAlloc, ReplaceHeld, Release, Stays, Carries, CanAlloc;
    AllocIff(s, key, flags, exptime, data, blocked, memOk);
    ExchangeStays(s, o, key, flags, exptime, data, blocked, memOk, o);
    ItemAllocInv(s, key, flags, exptime, data, blocked, memOk);
    AllocPair(s, o, key, flags, exptime, data, blocked, memOk);
    var (s1, n) := ItemAlloc(s, key, flags, exptime, data, blocked, memOk);
    if n.Some? {
      ReplaceCarries(s1, o, n.value);
      var (t, r) := ReplaceHeld(s1, o, n.value);
      CarriesFrom(s, s1, t, n.value, key, flags, exptime, data, r.cas);
      CarriesRelease(s, t, n.value, key, flags, exptime, data, r.cas, n.value);
    }
  }

  // ----- the six verbs

  /** The client's item q meets item o under its key: add refuses, set and replace store, cas
      stores if the ids agree, append and prepend store if the id is 0 or agrees and there is
      room for both data areas less one CRLF. */
  ghost predicate OverOutcome(s: State, q: Chunk, o: Chunk, verb: Verb, blocked: set<Key>, memOk: bool,
                              own: Option<Chunk>, r: Outcome)
    requires q in s.items && o in s.items && |s.items[o].data| >= 2
  {
    match verb
    case Add => r.NotStored?
    case Set | Swap => r.Stored?
    case Cas => if Id(s, q) == Id(s, o) then r.Stored? else r.Exists?
    case Append | Prepend =>
      if Id(s, q) != 0 && Id(s, q) != Id(s, o) then r.Exists?
      else
        var nbytes := |s.items[o].data| - 2 + |s.items[q].data|;
        if CanAlloc(s, s.items[o].key, s.items[o].flags, nbytes, blocked, memOk, own) then r.Stored? else r.NotStored?
  }

  /** Nothing is found under the key: add and set store, the others have nothing to work on. */
  predicate MissingOutcome(verb: Verb, r: Outcome) {
    match verb
    case Add | Set => r.Stored?
    case Cas => r.NotFound?
    case Swap | Append | Prepend => r.NotStored?
  }

  /** What is linked afterwards: o, which a refused add has bumped; or the client's item itself;
      or an item with the flags and the expiry of o and both data areas in the order of the verb. */
  ghost predicate OverEffect(s: State, t: State, q: Chunk, o: Chunk, verb: Verb, r: Outcome)
    requires q in s.items && o in s.items && |s.items[q].data| >= 2 && |s.items[o].data| >= 2
  {
    var (a, b) := (s.items[o], s.items[q]);
    if !r.Stored? then
      && Stays(s, t, o)
      && (verb == Add && s.now < 0x1_0000_0000 ==>
            t.items[o].time == if Bumps(s.now, a.time) then s.now else a.time)
    else if verb == Append then
      Stores(s, t, a.key, a.flags, a.exptime, a.data[..|a.data| - 2] + b.data, r.cas)
    else if verb == Prepend then
      Stores(s, t, a.key, a.flags, a.exptime, b.data[..|b.data| - 2] + a.data, r.cas)
    else Carries(s, t, q, a.key, b.flags, b.exptime, b.data, r.cas)
  }

  lemma RefusedAdd(s: State, o: Chunk)
    requires Inv(s) && o in s.items && s.items[o].linked
    ensures Has(s, o)
    ensures var t := Release(Update(s, o), o);
      && Stays(s, t, o)
      && (s.now < 0x1_0000_0000 ==>
            t.items[o].time == if Bumps(s.now, s.items[o].time) then s.now else s.items[o].time)
  {
    hide Inv, Bumps, Staleness;
    LinkedIsIndexed(s, o);
    if s.now < 0x1_0000_0000 { BumpIff(s, o); }
  }

  lemma OverLaw(s: State, q: Chunk, o: Chunk, verb: Verb, blocked: set<Key>, memOk: bool)
    requires Inv(s) && Pair(s, o, q)
    ensures |s.items[q].data| >= 2 && |s.items[o].data| >= 2
    ensures var (t, r) := StorePresent(s, q, o, verb, blocked, memOk);
      OverOutcome(s, q, o, verb, blocked, memOk, None, r) && OverEffect(s, t, q, o, verb, r)
  {
    hide Inv, Exchange, ReplaceHeld, Release, Update, Stays, Stores, Carries, CanAlloc;
    LinkedIsIndexed(s, o);
    HolderFacts(s, o);
    HolderFacts(s, q);
    OneStays(s, o, o);
    var (a, b) := (s.items[o], s.items[q]);
    match verb
    case Add => RefusedAdd(s, o);
    case Append => ExchangeLaw(s, o, a.key, a.flags, a.exptime, Joined(a.data, b.data), blocked, memOk);
    case Prepend => ExchangeLaw(s, o, a.key, a.flags, a.exptime, Joined(b.data, a.data), blocked, memOk);
    case _ => ReplaceCarries(s, o, q);
  }

  // ----- a body has arrived

  /** The last two characters are CR and LF. */
  predicate Terminated(data: string) { |data| >= 2 && data[|data| - 2] == '\r' && data[|data| - 1] == '\n' }

  lemma LinkCarries(s: State, q: Chunk)
    requires Has(s, q)
    ensures var t := Link(s, q); var it := s.items[q];
      Has(t, q) && Carries(s, t, q, it.key, it.flags, it.exptime, it.data, Id(t, q))
  {
  }

  lemma GetCas(s: State, k: Key)
    requires Inv(s)
    ensures var t := Get(s, k).0; t.cfg == s.cfg && t.now == s.now && t.casId == s.casId
  {
    hide Inv, Get;
    R.QuietGet(s, k);
  }

  /** A look-up is a hit if and only if the key is present. */
  lemma FoundIff(s: State, k: Key)
    requires Inv(s)
    ensures Get(s, k).1.Some? <==> Present(s, k)
  {
    hide Inv, Get, Finds;
    LookUpIff(s, k);
    var r := Get(s, k).1;
    if r.Some? { assert Finds(s, k, r.value); }
  }

  /** Storing under a key nothing is found under. */
  lemma StoreMissingLaw(s: State, q: Chunk, verb: Verb, blocked: set<Key>, memOk: bool)
    requires Inv(s) && q in s.items && !s.items[q].linked && q in s.holders && q !in s.uploads
    requires !Present(s, s.items[q].key)
    ensures var (t, r) := Store(s, q, verb, blocked, memOk); var it := s.items[q];
      && MissingOutcome(verb, r)
      && if r.Stored? then Carries(s, t, q, it.key, it.flags, it.exptime, it.data, r.cas) else Gone(t, it.key)
  {
    hide Inv, Get, Link, Carries, Gone, Finds;
    var k := s.items[q].key;
    LookUpIff(s, k);
    FoundIff(s, k);
    GetLeaves(s, k, q);
    GetCas(s, k);
    var (t, found) := Get(s, k);
    ChunkFacts(t, q);
    LinkCarries(t, q);
    var it := s.items[q];
    CarriesFrom(s, t, Link(t, q), q, k, it.flags, it.exptime, it.data, Id(Link(t, q), q));
  }

  /** The reference the look-up takes makes no difference to what o looks like. */
  lemma OutcomeHeld(s: State, q: Chunk, o: Chunk, verb: Verb, blocked: set<Key>, memOk: bool, r: Outcome)
    requires Inv(s) && q in s.items && o in s.items && s.items[o].linked && Has(s, o) && |s.items[o].data| >= 2
    requires OverOutcome(Hold(s, o), q, o, verb, blocked, memOk, None, r)
    ensures OverOutcome(s, q, o, verb, blocked, memOk, Some(o), r)
  {
    hide Inv, CanAlloc;
    var it := s.items[o];
    HoldCan(s, o, it.key, it.flags, |it.data| - 2 + |s.items[q].data|, blocked, memOk);
  }

  lemma EffectHeld(s: State, t: State, q: Chunk, o: Chunk, verb: Verb, r: Outcome)
    requires q in s.items && Has(s, o) && |s.items[o].data| >= 2 && |s.items[q].data| >= 2
    requires OverEffect(Hold(s, o), t, q, o, verb, r)
    ensures OverEffect(s, t, q, o, verb, r)
  {
    assert forall n, k, f, e, d, c :: Carries(Hold(s, o), t, n, k, f, e, d, c) ==> Carries(s, t, n, k, f, e, d, c);
  }

  /** Storing under a key where item o is found. */
  lemma StoreOverLaw(s: State, q: Chunk, o: Chunk, verb: Verb, blocked: set<Key>, memOk: bool)
    requires Inv(s) && q in s.items && !s.items[q].linked && q in s.holders && q !in s.uploads
    requires Finds(s, s.items[q].key, o)
    ensures |s.items[q].data| >= 2 && |s.items[o].data| >= 2
    ensures var (t, r) := Store(s, q, verb, blocked, memOk);
      OverOutcome(s, q, o, verb, blocked, memOk, Some(o), r) && OverEffect(s, t, q, o, verb, r)
  {
    hide Inv, Get, StorePresent, CanAlloc, Finds, Stays, Stores, Carries;
    var k := s.items[q].key;
    LookUpIff(s, k);
    GetLeaves(s, k, q);
    GetInv(s, k);
    var (t, found) := Get(s, k);
    OverLaw(t, q, o, verb, blocked, memOk);
    var r := StorePresent(t, q, o, verb, blocked, memOk).1;
    OutcomeHeld(s, q, o, verb, blocked, memOk, r);
    EffectHeld(s, StorePresent(t, q, o, verb, blocked, memOk).0, q, o, verb, r);
  }

  /** A body is refused if and only if it does not end the line. */
  lemma BodyChecked(s: State, q: Chunk, verb: Verb, blocked: set<Key>, memOk: bool)
    requires Inv(s) && q in s.uploads
    ensures q in s.items
    ensures var r := CompleteStep(s, q, verb, blocked, memOk).1;
      if Terminated(s.items[q].data) then r.Finished? else r.BadChunk?
  {
    hide Inv, Store, Release;
    UploadFacts(s, q);
    LineEnd(s.items[q].data);
  }

  /** Then every linked item stays. */
  lemma BadBody(s: State, q: Chunk, verb: Verb, blocked: set<Key>, memOk: bool, p: Chunk)
    requires Inv(s) && q in s.uploads && q in s.items && p in s.items && s.items[p].linked
    requires !Terminated(s.items[q].data)
    ensures Stays(s, CompleteStep(s, q, verb, blocked, memOk).0, p)
  {
    hide Inv, Store, Release, Stays;
    UploadFacts(s, q);
    FewerUploads(s, q);
    var u := s.(uploads := s.uploads - {q});
    ChunkFacts(u, q);
    OneStays(u, q, p);
    StaysSame(s, u, p);
    StaysTrans(s, u, Release(u, q), p);
    LineEnd(s.items[q].data);
  }

  lemma LineEnd(data: string)
    ensures EndsLine(data) <==> Terminated(data)
  {
    if |data| >= 2 { assert data[|data| - 2..] == [data[|data| - 2], data[|data| - 1]]; }
  }

  lemma StaysSame(s: State, t: State, p: Chunk)
    requires p in s.items && s.items[p].linked && t.items == s.items
    ensures Stays(s, t, p)
  {
  }

  /** Storing a body under a key nothing is found under. */
  lemma CompleteMissing(s: State, q: Chunk, verb: Verb, blocked: set<Key>, memOk: bool)
    requires Inv(s) && q in s.uploads && q in s.items && Terminated(s.items[q].data)
    requires !Present(s, s.items[q].key)
    ensures var (t, r) := CompleteStep(s, q, verb, blocked, memOk); var it := s.items[q];
      && r.Finished? && MissingOutcome(verb, r.outcome)
      && if r.outcome.Stored? then Carries(s, t, q, it.key, it.flags, it.exptime, it.data, r.outcome.cas)
         else Gone(t, it.key)
  {
    hide Inv, Store, Release, Finds, Carries, Gone, Terminated, EndsLine;
    UploadFacts(s, q);
    FewerUploads(s, q);
    var u := s.(uploads := s.uploads - {q});
    SamePresent(s, u, s.items[q].key);
    LineEnd(s.items[q].data);
    StoreMissingLaw(u, q, verb, blocked, memOk);
    StoreInv(u, q, verb, blocked, memOk);
    var (t, r) := Store(u, q, verb, blocked, memOk);
    HolderFacts(t, q);
    ChunkFacts(t, q);
    var it := s.items[q];
    if r.Stored? {
      CarriesFrom(s, u, t, q, it.key, it.flags, it.exptime, it.data, r.cas);
      CarriesRelease(s, t, q, it.key, it.flags, it.exptime, it.data, r.cas, q);
    } else {
      GoneRelease(t, q, it.key);
    }
  }

  lemma SamePresent(s: State, t: State, k: Key)
    requires t.items == s.items && t.rebal == s.rebal && t.now == s.now && t.oldestLive == s.oldestLive
    ensures forall p :: Finds(t, k, p) <==> Finds(s, k, p)
  {
  }

  lemma GoneRelease(s: State, p: Chunk, k: Key)
    requires Has(s, p) && Gone(s, k)
    ensures Gone(Release(s, p), k)
  {
  }

  /** Storing a body under a key where item o is found. */
  lemma CompleteOver(s: State, q: Chunk, o: Chunk, verb: Verb, blocked: set<Key>, memOk: bool)
    requires Inv(s) && q in s.uploads && q in s.items && Terminated(s.items[q].data)
    requires Finds(s, s.items[q].key, o)
    ensures |s.items[q].data| >= 2 && |s.items[o].data| >= 2
    ensures var (t, r) := CompleteStep(s, q, verb, blocked, memOk);
      && r.Finished? && OverOutcome(s, q, o, verb, blocked, memOk, Some(o), r.outcome)
      && OverEffect(s, t, q, o, verb, r.outcome)
  {
    hide Inv, Store, Release, Carries, Stays, Stores, Terminated, EndsLine, CanAlloc, OverOutcome, OverEffect;
    UploadFacts(s, q);
    FewerUploads(s, q);
    var u := s.(uploads := s.uploads - {q});
    SamePresent(s, u, s.items[q].key);
    LineEnd(s.items[q].data);
    StoreOverLaw(u, q, o, verb, blocked, memOk);
    StoreInv(u, q, verb, blocked, memOk);
    var (t, r) := Store(u, q, verb, blocked, memOk);
    HolderFacts(t, q);
    ChunkFacts(t, q);
    OutcomeSame(s, u, q, o, verb, blocked, memOk, r);
    EffectRelease(s, u, t, q, o, verb, r);
  }

  lemma OutcomeSame(s: State, u: State, q: Chunk, o: Chunk, verb: Verb, blocked: set<Key>, memOk: bool, r: Outcome)
    requires q in s.items && o in s.items && |s.items[o].data| >= 2 && s.(uploads := u.uploads) == u
    requires OverOutcome(u, q, o, verb, blocked, memOk, Some(o), r)
    ensures OverOutcome(s, q, o, verb, blocked, memOk, Some(o), r)
  {
    hide CanAlloc;
    var it := s.items[o];
    UploadsCan(s, u.uploads, it.key, it.flags, |it.data| - 2 + |s.items[q].data|, blocked, memOk, Some(o));
  }

  lemma EffectRelease(s: State, u: State, t: State, q: Chunk, o: Chunk, verb: Verb, r: Outcome)
    requires q in s.items && o in s.items && |s.items[o].data| >= 2 && |s.items[q].data| >= 2
    requires s.(uploads := u.uploads) == u && Has(t, q) && OverEffect(u, t, q, o, verb, r)
    ensures OverEffect(s, Release(t, q), q, o, verb, r)
  {
    assert forall n, k, f, e, d, c :: Carries(u, t, n, k, f, e, d, c) ==> Carries(s, Release(t, q), n, k, f, e, d, c);
  }

  // ----- get, touch and delete

  /** get: a hit if and only if the key is present; the reply has the bytes and the id of the
      item, and a reference is taken to it. */
  lemma GetLaw(s: State, k: Key)
    requires Inv(s)
    ensures var (t, r) := GetStep(s, k);
      && (r.Hit? <==> Present(s, k))
      && (forall p :: Finds(s, k, p) ==>
            && r == Hit(p, s.items[p].flags, s.items[p].data, Id(s, p))
            && t.holders == s.holders + multiset{p} && Stays(s, t, p))
      && (!Present(s, k) ==> r == Miss && Gone(t, k) && t.holders == s.holders)
  {
    hide Inv, Get, Update, Finds, Stays, Gone;
    LookUpIff(s, k);
    FoundIff(s, k);
    var (t, found) := Get(s, k);
    if found.Some? {
      var p := found.value;
      FoundFacts(s, k);
      FindsLinked(s, k, p);
      OneStays(s, p, p);
      StaysLinked(s, t, p);
      OneStays(t, p, p);
      UpdateHolds(t, p);
      StaysTrans(s, t, Update(t, p), p);
    }
  }

  lemma FindsLinked(s: State, k: Key, p: Chunk)
    requires Finds(s, k, p)
    ensures p in s.items && s.items[p].linked && s.items[p].key == k
  {
  }

  /** touch: Touched if and only if the key is present, and then the expiry is the new one, the
      item has been bumped, and nothing else has changed. */
  lemma TouchLaw(s: State, k: Key, exptime: nat)
    requires Inv(s)
    ensures var (t, r) := TouchStep(s, k, exptime);
      && r == (if Present(s, k) then Touched else Miss)
      && (forall p :: Finds(s, k, p) ==>
            && p in t.items && t.items[p].exptime == exptime
            && (s.now < 0x1_0000_0000 ==>
                  t.items[p].time == if Bumps(s.now, s.items[p].time) then s.now else s.items[p].time)
            && Stays(s, t.(items := t.items[p := t.items[p].(exptime := s.items[p].exptime)]), p))
      && (!Present(s, k) ==> Gone(t, k))
  {
    hide Inv, Get, Update, Finds, Gone, Release, Bumps;
    LookUpIff(s, k);
    FoundIff(s, k);
    var (t, found) := Get(s, k);
    if found.Some? {
      var p := found.value;
      FoundFacts(s, k);
      FindsLinked(s, k, p);
      var u := t.(items := t.items[p := t.items[p].(exptime := exptime)]);
      LinkedIsIndexed(s, p);
      Renewed(u, p);
    }
  }

  lemma Renewed(s: State, p: Chunk)
    requires Has(s, p) && s.items[p].linked && s.items[p].time <= s.now
    ensures var t := Release(Update(s, p), p);
      && p in t.items && t.items[p].linked && t.items[p].key == s.items[p].key && t.items[p].flags == s.items[p].flags
      && t.items[p].data == s.items[p].data && t.items[p].exptime == s.items[p].exptime
      && t.items[p].cas == s.items[p].cas && t.items[p].time >= s.items[p].time
      && (s.now < 0x1_0000_0000 ==>
            t.items[p].time == if Bumps(s.now, s.items[p].time) then s.now else s.items[p].time)
  {
    hide Bumps, Staleness;
    if s.now < 0x1_0000_0000 { BumpIff(s, p); }
  }

  /** delete: Deleted if and only if the key is present, Miss otherwise, and either way nothing
      is linked under it any more. */
  lemma DeleteLaw(s: State, k: Key)
    requires Inv(s)
    ensures ClientStep(s, DeleteKey(k)).1 == if Present(s, k) then Deleted else Miss
    ensures Gone(ClientStep(s, DeleteKey(k)).0, k)
  {
    hide Inv, Get, Finds, Unlink, Release;
    LookUpIff(s, k);
    FoundIff(s, k);
    DeleteInv(s, k);
    var (t, found) := Get(s, k);
    if found.Some? {
      FoundFacts(s, k);
      R.UnlinkedGone(t, found.value);
      NotIndexed(Delete(s, k).0, k);
    }
  }

  /** flush_all without a delay: no key is present any more. */
  lemma FlushLaw(s: State, k: Key)
    requires Inv(s)
    ensures !Present(FlushAll(s), k)
  {
    hide Memory, Pages, Lists, Accounts, Uploads, Queued, Freed, Index, Ordered, CasIds, Mover, Counters, FlushAll;
    FlushAllInv(s);
  }

  // ----- incr and decr

  /** What the client is told and what is stored: the sum in 64 bits, or the difference, or 0
      if the difference would be negative. */
  ghost predicate Reads(text: string, n: nat) { D.SafeStrtoull(text) == Some(n) }

  function Sum64(v: nat, d: nat): nat { (v + d) % 0x1_0000_0000_0000_0000 }

  function Difference(v: nat, d: nat): nat { if d <= v then v - d else 0 }

  lemma TextReads(incr: bool, v: nat, d: nat)
    requires v < D.TWO64
    ensures Applied(incr, v, d) == if incr then Sum64(v, d) else Difference(v, d)
    ensures Reads(D.Digits(Applied(incr, v, d)), Applied(incr, v, d))
  {
    hide D.Digits, D.SafeStrtoull;
    var n := Applied(incr, v, d);
    D.PrintThenParse(n, []);
    assert D.Digits(n) + [] == D.Digits(n);
  }

  lemma ParsedFits(data: string, behind: string)
    ensures var v := D.Parsed(data, behind); v.Some? ==> v.value < D.TWO64
  {
    hide D.Span, D.Value;
  }

  /** The answer to an incr or decr of the entry o is found under. */
  ghost predicate DeltaAnswer(s: State, o: Chunk, incr: bool, d: nat, cas: nat, behind: string, blocked: set<Key>,
                              memOk: bool, r: DeltaResult)
    requires o in s.items
  {
    var v := D.Parsed(s.items[o].data, behind);
    if cas != 0 && cas != Id(s, o) then r == CasMismatch
    else if v == None then r == NonNumeric
    else
      var n := if incr then Sum64(v.value, d) else Difference(v.value, d);
      if CanAlloc(s, s.items[o].key, s.items[o].flags, |D.Digits(n)| + 2, blocked, memOk, Some(o))
      then r.DeltaOk? && Reads(r.text, n) else r == OutOfMemory
  }

  /** What is linked afterwards: an item with the new text, whose id o is given as well; or o as
      it was. */
  ghost predicate DeltaEffect(s: State, t: State, o: Chunk, r: DeltaResult)
    requires o in s.items
  {
    if r.DeltaOk? then
      && Stores(s, t, s.items[o].key, s.items[o].flags, s.items[o].exptime, r.text + "\r\n", r.cas)
      && o in t.items && !t.items[o].linked && (s.cfg.useCas ==> t.items[o].cas == r.cas)
    else Stays(s, t, o)
  }

  lemma DeltaMissing(s: State, k: Key, incr: bool, d: nat, cas: nat, behind: string, blocked: set<Key>, memOk: bool)
    requires Inv(s)
    ensures var (t, r) := AddDelta(s, k, incr, d, cas, behind, blocked, memOk);
      && (r == DeltaNotFound <==> !Present(s, k))
      && (!Present(s, k) ==> Gone(t, k))
  {
    hide Inv, Get, Exchange, Gone, Finds, Release;
    GetInv(s, k);
    LookUpIff(s, k);
    FoundIff(s, k);
    if Get(s, k).1.Some? { FoundFacts(s, k); }
  }

  lemma RestampCarries(s: State, t: State, n: Chunk, k: Key, flags: int, exptime: nat, data: string, cas: nat, p: Chunk,
                       id: nat)
    requires Carries(s, t, n, k, flags, exptime, data, cas) && p in t.items && !t.items[p].linked
    ensures Carries(s, Restamp(t, p, id), n, k, flags, exptime, data, cas)
    ensures var u := Restamp(t, p, id); p in u.items && !u.items[p].linked && (s.cfg.useCas ==> u.items[p].cas == id)
  {
  }

  /** The same on the state in which the entry is held. */
  lemma DeltaHeld(s: State, k: Key, incr: bool, d: nat, cas: nat, behind: string, blocked: set<Key>, memOk: bool,
                  t: State, o: Chunk)
    requires Inv(s) && Get(s, k) == (t, Some(o))
    ensures o in t.items
    ensures var (u, r) := AddDelta(s, k, incr, d, cas, behind, blocked, memOk); var it := t.items[o];
      var v := D.Parsed(it.data, behind);
      if cas != 0 && cas != Id(t, o) then r == CasMismatch && Stays(t, u, o)
      else if v == None then r == NonNumeric && Stays(t, u, o)
      else
        var n := if incr then Sum64(v.value, d) else Difference(v.value, d);
        if CanAlloc(t, k, it.flags, |D.Digits(n)| + 2, blocked, memOk, None)
        then
          && r.DeltaOk? && Reads(r.text, n) && Stores(t, u, k, it.flags, it.exptime, r.text + "\r\n", r.cas)
          && o in u.items && !u.items[o].linked && (t.cfg.useCas ==> u.items[o].cas == r.cas)
        else r == OutOfMemory && Stays(t, u, o)
  {
    hide Inv, Get, Exchange, Stays, Carries, Release, Applied, Restamp, CanAlloc, Reads, D.Digits, D.Parsed,
         Sum64, Difference;
    GetInv(s, k);
    FoundFacts(s, k);
    OneStays(t, o, o);
    var it := t.items[o];
    var v := D.Parsed(it.data, behind);
    ParsedFits(it.data, behind);
    if (cas == 0 || cas == Id(t, o)) && v.Some? {
      TextReads(incr, v.value, d);
      var text := D.Digits(Applied(incr, v.value, d));
      ExchangeLaw(t, o, k, it.flags, it.exptime, text + "\r\n", blocked, memOk);
      var (u, r) := Exchange(t, o, k, it.flags, it.exptime, text + "\r\n", blocked, memOk);
      if r.Stored? {
        ExchangeOld(t, o, k, it.flags, it.exptime, text + "\r\n", blocked, memOk);
        var n :| Carries(t, u, n, k, it.flags, it.exptime, text + "\r\n", r.cas);
        RestampCarries(t, u, n, k, it.flags, it.exptime, text + "\r\n", r.cas, o, r.cas);
      }
    }
  }

  /** incr and decr of the entry o is found under: the answer, what is then stored, and that
      both are the 64-bit sum or the difference cut off at 0. */
  lemma DeltaLaw(s: State, k: Key, o: Chunk, incr: bool, d: nat, cas: nat, behind: string, blocked: set<Key>,
                 memOk: bool)
    requires Inv(s) && Finds(s, k, o)
    ensures var (t, r) := AddDelta(s, k, incr, d, cas, behind, blocked, memOk);
      DeltaAnswer(s, o, incr, d, cas, behind, blocked, memOk, r) && DeltaEffect(s, t, o, r)
  {
    hide Inv, Get, AddDelta, Stays, Carries, CanAlloc, Reads, D.Digits, D.Parsed, Sum64, Difference;
    LookUpIff(s, k);
    GetCas(s, k);
    var t := Get(s, k).0;
    DeltaHeld(s, k, incr, d, cas, behind, blocked, memOk, t, o);
    var (u, r) := AddDelta(s, k, incr, d, cas, behind, blocked, memOk);
    var it := s.items[o];
    var v := D.Parsed(it.data, behind);
    if v.Some? {
      var n := if incr then Sum64(v.value, d) else Difference(v.value, d);
      HoldCan(s, o, k, it.flags, |D.Digits(n)| + 2, blocked, memOk);
    }
    if r.DeltaOk? {
      var n :| Carries(t, u, n, k, it.flags, it.exptime, r.text + "\r\n", r.cas);
      CarriesFrom(s, t, u, n, k, it.flags, it.exptime, r.text + "\r\n", r.cas);
    } else {
      StaysHeld(s, u, o);
    }
  }

  lemma StaysHeld(s: State, t: State, o: Chunk)
    requires Has(s, o) && Stays(Hold(s, o), t, o)
    ensures Stays(s, t, o)
  {
  }

  // ----- the header of a storage command

  /** An upload begins if and only if there is room for the item, in a chunk nobody holds; a
      set for which there is none leaves nothing under the key, the other verbs leave all as it
      was. */
  lemma BeginLaw(s: State, c: Command)
    requires Inv(s) && c.Begin? && |c.junk| >= 2
    ensures var (t, r) := BeginStep(s, c);
      if CanAlloc(s, c.key, c.flags, |c.junk|, c.blocked, c.memOk, None) then
        && r.Uploading? && r.p in t.items && s.holders[r.p] == 0 && t.holders == s.holders + multiset{r.p}
        && t.uploads == s.uploads + {r.p} && !t.items[r.p].linked
        && t.items[r.p].key == c.key && t.items[r.p].flags == c.flags && t.items[r.p].exptime == c.exptime
        && t.items[r.p].data == c.junk && Id(t, r.p) == (if s.cfg.useCas then c.cas else 0)
      else
        && r == NoRoom
        && if c.verb == Set then Gone(t, c.key) && t.holders == s.holders else t == s
  {
    hide Inv, ItemAlloc, CanAlloc, Get, Delete, Gone;
    AllocIff(s, c.key, c.flags, c.exptime, c.junk, c.blocked, c.memOk);
    ItemAllocInv(s, c.key, c.flags, c.exptime, c.junk, c.blocked, c.memOk);
    DeleteInv(s, c.key);
    DeleteLaw(s, c.key);
  }

  // ----- giving references back

  /** One reference less; the last one to an item that is not linked frees its chunk, which is
      then the next of its class to be handed out. */
  lemma ReleaseLaw(s: State, p: Chunk)
    requires Inv(s) && p in s.holders
    ensures p in s.items
    ensures var t := DoneStep(s, p);
      && t.holders == s.holders - multiset{p} && t.index == s.index && t.lru == s.lru && t.owner == s.owner
      && p in t.items && p.page in s.owner && s.owner[p.page] < |s.free| == |t.free|
      && if !s.items[p].linked && s.holders[p] == 1 then
           t.items[p].slabbed && t.free[s.owner[p.page]] == [p] + s.free[s.owner[p.page]]
         else t.free == s.free && t.items[p] == s.items[p].(refcount := t.items[p].refcount) && t.items[p].refcount > 0
  {
    hide Inv;
    HolderFacts(s, p);
    ChunkFacts(s, p);
  }

  /** A connection that closes in the middle of an upload leaves nothing of it. */
  lemma AbortLaw(s: State, p: Chunk)
    requires Inv(s) && p in s.uploads
    ensures p in s.items
    ensures var t := AbortStep(s, p);
      && t.holders == s.holders - multiset{p} && t.uploads == s.uploads - {p} && t.index == s.index && t.lru == s.lru
      && p in t.items && t.items[p].slabbed
  {
    hide Inv;
    UploadFacts(s, p);
    ChunkFacts(s, p);
  }

  /** A body that has been dealt with is no upload any more, and its reference is back. */
  lemma CompleteReturns(s: State, q: Chunk, verb: Verb, blocked: set<Key>, memOk: bool)
    requires Inv(s) && q in s.uploads
    ensures var t := CompleteStep(s, q, verb, blocked, memOk).0;
      t.uploads == s.uploads - {q} && t.holders == s.holders - multiset{q}
  {
    hide Inv, Store;
    UploadFacts(s, q);
    FewerUploads(s, q);
    StoreInv(s.(uploads := s.uploads - {q}), q, verb, blocked, memOk);
  }

  /** An item whose read has bumped it, the reply being sent, is the next one evicted only if no
      other of its class could be. */
  lemma JustReadIsSafe(s: State, k: Key, p: Chunk, key: Key, flags: int, exptime: nat, data: string, blocked: set<Key>,
                       memOk: bool)
    requires Inv(s) && Finds(s, k, p) && s.now < 0x1_0000_0000 && Bumps(s.now, s.items[p].time) && |data| >= 2
    ensures var t := GetStep(s, k).0;
      Inv(t) && p in t.holders &&
      var u := DoneStep(t, p);
        && Inv(u)
        && (ItemAlloc(u, key, flags, exptime, data, blocked, memOk).1 == Some(p) ==>
              && Has(u, p) && |u.lru[ClassOf(u, p)]| <= 5
              && forall q :: q in u.lru[ClassOf(u, p)] && q != p ==> q in u.items && !Idle(u, q, blocked, None))
  {
    hide Inv, GetStep, Finds, Bumps, ItemAlloc, ToFront, Idle, DoneStep, Stays;
    FindsLinked(s, k, p);
    LookupInv(s, k, 0);
    GetLaw(s, k);
    ReadBumps(s, k, p);
    var t := GetStep(s, k).0;
    GetOwner(s, k, p);
    StaysLinked(s, t, p);
    ReleaseLaw(t, p);
    DoneInv(t, p);
    var u := DoneStep(t, p);
    FrontFirst(s.lru[ClassOf(s, p)], t.lru[ClassOf(s, p)], p);
    LinkedIsIndexed(u, p);
    HeadIsSafe(u, key, flags, exptime, data, blocked, memOk);
    EvictsOldest(u, key, flags, exptime, data, blocked, memOk);
    var c := ClassFor(u, key, flags, |data|);
    if ItemAlloc(u, key, flags, exptime, data, blocked, memOk).1 == Some(p) { QueueOf(u, c, p); }
  }

  lemma FrontFirst(q: seq<Chunk>, r: seq<Chunk>, p: Chunk)
    requires ToFront(q, r, p)
    ensures r != [] && r[0] == p
  {
  }

  lemma QueueOf(s: State, c: nat, p: Chunk)
    requires Inv(s) && c < |s.lru| && p in s.lru[c]
    ensures p.page in s.owner && s.owner[p.page] == c
  {
    hide Memory, Pages, Accounts, Uploads, Queued, Freed, Index, Ordered, Clock, CasIds, Mover, Counters;
  }

  /** A look-up moves nothing to another class. */
  lemma GetOwner(s: State, k: Key, p: Chunk)
    requires Inv(s) && Finds(s, k, p)
    ensures var t := GetStep(s, k).0; t.owner == s.owner && p !in t.uploads
  {
    hide Inv, Get;
    LookUpIff(s, k);
    FoundFacts(s, k);
  }
}
