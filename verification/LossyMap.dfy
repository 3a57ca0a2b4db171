/** What a client may observe: a map that can lose entries at any time but never invents,
    mixes up or resurrects one.  The map is computed from commands and replies alone. */
module LossyMap {
  import opened Seqs
  import opened CacheState
  import opened CacheOps
  import opened Commands
  import D = Decimal

  datatype Entry = Entry(flags: int, data: string, exptime: nat, cas: nat)

  /** An upload a client has begun and not finished. */
  datatype Pending = Pending(key: Key, flags: int, data: string, exptime: nat, cas: nat)

  datatype Ideal = Ideal(entries: map<Key, Entry>, pending: map<Chunk, Pending>, now: nat, useCas: bool, lastCas: nat)

  predicate Live(i: Ideal, k: Key) {
    k in i.entries && (i.entries[k].exptime == 0 || i.entries[k].exptime > i.now)
  }

  predicate NewCas(i: Ideal, cas: nat) { if i.useCas then cas > i.lastCas else cas == 0 }

  /** Replies to a finished upload of u. */
  predicate AllowedStore(i: Ideal, u: Pending, verb: Verb, r: Outcome) {
    var live := Live(i, u.key);
    (r.Stored? ==> NewCas(i, r.cas)) &&
    match verb
    case Set => r.Stored?
    case Add => r.Stored? || (r.NotStored? && live)
    case Swap => (r.Stored? && live) || r.NotStored?
    case Append | Prepend =>
      || (r.Stored? && live && (u.cas == 0 || u.cas == i.entries[u.key].cas))
      || (r.Exists? && live && u.cas != 0 && u.cas != i.entries[u.key].cas)
      || r.NotStored?
    case Cas =>
      || (r.Stored? && live && u.cas == i.entries[u.key].cas)
      || (r.Exists? && live && u.cas != i.entries[u.key].cas)
      || r.NotFound?
  }

  predicate AllowedDelta(i: Ideal, k: Key, incr: bool, delta: nat, cas: nat, behind: string, r: DeltaResult) {
    match r
    case DeltaNotFound => true
    case CasMismatch => Live(i, k) && cas != 0 && cas != i.entries[k].cas
    case NonNumeric => Live(i, k) && (cas == 0 || cas == i.entries[k].cas) && D.Parsed(i.entries[k].data, behind).None?
    case OutOfMemory => Live(i, k) && (cas == 0 || cas == i.entries[k].cas) && D.Parsed(i.entries[k].data, behind).Some?
    case DeltaOk(text, newCas) =>
      && Live(i, k) && (cas == 0 || cas == i.entries[k].cas) && NewCas(i, newCas)
      && D.Parsed(i.entries[k].data, behind).Some?
      && text == D.Digits(Applied(incr, D.Parsed(i.entries[k].data, behind).value, delta))
  }

  /** The replies a lossy cache may give. */
  predicate Allowed(i: Ideal, c: Command, r: Reply) {
    match c
    case Begin(_, _, _, _, _, _, _, _) => (r.Uploading? && r.p !in i.pending) || r == NoRoom
    case Complete(p, verb, _, _) =>
      p in i.pending &&
      if EndsLine(i.pending[p].data) then r.Finished? && AllowedStore(i, i.pending[p], verb, r.outcome)
      else r == BadChunk
    case GetKey(k) =>
      || r == Miss
      || (r.Hit? && Live(i, k) && var e := i.entries[k]; r.flags == e.flags && r.data == e.data && r.cas == e.cas)
    case DeleteKey(k) => r == Miss || (r == Deleted && Live(i, k))
    case TouchKey(k, _) => r == Miss || (r == Touched && Live(i, k))
    case Delta(k, incr, delta, cas, behind, _, _) =>
      r.Counted? && AllowedDelta(i, k, incr, delta, cas, behind, r.result)
    case _ => r == Silent
  }

  function Write(i: Ideal, k: Key, e: Entry): Ideal {
    i.(entries := i.entries[k := e], lastCas := if i.useCas then e.cas else i.lastCas)
  }

  function Lose(i: Ideal, k: Key): Ideal { i.(entries := i.entries - {k}) }

  function AfterStore(i: Ideal, u: Pending, verb: Verb, r: Outcome): Ideal {
    match r
    case Stored(cas) =>
      if (verb == Append || verb == Prepend) && u.key in i.entries && |u.data| >= 2 && |i.entries[u.key].data| >= 2 then
        var e := i.entries[u.key];
        var data := if verb == Append then Joined(e.data, u.data) else Joined(u.data, e.data);
        Write(i, u.key, Entry(e.flags, data, e.exptime, cas))
      else Write(i, u.key, Entry(u.flags, u.data, u.exptime, cas))
    case NotStored => if verb == Swap then Lose(i, u.key) else i
    case Exists => i
    case NotFound => Lose(i, u.key)
  }

  /** How the ideal map follows an exchange.  A reply that says an entry is missing removes
      it, so nothing that was once missed comes back without a store. */
  function After(i: Ideal, c: Command, r: Reply): Ideal {
    match c
    case Begin(k, flags, exptime, verb, cas, junk, _, _) =>
      if r.Uploading?
      then i.(pending := i.pending[r.p := Pending(k, flags, junk, exptime, if i.useCas then cas else 0)])
      else if verb == Set then Lose(i, k) else i
    case Fill(p, bytes) => if p in i.pending then i.(pending := i.pending[p := i.pending[p].(data := bytes)]) else i
    case Complete(p, verb, _, _) =>
      if p !in i.pending then i else
        var j := i.(pending := i.pending - {p});
        if r.Finished? then AfterStore(j, i.pending[p], verb, r.outcome) else j
    case Abort(p) => i.(pending := i.pending - {p})
    case GetKey(k) => if r == Miss then Lose(i, k) else i
    case DeleteKey(k) => Lose(i, k)
    case TouchKey(k, exptime) =>
      if r == Touched && k in i.entries then i.(entries := i.entries[k := i.entries[k].(exptime := exptime)])
      else Lose(i, k)
    case Delta(k, _, _, _, _, _, _) =>
      if r.Counted? && r.result.DeltaOk? && k in i.entries then
        var e := i.entries[k];
        Write(i, k, Entry(e.flags, r.result.text + "\r\n", e.exptime, r.result.cas))
      else if r == Counted(DeltaNotFound) then Lose(i, k) else i
    case Flush => i.(entries := map[])
    case Tick(now) => i.(now := now)
    case _ => i
  }
}
