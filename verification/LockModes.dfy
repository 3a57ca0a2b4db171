/** The hand-over between fine-grained item locks and the global lock while the hash table
    is expanded: the maintenance thread of assoc.c and any number of worker threads of
    thread.c, step by step, in any order. */
module LockModes {
  import opened Seqs

  datatype Mode = Granular | Global

  /** The bytes of a worker's notify pipe: 'l', 'g', and 'c' for a new connection. */
  datatype Byte = Flip(mode: Mode) | NewConn

  datatype Lock = ItemLock(idx: nat) | GlobalLock

  /** Where a worker is: in the event loop; after setting its mode and before reporting in;
      in item_lock, waiting for a mutex; between item_lock and item_unlock. */
  datatype Place = Loop | Reporting | Asking(hv: nat, lock: Lock) | Inside(hv: nat, lock: Lock)

  datatype Worker = Worker(mode: Mode, pipe: seq<Byte>, at: Place)

  /** Where the maintenance thread is.  Writing and Waiting are inside switch_item_lock_type;
      init_lock is held while Writing. */
  datatype Maintenance =
    | Round | Moving | Writing(mode: Mode, next: nat) | Waiting(mode: Mode) | Asleep | Expanding

  datatype Owner = Nobody | Maintainer | ByWorker(id: nat)

  datatype World = World(
    workers: seq<Worker>, main: Maintenance, initCount: nat,
    hashpower: nat, expanding: bool, lockCount: nat,
    globalOwner: Owner, owners: map<nat, nat>)

  function HashMask(hv: nat, power: nat): nat { hv % Pow2(power) }

  /** The mutex item_lock and item_unlock pick. */
  function LockFor(mode: Mode, hv: nat, power: nat, lockCount: nat): Lock
    requires lockCount > 0
  {
    if mode == Granular then ItemLock(HashMask(hv, power) % lockCount) else GlobalLock
  }

  // ----- steps

  datatype Step =
    | Notify(i: nat)                    // the dispatcher hands over a connection
    | ReadByte(i: nat)                  // thread_libevent_process
    | Report(i: nat)                    // register_thread_initialized
    | Ask(i: nat, hv: nat)              // item_lock is called
    | Take(i: nat)                      // and gets its mutex
    | Leave(i: nat)                     // item_unlock
    | StartRound                        // item_lock_global
    | EndRound(stillExpanding: bool)    // buckets moved, item_unlock_global
    | WriteByte                         // one write of switch_item_lock_type
    | AllIn                             // wait_for_thread_registration returns
    | WakeUp                            // assoc_start_expand has signalled
    | Expand(ok: bool)                  // assoc_expand; `ok` is the answer of calloc

  predicate Free(w: World, lock: Lock) {
    match lock
    case GlobalLock => w.globalOwner == Nobody
    case ItemLock(k) => k !in w.owners
  }

  predicate Enabled(w: World, s: Step) {
    match s
    case Notify(i) => i < |w.workers|
    case ReadByte(i) => i < |w.workers| && w.workers[i].at.Loop? && w.workers[i].pipe != []
    case Report(i) => i < |w.workers| && w.workers[i].at.Reporting? && !w.main.Writing?
    case Ask(i, _) => i < |w.workers| && w.workers[i].at.Loop? && w.lockCount > 0
    case Take(i) => i < |w.workers| && w.workers[i].at.Asking? && Free(w, w.workers[i].at.lock)
    case Leave(i) => i < |w.workers| && w.workers[i].at.Inside? && w.lockCount > 0
    case StartRound => w.main.Round? && w.globalOwner == Nobody
    case EndRound(still) => w.main.Moving? && (still ==> w.expanding)
    case WriteByte => w.main.Writing?
    case AllIn => w.main.Waiting? && w.initCount >= |w.workers|
    case WakeUp => w.main.Asleep?
    case Expand(_) => w.main.Expanding?
  }

  function Put(w: World, i: nat, x: Worker): World
    requires i < |w.workers|
  {
    w.(workers := w.workers[i := x])
  }

  function Grab(w: World, i: nat, lock: Lock): World {
    match lock
    case GlobalLock => w.(globalOwner := ByWorker(i))
    case ItemLock(k) => w.(owners := w.owners[k := i])
  }

  function Drop(w: World, lock: Lock): World {
    match lock
    case GlobalLock => w.(globalOwner := Nobody)
    case ItemLock(k) => w.(owners := w.owners - {k})
  }

  function Next(w: World, s: Step): World
    requires Enabled(w, s)
  {
    match s
    case Notify(i) => Put(w, i, w.workers[i].(pipe := w.workers[i].pipe + [NewConn]))
    case ReadByte(i) =>
      var x := w.workers[i].(pipe := w.workers[i].pipe[1..]);
      (match w.workers[i].pipe[0]
       case NewConn => Put(w, i, x)
       case Flip(m) => Put(w, i, x.(mode := m, at := Reporting)))
    case Report(i) => Put(w, i, w.workers[i].(at := Loop)).(initCount := w.initCount + 1)
    case Ask(i, hv) => Put(w, i,
        w.workers[i].(at := Asking(hv, LockFor(w.workers[i].mode, hv, w.hashpower, w.lockCount))))
    case Take(i) =>
      var a := w.workers[i].at;
      Grab(Put(w, i, w.workers[i].(at := Inside(a.hv, a.lock))), i, a.lock)
    case Leave(i) =>
      // item_unlock works out the mutex again
      Drop(Put(w, i, w.workers[i].(at := Loop)),
          LockFor(w.workers[i].mode, w.workers[i].at.hv, w.hashpower, w.lockCount))
    case StartRound => w.(main := Moving, globalOwner := Maintainer)
    case EndRound(still) =>
      w.(globalOwner := Nobody, expanding := still,
         main := if still then Round else Writing(Granular, 0),
         initCount := if still then w.initCount else 0)
    case WriteByte =>
      var (m, i) := (w.main.mode, w.main.next);
      if i < |w.workers| then
        Put(w, i, w.workers[i].(pipe := w.workers[i].pipe + [Flip(m)])).(main := Writing(m, i + 1))
      else w.(main := Waiting(m))
    case AllIn => w.(main := if w.main.mode == Granular then Asleep else Expanding)
    case WakeUp => w.(main := Writing(Global, 0), initCount := 0)
    case Expand(ok) =>
      w.(main := Round, hashpower := if ok then w.hashpower + 1 else w.hashpower, expanding := ok)
  }

  // ----- the invariant

  /** The mode bytes still in a pipe. */
  function Flips(pipe: seq<Byte>): seq<Byte> {
    if pipe == [] then [] else (if pipe[0].Flip? then [pipe[0]] else []) + Flips(pipe[1..])
  }

  /** A worker that has been told to flip and has not reported in. */
  predicate Owes(x: Worker) { Flips(x.pipe) != [] || x.at.Reporting? }

  /** One worker, seen from the state of the maintenance thread: told to flip to m once. */
  predicate Told(x: Worker, m: Mode) {
    if x.at.Reporting? then Flips(x.pipe) == [] && x.mode == m else Flips(x.pipe) == [Flip(m)]
  }

  function Owing(ws: seq<Worker>): nat {
    if ws == [] then 0 else (if Owes(ws[0]) then 1 else 0) + Owing(ws[1..])
  }

  ghost predicate AllMode(ws: seq<Worker>, m: Mode) { forall i :: 0 <= i < |ws| ==> ws[i].mode == m && !Owes(ws[i]) }

  /** The counting of the handshake, and the modes it leads to. */
  ghost predicate Handshake(ws: seq<Worker>, main: Maintenance, initCount: nat, expanding: bool) {
    match main
    case Writing(m, n) =>
      && n <= |ws| && initCount == 0 && !expanding
      && (forall i :: 0 <= i < n ==> Told(ws[i], m))
      && (forall i :: n <= i < |ws| ==> !Owes(ws[i]))
    case Waiting(m) =>
      && initCount + Owing(ws) == |ws| && !expanding
      && (forall i :: 0 <= i < |ws| ==> if Owes(ws[i]) then Told(ws[i], m) else ws[i].mode == m)
    case Asleep => AllMode(ws, Granular) && !expanding
    case Expanding => AllMode(ws, Global) && !expanding
    case _ => AllMode(ws, Global) || (!expanding && AllMode(ws, Granular))
  }

  /** A worker asks for, and holds, the mutex its mode and the table size call for. */
  ghost predicate Locked(ws: seq<Worker>, hashpower: nat, lockCount: nat) {
    && lockCount > 0
    && (forall i :: 0 <= i < |ws| && (ws[i].at.Asking? || ws[i].at.Inside?) ==>
          ws[i].at.lock == LockFor(ws[i].mode, ws[i].at.hv, hashpower, lockCount))
  }

  /** Every mutex has at most one holder. */
  ghost predicate Owned(ws: seq<Worker>, main: Maintenance, globalOwner: Owner, owners: map<nat, nat>) {
    && (forall i :: 0 <= i < |ws| && ws[i].at.Inside? && ws[i].at.lock == GlobalLock ==> globalOwner == ByWorker(i))
    && (forall i :: 0 <= i < |ws| && ws[i].at.Inside? && ws[i].at.lock.ItemLock? ==>
          ws[i].at.lock.idx in owners && owners[ws[i].at.lock.idx] == i)
    && (globalOwner.ByWorker? ==>
          globalOwner.id < |ws| && ws[globalOwner.id].at.Inside? && ws[globalOwner.id].at.lock == GlobalLock)
    && (forall k :: k in owners ==>
          owners[k] < |ws| && ws[owners[k]].at.Inside? && ws[owners[k]].at.lock == ItemLock(k))
    && (globalOwner == Maintainer <==> main.Moving?)
  }

  ghost predicate Inv(w: World) {
    && Handshake(w.workers, w.main, w.initCount, w.expanding)
    && Locked(w.workers, w.hashpower, w.lockCount)
    && Owned(w.workers, w.main, w.globalOwner, w.owners)
  }

  /** After thread_init: every worker in its event loop with fine-grained locks. */
  ghost predicate Start(w: World) {
    && (forall i :: 0 <= i < |w.workers| ==> w.workers[i] == Worker(Granular, [], Loop))
    && w.main == Round && !w.expanding && w.lockCount > 0 && w.globalOwner == Nobody && w.owners == map[]
  }

  lemma StartInv(w: World)
    requires Start(w)
    ensures Inv(w)
  {
  }

  lemma {:induction false} FlipsAppend(pipe: seq<Byte>, b: Byte)
    ensures Flips(pipe + [b]) == Flips(pipe) + (if b.Flip? then [b] else [])
  {
    if pipe != [] {
      FlipsAppend(pipe[1..], b);
      assert (pipe + [b])[1..] == pipe[1..] + [b];
    }
  }

  lemma {:induction false} OwingPut(ws: seq<Worker>, i: nat, x: Worker)
    requires i < |ws|
    ensures Owing(ws[i := x]) + (if Owes(ws[i]) then 1 else 0) == Owing(ws) + (if Owes(x) then 1 else 0)
  {
    if i > 0 {
      OwingPut(ws[1..], i - 1, x);
      assert ws[i := x][1..] == ws[1..][i - 1 := x];
    }
  }

  lemma {:induction false} OwingBound(ws: seq<Worker>)
    ensures Owing(ws) <= |ws|
    ensures Owing(ws) == 0 ==> forall i :: 0 <= i < |ws| ==> !Owes(ws[i])
    ensures (forall i :: 0 <= i < |ws| ==> Owes(ws[i])) ==> Owing(ws) == |ws|
  {
    if ws != [] {
      OwingBound(ws[1..]);
      assert forall i :: 0 < i < |ws| ==> ws[i] == ws[1..][i - 1];
      assert (forall i :: 0 <= i < |ws| ==> Owes(ws[i])) ==> forall i :: 0 <= i < |ws[1..]| ==> Owes(ws[1..][i]);
    }
  }

  // ----- every step keeps it

  /** A worker moves without touching the handshake. */
  lemma QuietMove(ws: seq<Worker>, i: nat, x: Worker, main: Maintenance, initCount: nat, expanding: bool)
    requires Handshake(ws, main, initCount, expanding) && i < |ws|
    requires x.mode == ws[i].mode && Flips(x.pipe) == Flips(ws[i].pipe) && !x.at.Reporting? && !ws[i].at.Reporting?
    ensures Handshake(ws[i := x], main, initCount, expanding)
  {
    OwingPut(ws, i, x);
  }

  lemma FlipHandshake(ws: seq<Worker>, i: nat, main: Maintenance, initCount: nat, expanding: bool)
    requires Handshake(ws, main, initCount, expanding) && i < |ws|
    requires ws[i].at.Loop? && ws[i].pipe != [] && ws[i].pipe[0].Flip?
    ensures var x := Worker(ws[i].pipe[0].mode, ws[i].pipe[1..], Reporting);
      Handshake(ws[i := x], main, initCount, expanding)
  {
    var x := Worker(ws[i].pipe[0].mode, ws[i].pipe[1..], Reporting);
    assert Owes(ws[i]) && Owes(x);
    assert Flips(ws[i].pipe) == [ws[i].pipe[0]] + Flips(x.pipe);
    assert forall m :: Told(ws[i], m) ==> Told(x, m) by {
      assert forall m :: Flips(ws[i].pipe) == [Flip(m)] ==>
        |Flips(x.pipe)| == 0 && ws[i].pipe[0] == Flips(ws[i].pipe)[0] == Flip(m);
    }
    OwingPut(ws, i, x);
  }

  lemma ReportHandshake(ws: seq<Worker>, i: nat, main: Maintenance, initCount: nat, expanding: bool)
    requires Handshake(ws, main, initCount, expanding) && i < |ws| && ws[i].at.Reporting? && !main.Writing?
    ensures Handshake(ws[i := ws[i].(at := Loop)], main, initCount + 1, expanding)
  {
    assert Owes(ws[i]);
    OwingPut(ws, i, ws[i].(at := Loop));
  }

  lemma WriteHandshake(ws: seq<Worker>, m: Mode, n: nat, initCount: nat, expanding: bool)
    requires Handshake(ws, Writing(m, n), initCount, expanding)
    ensures if n < |ws| then
        Handshake(ws[n := ws[n].(pipe := ws[n].pipe + [Flip(m)])], Writing(m, n + 1), initCount, expanding)
      else Handshake(ws, Waiting(m), initCount, expanding)
  {
    if n < |ws| {
      FlipsAppend(ws[n].pipe, Flip(m));
    } else {
      forall i | 0 <= i < |ws| ensures Owes(ws[i]) { assert Told(ws[i], m); }
      OwingBound(ws);
    }
  }

  lemma WorkerInv(w: World, s: Step)
    requires Inv(w) && Enabled(w, s) && (s.Notify? || s.ReadByte? || s.Report?)
    ensures Inv(Next(w, s))
  {
    hide Handshake, Owned, HashMask;
    var (ws, i) := (w.workers, s.i);
    StillOwned(w, i, Next(w, s).workers[i]);
    match s
    case Notify(i) =>
      FlipsAppend(ws[i].pipe, NewConn);
      if ws[i].at.Reporting? { NotifyReporting(ws, i, w.main, w.initCount, w.expanding); } else {
        QuietMove(ws, i, ws[i].(pipe := ws[i].pipe + [NewConn]), w.main, w.initCount, w.expanding);
      }
    case ReadByte(i) =>
      if ws[i].pipe[0].Flip? { FlipHandshake(ws, i, w.main, w.initCount, w.expanding); }
      else { QuietMove(ws, i, ws[i].(pipe := ws[i].pipe[1..]), w.main, w.initCount, w.expanding); }
    case Report(i) => ReportHandshake(ws, i, w.main, w.initCount, w.expanding);
  }

  lemma NotifyReporting(ws: seq<Worker>, i: nat, main: Maintenance, initCount: nat, expanding: bool)
    requires Handshake(ws, main, initCount, expanding) && i < |ws| && ws[i].at.Reporting?
    requires Flips(ws[i].pipe + [NewConn]) == Flips(ws[i].pipe)
    ensures Handshake(ws[i := ws[i].(pipe := ws[i].pipe + [NewConn])], main, initCount, expanding)
  {
    hide Flips;
    OwingPut(ws, i, ws[i].(pipe := ws[i].pipe + [NewConn]));
  }

  lemma LockInv(w: World, s: Step)
    requires Inv(w) && Enabled(w, s) && (s.Ask? || s.Take? || s.Leave?)
    ensures Inv(Next(w, s))
  {
    hide Handshake, HashMask, Owned;
    var (ws, i) := (w.workers, s.i);
    match s
    case Ask(i, hv) =>
      var at := Asking(hv, LockFor(ws[i].mode, hv, w.hashpower, w.lockCount));
      QuietMove(ws, i, ws[i].(at := at), w.main, w.initCount, w.expanding);
      StillOwned(w, i, ws[i].(at := at));
    case Take(i) =>
      QuietMove(ws, i, ws[i].(at := Inside(ws[i].at.hv, ws[i].at.lock)), w.main, w.initCount, w.expanding);
      Taken(w, i);
    case Leave(i) =>
      QuietMove(ws, i, ws[i].(at := Loop), w.main, w.initCount, w.expanding);
      Left(w, i);
  }

  lemma StillOwned(w: World, i: nat, x: Worker)
    requires Owned(w.workers, w.main, w.globalOwner, w.owners) && i < |w.workers|
    requires x.at == w.workers[i].at || (!w.workers[i].at.Inside? && !x.at.Inside?)
    ensures Owned(w.workers[i := x], w.main, w.globalOwner, w.owners)
  {
  }

  lemma Taken(w: World, i: nat)
    requires Owned(w.workers, w.main, w.globalOwner, w.owners) && Enabled(w, Take(i))
    ensures var v := Next(w, Take(i)); Owned(v.workers, v.main, v.globalOwner, v.owners)
  {
  }

  lemma Left(w: World, i: nat)
    requires Owned(w.workers, w.main, w.globalOwner, w.owners) && Enabled(w, Leave(i))
    requires LockFor(w.workers[i].mode, w.workers[i].at.hv, w.hashpower, w.lockCount) == w.workers[i].at.lock
    ensures var v := Next(w, Leave(i)); Owned(v.workers, v.main, v.globalOwner, v.owners)
  {
    hide HashMask;
  }

  lemma RoundInv(w: World, s: Step)
    requires Inv(w) && Enabled(w, s) && (s.StartRound? || s.EndRound? || s.WakeUp? || s.Expand?)
    ensures Inv(Next(w, s))
  {
    hide HashMask;
  }

  lemma OwnedElsewhere(w: World, main: Maintenance)
    requires Owned(w.workers, w.main, w.globalOwner, w.owners) && main.Moving? == w.main.Moving?
    ensures Owned(w.workers, main, w.globalOwner, w.owners)
  {
  }

  lemma SwitchInv(w: World, s: Step)
    requires Inv(w) && Enabled(w, s) && (s.WriteByte? || s.AllIn?)
    ensures Inv(Next(w, s))
  {
    hide HashMask, Owned, Flips;
    var v := Next(w, s);
    OwnedElsewhere(w, v.main);
    if s.WriteByte? {
      var n := w.main.next;
      WriteHandshake(w.workers, w.main.mode, n, w.initCount, w.expanding);
      if n < |w.workers| { StillOwned(w.(main := v.main), n, v.workers[n]); }
    } else {
      OwingBound(w.workers);
    }
  }

  lemma StepInv(w: World, s: Step)
    requires Inv(w) && Enabled(w, s)
    ensures Inv(Next(w, s))
  {
    if s.Notify? || s.ReadByte? || s.Report? { WorkerInv(w, s); }
    else if s.Ask? || s.Take? || s.Leave? { LockInv(w, s); }
    else if s.WriteByte? || s.AllIn? { SwitchInv(w, s); }
    else { RoundInv(w, s); }
  }

  // ----- runs

  ghost predicate IsRun(w: World, steps: seq<Step>)
    decreases |steps|
  {
    steps != [] ==> Enabled(w, steps[0]) && IsRun(Next(w, steps[0]), steps[1..])
  }

  ghost function After(w: World, steps: seq<Step>): World
    requires IsRun(w, steps)
    decreases |steps|
  {
    if steps == [] then w else After(Next(w, steps[0]), steps[1..])
  }

  lemma {:induction false} RunInv(w: World, steps: seq<Step>)
    requires Inv(w) && IsRun(w, steps)
    ensures Inv(After(w, steps))
    decreases |steps|
  {
    hide Inv, Enabled, Next;
    if steps != [] {
      StepInv(w, steps[0]);
      RunInv(Next(w, steps[0]), steps[1..]);
    }
  }

  /** In every run, with any number of workers: while the maintenance thread moves buckets,
      every worker has acknowledged the global lock and none is in an item-locked section or
      about to enter one with a fine-grained lock. */
  lemma MoveIsAlone(w: World, steps: seq<Step>)
    requires Start(w) && IsRun(w, steps)
    ensures var v := After(w, steps);
      v.main == Moving && v.expanding ==>
        forall i :: 0 <= i < |v.workers| ==>
          && v.workers[i].mode == Global && !Owes(v.workers[i]) && !v.workers[i].at.Inside?
          && (v.workers[i].at.Asking? ==> v.workers[i].at.lock == GlobalLock)
  {
    StartInv(w);
    RunInv(w, steps);
  }

  /** In every run a worker leaves the section through the mutex it entered by, even though
      item_unlock works it out anew. */
  lemma UnlockMatches(w: World, steps: seq<Step>, i: nat)
    requires Start(w) && IsRun(w, steps)
    ensures var v := After(w, steps);
      i < |v.workers| && v.workers[i].at.Inside? ==>
        v.lockCount > 0 && LockFor(v.workers[i].mode, v.workers[i].at.hv, v.hashpower, v.lockCount)
            == v.workers[i].at.lock
  {
    StartInv(w);
    RunInv(w, steps);
  }

  /** Two workers exclude each other from the section of one key exactly when their modes
      agree. */
  lemma SameModeExcludes(a: Mode, b: Mode, hv: nat, power: nat, lockCount: nat)
    requires lockCount > 0
    ensures LockFor(a, hv, power, lockCount) == LockFor(b, hv, power, lockCount) <==> a == b
  {
  }

  /** Two workers are never in the section of one key together, except during a hand-over
      between the two kinds of lock. */
  lemma Exclusion(w: World, steps: seq<Step>, i: nat, j: nat)
    requires Start(w) && IsRun(w, steps) && i < j
    ensures var v := After(w, steps);
      (j < |v.workers| && v.workers[i].at.Inside? && v.workers[j].at.Inside?
          && v.workers[i].at.hv == v.workers[j].at.hv) ==>
        v.workers[i].mode != v.workers[j].mode && (v.main.Writing? || v.main.Waiting?)
  {
    StartInv(w);
    RunInv(w, steps);
  }

  /** Both workers lock the section of key hash hv, one after the other. */
  function Both(i: nat, j: nat, hv: nat): seq<Step> { [Ask(i, hv), Take(i), Ask(j, hv), Take(j)] }

  /** During a hand-over they can be: two idle workers can both enter the section of a key
      exactly when one has flipped its mode and the other has not. */
  lemma HalfwayRace(w: World, i: nat, j: nat, hv: nat)
    requires Inv(w) && i < |w.workers| && j < |w.workers| && i != j
    requires w.workers[i].at.Loop? && w.workers[j].at.Loop?
    requires w.globalOwner == Nobody && w.owners == map[]
    ensures IsRun(w, Both(i, j, hv)) <==> w.workers[i].mode != w.workers[j].mode
    ensures IsRun(w, Both(i, j, hv)) ==>
      var v := After(w, Both(i, j, hv));
      |v.workers| == |w.workers| && v.workers[i].at.Inside? && v.workers[j].at.Inside?
          && v.workers[i].at.hv == v.workers[j].at.hv
  {
    hide Handshake, HashMask, Owned;
    FourSteps(w, Ask(i, hv), Take(i), Ask(j, hv), Take(j));
    SameModeExcludes(w.workers[i].mode, w.workers[j].mode, hv, w.hashpower, w.lockCount);
  }

  lemma OneMore(w: World, s: Step, rest: seq<Step>)
    ensures IsRun(w, [s] + rest) <==> Enabled(w, s) && IsRun(Next(w, s), rest)
    ensures IsRun(w, [s] + rest) ==> After(w, [s] + rest) == After(Next(w, s), rest)
  {
    assert ([s] + rest)[1..] == rest;
  }

  lemma FourSteps(w: World, a: Step, b: Step, c: Step, d: Step)
    ensures IsRun(w, [a, b, c, d]) <==>
      && Enabled(w, a) && Enabled(Next(w, a), b) && Enabled(Next(Next(w, a), b), c)
      && Enabled(Next(Next(Next(w, a), b), c), d)
    ensures IsRun(w, [a, b, c, d]) ==> After(w, [a, b, c, d]) == Next(Next(Next(Next(w, a), b), c), d)
  {
    hide Enabled, Next;
    assert [a, b, c, d] == [a] + [b, c, d] && [b, c, d] == [b] + [c, d] && [c, d] == [c] + [d] && [d] == [d] + [];
    OneMore(w, a, [b, c, d]);
    if Enabled(w, a) {
      OneMore(Next(w, a), b, [c, d]);
      if Enabled(Next(w, a), b) {
        OneMore(Next(Next(w, a), b), c, [d]);
        if Enabled(Next(Next(w, a), b), c) { OneMore(Next(Next(Next(w, a), b), c), d, []); }
      }
    }
  }

  // ----- and it happens

  lemma {:induction false} RunsJoin(w: World, a: seq<Step>, b: seq<Step>)
    requires IsRun(w, a) && IsRun(After(w, a), b)
    ensures IsRun(w, a + b) && After(w, a + b) == After(After(w, a), b)
    decreases |a|
  {
    hide Next, Enabled;
    if a == [] {
      assert a + b == b;
    } else {
      assert (a + b)[0] == a[0] && (a + b)[1..] == a[1..] + b;
      RunsJoin(Next(w, a[0]), a[1..], b);
    }
  }

  /** Two workers, nobody holding a lock. */
  function Pair(main: Maintenance, initCount: nat, x: Worker, y: Worker): World {
    World([x, y], main, initCount, 16, false, 8, Nobody, map[])
  }

  const IDLE := Worker(Granular, [], Loop)

  const FIRST: seq<Step> := [StartRound, EndRound(false), WriteByte, WriteByte]
  const SECOND: seq<Step> := [WriteByte, ReadByte(0), Report(0), ReadByte(1)]
  const THIRD: seq<Step> := [Report(1), AllIn, WakeUp, WriteByte]
  const FOURTH: seq<Step> := [WriteByte, WriteByte, ReadByte(0), Report(0)]

  lemma PairSteps(main: Maintenance, k: nat, x: Worker, y: Worker)
    ensures forall z :: Put(Pair(main, k, x, y), 0, z) == Pair(main, k, z, y)
    ensures forall z :: Put(Pair(main, k, x, y), 1, z) == Pair(main, k, x, z)
  {
    forall z ensures Put(Pair(main, k, x, y), 0, z) == Pair(main, k, z, y) { assert [x, y][0 := z] == [z, y]; }
    forall z ensures Put(Pair(main, k, x, y), 1, z) == Pair(main, k, x, z) { assert [x, y][1 := z] == [x, z]; }
  }

  /** The steps a pair takes on the way, each on its own. */
  lemma PairNext(m: Mode, k: nat, x: Worker, y: Worker)
    ensures Enabled(Pair(Writing(m, 0), k, x, y), WriteByte)
      && Next(Pair(Writing(m, 0), k, x, y), WriteByte) == Pair(Writing(m, 1), k, x.(pipe := x.pipe + [Flip(m)]), y)
    ensures Enabled(Pair(Writing(m, 1), k, x, y), WriteByte)
      && Next(Pair(Writing(m, 1), k, x, y), WriteByte) == Pair(Writing(m, 2), k, x, y.(pipe := y.pipe + [Flip(m)]))
    ensures Enabled(Pair(Writing(m, 2), k, x, y), WriteByte)
      && Next(Pair(Writing(m, 2), k, x, y), WriteByte) == Pair(Waiting(m), k, x, y)
    ensures k >= 2 ==>
      && Enabled(Pair(Waiting(m), k, x, y), AllIn)
      && Next(Pair(Waiting(m), k, x, y), AllIn) == Pair(if m == Granular then Asleep else Expanding, k, x, y)
    ensures Enabled(Pair(Asleep, k, x, y), WakeUp)
      && Next(Pair(Asleep, k, x, y), WakeUp) == Pair(Writing(Global, 0), 0, x, y)
  {
    PairSteps(Writing(m, 0), k, x, y);
    PairSteps(Writing(m, 1), k, x, y);
  }

  lemma PairReads(m: Mode, k: nat, x: Worker, y: Worker, n: Mode)
    ensures x == Worker(x.mode, [Flip(n)], Loop) ==>
      && Enabled(Pair(Waiting(m), k, x, y), ReadByte(0))
      && Next(Pair(Waiting(m), k, x, y), ReadByte(0)) == Pair(Waiting(m), k, Worker(n, [], Reporting), y)
    ensures y == Worker(y.mode, [Flip(n)], Loop) ==>
      && Enabled(Pair(Waiting(m), k, x, y), ReadByte(1))
      && Next(Pair(Waiting(m), k, x, y), ReadByte(1)) == Pair(Waiting(m), k, x, Worker(n, [], Reporting))
    ensures x.at.Reporting? ==>
      && Enabled(Pair(Waiting(m), k, x, y), Report(0))
      && Next(Pair(Waiting(m), k, x, y), Report(0)) == Pair(Waiting(m), k + 1, x.(at := Loop), y)
    ensures y.at.Reporting? ==>
      && Enabled(Pair(Waiting(m), k, x, y), Report(1))
      && Next(Pair(Waiting(m), k, x, y), Report(1)) == Pair(Waiting(m), k + 1, x, y.(at := Loop))
  {
    PairSteps(Waiting(m), k, x, y);
    assert [Flip(n)][1..] == [];
  }

  lemma FirstSteps()
    ensures var (w, told) := (Pair(Round, 0, IDLE, IDLE), Worker(Granular, [Flip(Granular)], Loop));
      Start(w) && IsRun(w, FIRST) && After(w, FIRST) == Pair(Writing(Granular, 2), 0, told, told)
  {
    hide Next, Enabled, Start;
    var (w, told) := (Pair(Round, 0, IDLE, IDLE), Worker(Granular, [Flip(Granular)], Loop));
    FourSteps(w, StartRound, EndRound(false), WriteByte, WriteByte);
    RoundOver();
    PairNext(Granular, 0, IDLE, IDLE);
    PairNext(Granular, 0, told, IDLE);
    assert [] + [Flip(Granular)] == [Flip(Granular)];
  }

  lemma RoundOver()
    ensures var w := Pair(Round, 0, IDLE, IDLE);
      && Start(w) && Enabled(w, StartRound) && Enabled(Next(w, StartRound), EndRound(false))
      && Next(Next(w, StartRound), EndRound(false)) == Pair(Writing(Granular, 0), 0, IDLE, IDLE)
  {
  }

  lemma SecondSteps()
    ensures var told := Worker(Granular, [Flip(Granular)], Loop);
      var w := Pair(Writing(Granular, 2), 0, told, told);
      IsRun(w, SECOND) && After(w, SECOND) == Pair(Waiting(Granular), 1, IDLE, Worker(Granular, [], Reporting))
  {
    hide Next, Enabled;
    var told := Worker(Granular, [Flip(Granular)], Loop);
    FourSteps(Pair(Writing(Granular, 2), 0, told, told), WriteByte, ReadByte(0), Report(0), ReadByte(1));
    PairNext(Granular, 0, told, told);
    PairReads(Granular, 0, told, told, Granular);
    PairReads(Granular, 0, Worker(Granular, [], Reporting), told, Granular);
    PairReads(Granular, 1, IDLE, told, Granular);
  }

  lemma ThirdSteps()
    ensures var w := Pair(Waiting(Granular), 1, IDLE, Worker(Granular, [], Reporting));
      IsRun(w, THIRD) && After(w, THIRD) == Pair(Writing(Global, 1), 0, Worker(Granular, [Flip(Global)], Loop), IDLE)
  {
    hide Next, Enabled;
    var y := Worker(Granular, [], Reporting);
    FourSteps(Pair(Waiting(Granular), 1, IDLE, y), Report(1), AllIn, WakeUp, WriteByte);
    PairReads(Granular, 1, IDLE, y, Granular);
    PairNext(Granular, 2, IDLE, IDLE);
    PairNext(Global, 0, IDLE, IDLE);
    assert [] + [Flip(Global)] == [Flip(Global)];
  }

  lemma FourthSteps()
    ensures var told := Worker(Granular, [Flip(Global)], Loop);
      var w := Pair(Writing(Global, 1), 0, told, IDLE);
      IsRun(w, FOURTH) && After(w, FOURTH) == Pair(Waiting(Global), 1, Worker(Global, [], Loop), told)
  {
    hide Next, Enabled;
    var told := Worker(Granular, [Flip(Global)], Loop);
    FourSteps(Pair(Writing(Global, 1), 0, told, IDLE), WriteByte, WriteByte, ReadByte(0), Report(0));
    PairNext(Global, 0, told, IDLE);
    PairNext(Global, 0, told, told);
    PairReads(Global, 0, told, told, Global);
    PairReads(Global, 0, Worker(Global, [], Reporting), told, Global);
    assert [] + [Flip(Global)] == [Flip(Global)];
  }

  /** A run from the start in which two workers end up in the section of one key: the first
      expansion is asked for, one worker has changed to the global lock and the other has
      not read its byte yet. */
  lemma RaceReached(hv: nat) returns (w: World, steps: seq<Step>)
    ensures Start(w) && |w.workers| == 2 && IsRun(w, steps)
    ensures var v := After(w, steps);
      |v.workers| == 2 && v.workers[0].at.Inside? && v.workers[1].at.Inside? && v.workers[0].at.hv == v.workers[1].at.hv
  {
    hide Next, Enabled, Inv;
    w := Pair(Round, 0, IDLE, IDLE);
    FirstSteps();
    SecondSteps();
    ThirdSteps();
    FourthSteps();
    RunsJoin(w, FIRST, SECOND);
    RunsJoin(w, FIRST + SECOND, THIRD);
    RunsJoin(w, FIRST + SECOND + THIRD, FOURTH);
    steps := FIRST + SECOND + THIRD + FOURTH;
    var h := After(w, steps);
    StartInv(w);
    RunInv(w, steps);
    HalfwayRace(h, 0, 1, hv);
    RunsJoin(w, steps, Both(0, 1, hv));
    steps := steps + Both(0, 1, hv);
  }

  /** The system never gets stuck: unless everyone is idle and the maintenance thread is
      asleep, some thread can take a step that no newcomer has to make first. */
  lemma NoDeadlock(w: World) returns (s: Step)
    requires Inv(w)
    requires !(w.main.Asleep? && forall i :: 0 <= i < |w.workers| ==> w.workers[i].at.Loop? && w.workers[i].pipe == [])
    ensures Enabled(w, s) && !s.Notify? && !s.Ask? && !s.WakeUp?
  {
    if i :| 0 <= i < |w.workers| && w.workers[i].at.Inside? {
      s := Leave(i);
    } else if w.main.Moving? {
      s := EndRound(false);
    } else if w.main.Writing? {
      s := WriteByte;
    } else if w.main.Expanding? {
      s := Expand(false);
    } else if i :| 0 <= i < |w.workers| && w.workers[i].at.Asking? {
      s := Take(i);
    } else if i :| 0 <= i < |w.workers| && w.workers[i].at.Reporting? {
      s := Report(i);
    } else if i :| 0 <= i < |w.workers| && w.workers[i].pipe != [] {
      s := ReadByte(i);
    } else if w.main.Round? {
      s := StartRound;
    } else {
      NobodyOwes(w.workers);
      s := AllIn;
    }
  }

  lemma {:induction false} NobodyOwes(ws: seq<Worker>)
    requires forall i :: 0 <= i < |ws| ==> !Owes(ws[i])
    ensures Owing(ws) == 0
  {
    if ws != [] { NobodyOwes(ws[1..]); }
  }
}
