/** What replaying a backup's log gives.  A primary logs every upload it has stored as a
    plain set of what was uploaded, with no flags and no expiry, whatever the command was
    (memcached.c complete_nread_ascii, ramcube.c, Object.c), and logs nothing else. */
module Replay {
  import opened Seqs
  import opened CacheState
  import opened CacheInvariant
  import opened CacheOps
  import opened Commands
  import opened LossyMap
  import opened Refinement
  import opened Runs
  import A = Acks
  import D = Decimal
  import T = Tokenizer
  import W = Wire

  // ----- one command

  /** A set command as a server reads it; data includes the line end. */
  datatype Record = Record(key: Key, flags: int, exptime: int, data: string)

  function ReadSet(text: string): Option<Record> {
    var (line, rest) := A.Line(text);
    var w := T.Words(line);
    if |w| != 5 || w[0] != "set" then None else
      var n := D.Atoi(w[4]);
      if 0 <= n <= |rest| - 2 && rest[n..n + 2] == "\r\n"
      then Some(Record(w[1], D.Atoi(w[2]), D.Atoi(w[3]), rest[..n + 2])) else None
  }

  /** A key as the tokenizer hands it over. */
  predicate IsKey(key: Key) { key != "" && ' ' !in key && '\n' !in key }

  lemma NextWord(word: string, rest: string)
    requires word != "" && ' ' !in word
    ensures T.Words(word + " " + rest) == [word] + T.Words(rest)
  {
    hide T.Words;
    var s := word + " " + rest;
    assert forall i :: 0 <= i < |word| ==> s[i] == word[i];
    T.FirstWord(s, |word|);
    assert s[..|word|] == word && s[|word| + 1..] == rest;
  }

  lemma WordsOfSet(key: Key, n: string)
    requires IsKey(key) && n != "" && ' ' !in n
    ensures T.Words("set " + key + " 0 0 " + n) == ["set", key, "0", "0", n]
  {
    hide T.Words;
    var (u, v) := ("0" + " " + n, "0" + " " + ("0" + " " + n));
    assert "set " + key + " 0 0 " + n == "set" + " " + (key + " " + v);
    NextWord("set", key + " " + v);
    NextWord(key, v);
    NextWord("0", u);
    NextWord("0", n);
    T.LastWord(n);
  }

  /** The text of a set is read as that set, without flags and expiry. */
  lemma ReadsSet(key: Key, value: string)
    requires IsKey(key)
    ensures ReadSet(W.Meant(key, value)) == Some(Record(key, 0, 0, value + "\r\n"))
  {
    hide D.Digits, D.Atoi, T.Words, A.Line;
    var d := D.Digits(|value|);
    var line := "set " + key + " 0 0 " + d;
    var rest := value + "\r\n";
    assert forall c :: c in d ==> D.IsDigit(c);
    WordsOfSet(key, d);
    assert forall c :: c in line ==> c in "set " || c in key || c in " 0 0 " || c in d;
    A.FirstLine(line, rest);
    assert W.Meant(key, value) == line + "\r\n" + rest;
    assert d + [] == d;
    D.AtoiPositive(|value|, []);
    AtoiZero();
    assert rest[|value|..|value| + 2] == "\r\n" && rest[..|value| + 2] == rest;
  }

  lemma AtoiZero()
    ensures D.Atoi("0") == 0
  {
    D.AtoiPositive(0, []);
    assert D.Digits(0) + [] == "0";
  }

  // ----- the log of a run

  /** The upload an event stores. */
  predicate Uploads(i: Ideal, e: Event) {
    e.command.Complete? && e.command.p in i.pending && e.reply.Finished? && e.reply.outcome.Stored?
  }

  /** The command an event puts in the log: key and data of the upload, as a set. */
  function LoggedBy(i: Ideal, e: Event): Option<string> {
    if Uploads(i, e) && |i.pending[e.command.p].data| >= 2 then
      var u := i.pending[e.command.p];
      Some(W.Meant(u.key, u.data[..|u.data| - 2]))
    else None
  }

  /** What is replayed after the first n events. */
  function Replayed(i: Ideal, h: seq<Event>, n: nat): map<Key, Record>
    requires n <= |h|
  {
    if n == 0 then map[] else
      var before := Replayed(i, h, n - 1);
      match LoggedBy(MapAt(i, h, n - 1), h[n - 1])
      case None => before
      case Some(text) =>
        match ReadSet(text)
        case None => before
        case Some(r) => before[r.key := r]
  }

  /** All data ends a line, and all keys are words. */
  ghost predicate Tidy(i: Ideal) {
    && (forall k :: k in i.entries ==> EndsLine(i.entries[k].data))
    && (forall p :: p in i.pending ==> IsKey(i.pending[p].key))
  }

  lemma TidyStep(i: Ideal, e: Event)
    requires Tidy(i) && Allowed(i, e.command, e.reply) && (e.command.Begin? ==> IsKey(e.command.key))
    ensures Tidy(After(i, e.command, e.reply))
  {
    hide IsKey, D.Digits, EndsLine, AfterStore, AllowedStore, AllowedDelta;
    if e.command.Complete? && e.reply.Finished? {
      var p := e.command.p;
      TidyStore(i.(pending := i.pending - {p}), i.pending[p], e.command.verb, e.reply.outcome);
    }
    if e.command.Delta? && e.reply.Counted? && e.reply.result.DeltaOk? { LineEnds(e.reply.result.text); }
  }

  lemma LineEnds(text: string)
    ensures EndsLine(text + "\r\n")
  {
  }

  lemma TidyStore(i: Ideal, u: Pending, verb: Verb, r: Outcome)
    requires Tidy(i) && EndsLine(u.data)
    ensures Tidy(AfterStore(i, u, verb, r))
  {
    hide IsKey, EndsLine;
    if u.key in i.entries {
      JoinedEnds(i.entries[u.key].data, u.data);
      JoinedEnds(u.data, i.entries[u.key].data);
    }
  }

  lemma JoinedEnds(a: string, b: string)
    requires EndsLine(a) && EndsLine(b)
    ensures EndsLine(Joined(a, b)) && (Joined(a, b) == b <==> |a| == 2) && (Joined(a, b) == a <==> |b| == 2)
  {
    var c := Joined(a, b);
    assert c[|c| - 2..] == b[|b| - 2..];
    if |b| == 2 { assert a == a[..|a| - 2] + a[|a| - 2..]; }
  }

  lemma MapAtNone(i: Ideal, h: seq<Event>)
    ensures MapAt(i, h, 0) == i
  {
  }

  lemma {:induction false} TidyAt(i: Ideal, h: seq<Event>, n: nat)
    requires n <= |h| && Conforms(i, h) && Tidy(i)
    requires forall e :: e in h && e.command.Begin? ==> IsKey(e.command.key)
    ensures Tidy(MapAt(i, h, n))
  {
    hide Tidy, Allowed, After, IsKey, MapAt;
    if n == 0 {
      MapAtNone(i, h);
    } else {
      TidyAt(i, h, n - 1);
      assert Allowed(MapAt(i, h, n - 1), h[n - 1].command, h[n - 1].reply) && h[n - 1] in h;
      MapAtNext(i, h, n - 1);
      TidyStep(MapAt(i, h, n - 1), h[n - 1]);
    }
  }

  // ----- when the replay is right

  /** An upload without flags, of whose value no older one is part. */
  predicate Plain(i: Ideal, e: Event)
    requires Uploads(i, e)
  {
    var u := i.pending[e.command.p];
    if Concatenates(e.command.verb) && u.key in i.entries then
      |i.entries[u.key].data| == 2 && i.entries[u.key].flags == 0
    else u.flags == 0
  }

  predicate SameRecord(r: Record, e: Entry) { r.flags == e.flags && r.exptime == e.exptime && r.data == e.data }

  /** Right after an upload has been stored, what is logged for it is what was stored if and
      only if it was plain and the entry does not expire. */
  lemma StoreIff(i: Ideal, e: Event)
    requires Tidy(i) && Allowed(i, e.command, e.reply) && Uploads(i, e)
    ensures var (u, j) := (i.pending[e.command.p], After(i, e.command, e.reply));
      && LoggedBy(i, e).Some? && ReadSet(LoggedBy(i, e).value) == Some(Record(u.key, 0, 0, u.data))
      && u.key in j.entries
      && (SameRecord(Record(u.key, 0, 0, u.data), j.entries[u.key])
          <==> Plain(i, e) && j.entries[u.key].exptime == 0)
      && (j.entries[u.key].flags == 0 && j.entries[u.key].data == u.data <==> Plain(i, e))
  {
    hide IsKey, ReadSet, W.Meant;
    var u := i.pending[e.command.p];
    ReadsSet(u.key, u.data[..|u.data| - 2]);
    assert u.data[..|u.data| - 2] + "\r\n" == u.data;
    if u.key in i.entries {
      JoinedEnds(i.entries[u.key].data, u.data);
      JoinedEnds(u.data, i.entries[u.key].data);
    }
  }

  /** A step that does not write k logs nothing for it. */
  lemma KeepsRecord(i: Ideal, h: seq<Event>, n: nat, k: Key)
    requires n < |h| && Tidy(MapAt(i, h, n)) && Allowed(MapAt(i, h, n), h[n].command, h[n].reply)
    requires !Writes(MapAt(i, h, n), h[n], k) && k in Replayed(i, h, n)
    ensures k in Replayed(i, h, n + 1) && Replayed(i, h, n + 1)[k] == Replayed(i, h, n)[k]
  {
    hide IsKey, ReadSet, W.Meant, Tidy, Allowed, After, MapAt, LoggedBy;
    var before := MapAt(i, h, n);
    if Uploads(before, h[n]) { StoreIff(before, h[n]); } else { NothingLogged(before, h[n]); }
  }

  lemma NothingLogged(i: Ideal, e: Event)
    requires !Uploads(i, e)
    ensures LoggedBy(i, e) == None
  {
  }

  lemma {:induction false} ReplayKept(i: Ideal, h: seq<Event>, m: nat, n: nat, k: Key)
    requires m <= n <= |h| && Conforms(i, h) && Tidy(i) && k in MapAt(i, h, n).entries && k in Replayed(i, h, m)
    requires forall e :: e in h && e.command.Begin? ==> IsKey(e.command.key)
    requires forall j :: m <= j < n ==> !Writes(MapAt(i, h, j), h[j], k)
    ensures k in MapAt(i, h, m).entries && SameValue(MapAt(i, h, m).entries[k], MapAt(i, h, n).entries[k])
    ensures k in Replayed(i, h, n) && Replayed(i, h, n)[k] == Replayed(i, h, m)[k]
    decreases n - m
  {
    hide Tidy, Allowed, After, IsKey, Writes, MapAt, Replayed;
    if m < n {
      assert Allowed(MapAt(i, h, n - 1), h[n - 1].command, h[n - 1].reply);
      MapAtNext(i, h, n - 1);
      TidyAt(i, h, n - 1);
      StepKeepsValue(MapAt(i, h, n - 1), h[n - 1], k);
      ReplayKept(i, h, m, n - 1, k);
      KeepsRecord(i, h, n - 1, k);
    }
  }

  /** The upload of event m is logged. */
  lemma Logged(i: Ideal, h: seq<Event>, m: nat)
    requires m < |h| && Tidy(MapAt(i, h, m)) && Allowed(MapAt(i, h, m), h[m].command, h[m].reply)
    requires Uploads(MapAt(i, h, m), h[m])
    ensures var u := MapAt(i, h, m).pending[h[m].command.p]; var (j, r) := (MapAt(i, h, m + 1), Replayed(i, h, m + 1));
      && u.key in j.entries && u.key in r && r[u.key].flags == 0 && r[u.key].exptime == 0
      && (j.entries[u.key].flags == 0 && j.entries[u.key].data == r[u.key].data <==> Plain(MapAt(i, h, m), h[m]))
  {
    hide IsKey, ReadSet, W.Meant, Tidy, Allowed, After, MapAt, LoggedBy, Plain;
    StoreIff(MapAt(i, h, m), h[m]);
    MapAtNext(i, h, m);
  }

  /** In every run, for an entry that was last written by an upload: the replay of the log so
      far gives the entry of the primary if and only if that upload was plain and the entry
      does not expire. */
  lemma ReplayIff(s: State, i: Ideal, h: seq<Event>, n: nat, k: Key) returns (m: nat)
    requires Inv(s) && Refines(s, i) && i.entries == map[] && i.pending == map[] && IsRun(s, h)
    requires forall e :: e in h && e.command.Begin? ==> IsKey(e.command.key)
    requires n <= |h| && k in MapAt(i, h, n).entries
    ensures m < n && Writes(MapAt(i, h, m), h[m], k)
    ensures forall j :: m < j < n ==> !Writes(MapAt(i, h, j), h[j], k)
    ensures h[m].command.Complete? ==>
      && k in Replayed(i, h, n) && Uploads(MapAt(i, h, m), h[m])
      && (SameRecord(Replayed(i, h, n)[k], MapAt(i, h, n).entries[k])
          <==> Plain(MapAt(i, h, m), h[m]) && MapAt(i, h, n).entries[k].exptime == 0)
  {
    hide Inv, Refines, IsRun, Allowed, After, Writes, Ends, IsKey, Tidy, MapAt, Replayed, Plain;
    RunConforms(s, i, h);
    m := EntryIsLatestWrite(i, h, n, k);
    NotEnded(i, h, m, n, k);
    if h[m].command.Complete? {
      assert Allowed(MapAt(i, h, m), h[m].command, h[m].reply);
      EmptyTidy(i);
      TidyAt(i, h, m);
      IsUpload(MapAt(i, h, m), h[m], k);
      Logged(i, h, m);
      ReplayKept(i, h, m + 1, n, k);
    }
  }

  /** Nothing else is in the log: a deleted entry comes back, a counted one with its old value. */
  lemma OnlyUploads(i: Ideal, h: seq<Event>, n: nat, k: Key)
    requires n < |h| && Allowed(MapAt(i, h, n), h[n].command, h[n].reply) && !Uploads(MapAt(i, h, n), h[n])
    ensures Replayed(i, h, n + 1) == Replayed(i, h, n)
    ensures h[n].command == DeleteKey(k) ==> k !in MapAt(i, h, n + 1).entries
    ensures h[n].command.Delta? && h[n].command.key == k && h[n].reply.result.DeltaOk? ==>
      k in MapAt(i, h, n + 1).entries && MapAt(i, h, n + 1).entries[k].data == h[n].reply.result.text + "\r\n"
  {
    hide MapAt;
    NothingLogged(MapAt(i, h, n), h[n]);
    MapAtNext(i, h, n);
  }

  lemma EmptyTidy(i: Ideal)
    requires i.entries == map[] && i.pending == map[]
    ensures Tidy(i)
  {
  }

  lemma IsUpload(i: Ideal, e: Event, k: Key)
    requires Writes(i, e, k) && e.command.Complete?
    ensures Uploads(i, e) && i.pending[e.command.p].key == k
  {
  }

  lemma NotEnded(i: Ideal, h: seq<Event>, m: nat, n: nat, k: Key)
    requires m < n <= |h| && forall j :: m < j < n ==> !Ends(MapAt(i, h, j), h[j], k)
    ensures forall j :: m < j < n ==> !Writes(MapAt(i, h, j), h[j], k)
  {
    hide Writes;
  }
}
