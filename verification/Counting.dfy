/** Counters over runs, told on commands and replies alone: what successive increments and
    decrements of one key report. */
module Counting {
  import opened Seqs
  import opened CacheState
  import opened CacheInvariant
  import opened CacheOps
  import opened Commands
  import opened LossyMap
  import opened Refinement
  import opened Runs
  import opened Answers
  import D = Decimal

  /** Event e is a successful incr or decr of k. */
  predicate Counts(e: Event, k: Key) {
    e.command.Delta? && e.command.key == k && e.reply.Counted? && e.reply.result.DeltaOk?
  }

  /** No event between l and m writes to k. */
  ghost predicate Undisturbed(i: Ideal, h: seq<Event>, l: nat, m: nat, k: Key)
    requires m <= |h|
  {
    forall j :: l < j < m ==> !Writes(MapAt(i, h, j), h[j], k)
  }

  /** A counter reads back as the number that was printed, if it can be read at all. */
  lemma ReadsBack(n: nat, behind: string)
    requires n < D.TWO64
    ensures D.Parsed(D.Digits(n) + "\r\n", behind) in {None, Some(n)}
  {
    hide D.Digits, D.SafeStrtoull;
    var d := D.Digits(n) + "\r\n";
    D.DigitsNoNul(n);
    D.CStringOf(d, behind);
    assert d + D.CString(behind) == D.Digits(n) + ("\r\n" + D.CString(behind));
    D.PrintThenParse(n, "\r\n" + D.CString(behind));
  }

  lemma {:induction false} ValueKept(i: Ideal, h: seq<Event>, l: nat, m: nat, k: Key)
    requires l < m <= |h| && Conforms(i, h) && Undisturbed(i, h, l, m, k) && k in MapAt(i, h, m).entries
    ensures k in MapAt(i, h, l + 1).entries && SameValue(MapAt(i, h, l + 1).entries[k], MapAt(i, h, m).entries[k])
    decreases m - l
  {
    hide Allowed, After, SameValue, Writes;
    SameValueTransitive();
    if l + 1 < m {
      var before := MapAt(i, h, m - 1);
      assert Allowed(before, h[m - 1].command, h[m - 1].reply);
      StepKeepsValue(before, h[m - 1], k);
      ValueKept(i, h, l, m - 1, k);
    }
  }

  /** What a successful incr or decr reports and leaves in the map. */
  lemma CountLeaves(i: Ideal, e: Event, k: Key)
    requires Allowed(i, e.command, e.reply) && Counts(e, k)
    ensures k in i.entries && k in After(i, e.command, e.reply).entries
    ensures var c := e.command; var v := D.Parsed(i.entries[k].data, c.behind);
      && After(i, c, e.reply).entries[k].data == e.reply.result.text + "\r\n"
      && v.Some? && v.value < D.TWO64
      && var n := if c.incr then Sum64(v.value, c.delta) else Difference(v.value, c.delta);
        n < D.TWO64 && e.reply.result.text == D.Digits(n) && Reads(e.reply.result.text, n)
  {
    hide D.Digits, D.SafeStrtoull, D.Parsed, Reads;
    var v := D.Parsed(i.entries[k].data, e.command.behind);
    ParsedFits(i.entries[k].data, e.command.behind);
    TextReads(e.command.incr, v.value, e.command.delta);
  }

  /** In every run: if the last write to a counter reported v, the next incr by d reports the sum
      in 64 bits and the next decr the difference, or 0. */
  lemma NextCount(s: State, i: Ideal, h: seq<Event>, l: nat, m: nat, k: Key) returns (v: nat)
    requires Inv(s) && Refines(s, i) && IsRun(s, h) && l < m < |h|
    requires Counts(h[l], k) && Counts(h[m], k) && Undisturbed(i, h, l, m, k)
    ensures Reads(h[l].reply.result.text, v) && v < D.TWO64
    ensures var c := h[m].command;
      Reads(h[m].reply.result.text, if c.incr then Sum64(v, c.delta) else Difference(v, c.delta))
  {
    hide Inv, Refines, IsRun, Allowed, After, Reads, Undisturbed, D.Digits, D.Parsed;
    RunConforms(s, i, h);
    var (a, b) := (MapAt(i, h, l), MapAt(i, h, m));
    assert Allowed(a, h[l].command, h[l].reply) && Allowed(b, h[m].command, h[m].reply);
    CountLeaves(a, h[l], k);
    CountLeaves(b, h[m], k);
    ValueKept(i, h, l, m, k);
    MapAtNext(i, h, l);
    var c := h[l].command;
    var u := D.Parsed(a.entries[k].data, c.behind).value;
    v := if c.incr then Sum64(u, c.delta) else Difference(u, c.delta);
    ReadsBack(v, h[m].command.behind);
  }

  /** incr by d and then decr by d report the number there was, unless the sum has wrapped
      round. */
  lemma IncrThenDecr(s: State, i: Ideal, h: seq<Event>, l: nat, m: nat, n: nat, k: Key) returns (v: nat, w: nat)
    requires Inv(s) && Refines(s, i) && IsRun(s, h) && l < m < n < |h|
    requires Counts(h[l], k) && Counts(h[m], k) && Undisturbed(i, h, l, m, k)
    requires Counts(h[n], k) && Undisturbed(i, h, m, n, k)
    requires h[m].command.incr && !h[n].command.incr && h[m].command.delta == h[n].command.delta
    ensures Reads(h[l].reply.result.text, v) && Reads(h[n].reply.result.text, w)
    ensures v + h[m].command.delta < D.TWO64 ==> w == v
  {
    hide Inv, Refines, IsRun, Reads, Undisturbed;
    v := NextCount(s, i, h, l, m, k);
    var u := NextCount(s, i, h, m, n, k);
    var d := h[m].command.delta;
    OneNumber(h[m].reply.result.text, u, Sum64(v, d));
    w := Difference(u, d);
  }

  lemma OneNumber(text: string, v: nat, w: nat)
    requires Reads(text, v) && Reads(text, w)
    ensures v == w
  {
  }

  /** A decr never reports more than there was, and 0 or the difference. */
  lemma DecrShrinks(s: State, i: Ideal, h: seq<Event>, l: nat, m: nat, k: Key) returns (v: nat, w: nat)
    requires Inv(s) && Refines(s, i) && IsRun(s, h) && l < m < |h|
    requires Counts(h[l], k) && Counts(h[m], k) && Undisturbed(i, h, l, m, k) && !h[m].command.incr
    ensures Reads(h[l].reply.result.text, v) && Reads(h[m].reply.result.text, w)
    ensures w <= v && (w == 0 || w + h[m].command.delta == v)
  {
    hide Inv, Refines, IsRun, Reads, Undisturbed;
    v := NextCount(s, i, h, l, m, k);
    w := Difference(v, h[m].command.delta);
  }
}
