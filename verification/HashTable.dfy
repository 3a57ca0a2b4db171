/** assoc.c: bucket arrays and h_next pointers, proved against the chains they spell. */
module HashTable {
  import opened Seqs
  import opened CacheState
  import opened Chains
  import opened Links

  ghost predicate AllSpell(heads: seq<Ptr>, next: map<Chunk, Ptr>, chains: seq<seq<Chunk>>) {
    |heads| == |chains| && forall b :: 0 <= b < |heads| ==> Spells(heads[b], next, chains[b])
  }

  lemma AllFrame(heads: seq<Ptr>, next: map<Chunk, Ptr>, chains: seq<seq<Chunk>>, p: Chunk, v: Ptr)
    requires AllSpell(heads, next, chains) && Absent(chains, p)
    ensures AllSpell(heads, next[p := v], chains)
  {
    forall b | 0 <= b < |heads| ensures Spells(heads[b], next[p := v], chains[b]) {
      SpellsFrame(heads[b], next, chains[b], p, v);
    }
  }

  lemma AllPush(heads: seq<Ptr>, next: map<Chunk, Ptr>, chains: seq<seq<Chunk>>, b: nat, p: Chunk)
    requires AllSpell(heads, next, chains) && Absent(chains, p) && b < |heads|
    ensures AllSpell(heads[b := Some(p)], next[p := heads[b]], chains[b := [p] + chains[b]])
  {
    AllFrame(heads, next, chains, p, heads[b]);
    SpellsPush(heads[b], next, chains[b], p);
  }

  /** A lookup key has one home: if p sits in a chain, that chain is the one searched for it. */
  lemma Home(t: Table, items: map<Chunk, Item>, hash: Hash, p: Chunk)
    requires Sound(t, items, hash) && p in items
    ensures var hv := hash(items[p].key);
      && (forall b :: 0 <= b < |t.main| && p in t.main[b] ==> !InOld(t, hv) && b == Mask(hv, t.power))
      && (forall b :: 0 <= b < |t.prior| && p in t.prior[b] ==> InOld(t, hv) && b == Mask(hv, t.power - 1))
  {
    if t.expanding { HalfBucket(hash(items[p].key), t.power); }
  }

  /** The chunks a search for key stops at: the indexed one and no other. */
  lemma Hits(t: Table, items: map<Chunk, Item>, hash: Hash, index: map<Key, Chunk>, key: Key)
    requires Sound(t, items, hash) && Means(t, items, hash, index)
    ensures Sized(t)
    ensures var q := Searched(t, hash(key));
      && (forall p :: p in q ==> p in items && (items[p].key == key ==> key in index && index[key] == p))
      && (key in index ==> index[key] in q && index[key] in items && items[index[key]].key == key)
  {
    hide Placed, Migrating;
    SoundSized(t, items, hash);
    SearchedPlaced(t, items, hash, hash(key));
    forall p | p in Searched(t, hash(key)) && items[p].key == key ensures key in index && index[key] == p {
      assert Finds(t, items, hash, key, p);
    }
    if key in index { assert Finds(t, items, hash, key, index[key]); }
  }

  /** Where _hashitem_before stops: a bucket slot or the h_next field of a chunk. */
  datatype Place = Bucket | After(c: Chunk)

  /** What points at p: its bucket or the item in front of it. */
  function PlaceBefore(q: seq<Chunk>, p: Chunk): Place
    requires p in q
  {
    if IndexOf(q, p) == 0 then Bucket else After(q[IndexOf(q, p) - 1])
  }

  class HashTable {
    const hash: Hash
    var hashpower: nat
    var primary: array<Ptr>
    var previous: array<Ptr>
    var hNext: map<Chunk, Ptr>
    var hashItems: nat
    var expanding: bool
    var startedExpanding: bool
    var expandBucket: nat
    ghost var table: Table
    ghost var index: map<Key, Chunk>

    /** The arrays and links spell the chains, and the chains mean the index. */
    ghost predicate Valid(items: map<Chunk, Item>)
      reads this, primary, previous
    {
      && Sound(table, items, hash) && Means(table, items, hash, index)
      && hashItems == |index|
      && hashpower == table.power && expanding == table.expanding
      && AllSpell(primary[..], hNext, table.main)
      && (expanding ==> expandBucket == table.cursor && previous != primary)
      && (expanding ==> AllSpell(previous[..], hNext, table.prior))
    }

    constructor (hash: Hash, power: nat)
      ensures fresh(primary) && fresh(previous) && this.hash == hash && index == map[] && Valid(map[])
    {
      this.hash := hash;
      hashpower := power;
      primary := new Ptr[Pow2(power)](_ => None);
      previous := new Ptr[0];
      hNext := map[];
      hashItems, expanding, startedExpanding, expandBucket := 0, false, false, 0;
      table := Table(power, seq(Pow2(power), i => []), [], false, 0);
      index := map[];
    }

    /** The slot of the bucket searched for hv. */
    method BucketHead(items: map<Chunk, Item>, hv: nat) returns (head: Ptr)
      requires Valid(items)
      ensures Spells(head, hNext, Searched(table, hv))
    {
      if expanding && Mask(hv, hashpower - 1) >= expandBucket {
        head := previous[Mask(hv, hashpower - 1)];
      } else {
        head := primary[Mask(hv, hashpower)];
      }
    }

    method AssocFind(items: map<Chunk, Item>, key: Key, hv: nat) returns (ret: Ptr)
      requires Valid(items) && hv == hash(key)
      ensures ret == if key in index then Some(index[key]) else None
    {
      var it := BucketHead(items, hv);
      ghost var q := Searched(table, hv);
      ghost var i := 0;
      SearchedPlaced(table, items, hash, hv);
      Hits(table, items, hash, index, key);
      while it.Some?
        invariant 0 <= i <= |q| && it == Nth(q, i)
        invariant forall j :: 0 <= j < i ==> items[q[j]].key != key
        decreases |q| - i
      {
        if items[it.value].key == key { return it; }
        it := hNext[it.value];
        i := i + 1;
      }
      ret := None;
    }

    /** The chunk becomes the head of the chain searched for its hash value. */
    method Prepend(items: map<Chunk, Item>, it: Chunk, hv: nat)
      requires Sound(table, items, hash) && Sized(table) && Means(table, items, hash, index) && Spelled(table)
      requires hashpower == table.power && expanding == table.expanding
      requires expanding ==> expandBucket == table.cursor && previous != primary
      requires it in items && hv == hash(items[it].key) && items[it].key !in index
      modifies `hNext, primary, previous
      ensures Spelled(Insert(table, hv, it))
    {
      hide Sound, Means, Spells, AllSpell, Absent, Pow2;
      TablePush(table, primary[..], previous[..], hNext, items, hash, index, it);
      if expanding && Mask(hv, hashpower - 1) >= expandBucket {
        var b := Mask(hv, hashpower - 1);
        hNext := hNext[it := previous[b]];
        previous[b] := Some(it);
        assert previous[..] == old(previous[..])[b := Some(it)];
        assert primary[..] == old(primary[..]);
      } else {
        var b := Mask(hv, hashpower);
        hNext := hNext[it := primary[b]];
        primary[b] := Some(it);
        assert primary[..] == old(primary[..])[b := Some(it)];
        assert expanding ==> previous[..] == old(previous[..]);
      }
    }

    method AssocInsert(items: map<Chunk, Item>, it: Chunk, hv: nat)
      requires Valid(items) && it in items && hv == hash(items[it].key)
      requires items[it].key !in index
      modifies this, primary, previous
      ensures Valid(items) && index == old(index)[items[it].key := it]
      ensures primary == old(primary) && previous == old(previous)
      ensures table == Insert(old(table), hv, it)
      ensures startedExpanding == (old(startedExpanding) || (!expanding && |index| > Pow2(hashpower) * 3 / 2))
    {
      hide Sound, Means, Spells, AllSpell, Absent, Pow2, Insert;
      SoundSized(table, items, hash);
      InsertOk(table, items, hash, index, it);
      SameCursor(table, hv, it);
      Prepend(items, it, hv);
      hashItems := hashItems + 1;
      if !expanding && hashItems > Pow2(hashpower) * 3 / 2 {
        startedExpanding := true;
      }
      table := Insert(table, hv, it);
      index := index[items[it].key := it];
    }

    /** The place holding the pointer to the item of this key; the source asserts that
        there is one. */
    method HashitemBefore(items: map<Chunk, Item>, key: Key, hv: nat) returns (before: Place, ghost i: nat)
      requires Valid(items) && hv == hash(key) && key in index
      ensures index[key] in Searched(table, hv) && i == IndexOf(Searched(table, hv), index[key])
      ensures before == PlaceBefore(Searched(table, hv), index[key])
    {
      hide Valid, Sound, Means, Sized, AllSpell, Placed, Migrating, Mask, Pow2, Searched;
      ValidHits(this, items, key);
      var pos := BucketHead(items, hv);
      ghost var q := Searched(table, hv);
      i := 0;
      before := Bucket;
      ghost var at := IndexOf(q, index[key]);
      while pos.Some? && items[pos.value].key != key
        invariant 0 <= i <= at && pos == Nth(q, i)
        invariant before == if i == 0 then Bucket else After(q[i - 1])
        decreases |q| - i
      {
        before := After(pos.value);
        pos := hNext[pos.value];
        i := i + 1;
      }
    }

    /** The pointers spell the chains of t. */
    ghost predicate Spelled(t: Table)
      reads this, primary, previous
    {
      AllSpell(primary[..], hNext, t.main) && (t.expanding ==> AllSpell(previous[..], hNext, t.prior))
    }

    /** nxt = (*before)->h_next, (*before)->h_next = 0, *before = nxt. */
    method Splice(items: map<Chunk, Item>, before: Place, hv: nat, ghost i: nat)
      requires Sound(table, items, hash) && Sized(table) && Spelled(table)
      requires hashpower == table.power && expanding == table.expanding
      requires expanding ==> expandBucket == table.cursor && previous != primary
      requires i < |Searched(table, hv)|
      requires before == if i == 0 then Bucket else After(Searched(table, hv)[i - 1])
      modifies `hNext, primary, previous
      ensures Spelled(Remove(table, hv, Searched(table, hv)[i]))
    {
      hide Sound, Spells, AllSpell, Absent, Pow2;
      TableCut(table, primary[..], previous[..], hNext, items, hash, hv, i);
      match before {
        case After(c) =>
          var it := hNext[c].value;
          var nxt := hNext[it];
          hNext := hNext[it := None];
          hNext := hNext[c := nxt];
          assert primary[..] == old(primary[..]) && previous[..] == old(previous[..]);
        case Bucket =>
          if expanding && Mask(hv, hashpower - 1) >= expandBucket {
            var b := Mask(hv, hashpower - 1);
            var it := previous[b].value;
            var nxt := hNext[it];
            hNext := hNext[it := None];
            previous[b] := nxt;
            assert previous[..] == old(previous[..])[b := nxt] && primary[..] == old(primary[..]);
          } else {
            var b := Mask(hv, hashpower);
            var it := primary[b].value;
            var nxt := hNext[it];
            hNext := hNext[it := None];
            primary[b] := nxt;
            assert primary[..] == old(primary[..])[b := nxt] && (expanding ==> previous[..] == old(previous[..]));
          }
      }
    }

    method AssocDelete(items: map<Chunk, Item>, key: Key, hv: nat)
      requires Valid(items) && hv == hash(key) && key in index
      modifies this, primary, previous
      ensures Valid(items) && index == old(index) - {key}
      ensures primary == old(primary) && previous == old(previous)
      ensures table == Remove(old(table), hv, old(index)[key]) && unchanged(`startedExpanding)
    {
      hide Sound, Means, Spells, AllSpell, Absent, Pow2, Remove;
      var before, i := HashitemBefore(items, key, hv);
      RemoveOk(table, items, hash, index, key);
      SoundSized(table, items, hash);
      SameCursor(table, hv, index[key]);
      hashItems := hashItems - 1;
      Splice(items, before, hv, i);
      table := Remove(table, hv, index[key]);
      index := index - {key};
    }

    /** `ok` is the answer of calloc. */
    method AssocExpand(items: map<Chunk, Item>, ok: bool)
      requires Valid(items) && !expanding
      modifies this
      ensures Valid(items) && index == old(index)
      ensures table == if ok then Expand(old(table)) else old(table)
      ensures if ok then fresh(primary) && previous == old(primary) else primary == old(primary)
      ensures previous == old(primary) && unchanged(`startedExpanding)
    {
      hide Sound, Means, Spells, AllSpell, Absent, Pow2, Expand;
      previous := primary;
      if ok { StartExpanding(items); }
    }

    /** The new table, empty, takes the place of the one that is now the old table. */
    method StartExpanding(items: map<Chunk, Item>)
      requires Valid(items) && !expanding && previous == primary
      modifies this`primary, this`hashpower, this`expanding, this`expandBucket, this`table
      ensures Valid(items) && table == Expand(old(table)) && fresh(primary)
    {
      hide Sound, Means, Spells, AllSpell, Absent, Pow2;
      SoundSized(table, items, hash);
      ExpandOk(table, items, hash, index);
      primary := new Ptr[Pow2(hashpower + 1)](_ => None);
      hashpower := hashpower + 1;
      expanding := true;
      expandBucket := 0;
      EmptySpell(primary[..], hNext, Expand(table).main);
      table := Expand(table);
    }

    /** One round of the loop of assoc_maintenance_thread. */
    method MoveOldBucket(items: map<Chunk, Item>)
      requires Valid(items) && expanding
      modifies this, primary, previous
      ensures Sized(old(table)) && forall p :: p in old(table).prior[old(table).cursor] ==> p in items
      ensures Valid(items) && index == old(index)
      ensures table == MoveBucket(old(table), items, hash)
      ensures primary == old(primary) && previous == old(previous) && unchanged(`startedExpanding)
    {
      hide Sound, Means, Spells, AllSpell, Absent, Pow2;
      SoundSized(table, items, hash);
      MoveBucketMeans(table, items, hash, index);
      StartMigration(table, items, hash, primary[..], previous[..], hNext);
      ghost var after := MoveBucket(table, items, hash);
      ghost var q := table.prior[table.cursor];
      ghost var prior := previous[..][table.cursor := None];
      ghost var priorChains := table.prior[table.cursor := []];
      var it := previous[expandBucket];
      ghost var rest, cur := q, table.main;
      while it.Some?
        invariant primary == old(primary) && previous == old(previous) && previous[..] == old(previous[..])
        invariant unchanged(`table, `index, `hashItems, `hashpower, `expanding, `expandBucket, `startedExpanding)
        invariant (forall p :: p in rest ==> p in items) && |cur| == |table.main| && |primary[..]| == |cur|
        invariant Rehash(cur, rest, items, hash) == Rehash(table.main, q, items, hash)
        invariant Migrated(primary[..], cur, prior, priorChains, it, rest, hNext)
        decreases |rest|
      {
        assert it == Some(rest[0]) by { MigratedHead(primary[..], cur, prior, priorChains, it, rest, hNext); }
        var p := it.value;
        var bucket := Mask(hash(items[p].key), hashpower);
        MigrateOne(primary[..], cur, prior, priorChains, it, rest, hNext, bucket);
        it := hNext[p];
        ghost var heads := primary[..];
        hNext := hNext[p := primary[bucket]];
        primary[bucket] := Some(p);
        assert primary[..] == heads[bucket := Some(p)];
        cur := cur[bucket := [p] + cur[bucket]];
        rest := rest[1..];
      }
      EndMigration(primary[..], cur, prior, priorChains, it, rest, hNext);
      previous[expandBucket] := None;
      assert previous[..] == prior;
      expandBucket := expandBucket + 1;
      if expandBucket == Pow2(hashpower - 1) {
        expanding := false;
      }
      table := after;
    }

    /** All the buckets moved in one go, under the global lock. */
    method MaintenanceRound(items: map<Chunk, Item>, hashBulkMove: int)
      requires Valid(items)
      modifies this, primary, previous
      ensures Sound(old(table), items, hash)
      ensures Valid(items) && index == old(index) && primary == old(primary) && previous == old(previous)
      ensures table == MoveBuckets(old(table), items, hash, if hashBulkMove < 0 then 0 else hashBulkMove)
    {
      hide Sound, Means, Spells, AllSpell, Absent, Pow2, MoveBucket, Sized;
      ghost var n := if hashBulkMove < 0 then 0 else hashBulkMove;
      var ii := 0;
      while ii < hashBulkMove && expanding
        invariant 0 <= ii <= n && Valid(items) && Sound(table, items, hash)
        invariant index == old(index) && primary == old(primary) && previous == old(previous)
        invariant MoveBuckets(old(table), items, hash, n) == MoveBuckets(table, items, hash, n - ii)
        decreases hashBulkMove - ii
      {
        MoveOldBucket(items);
        ii := ii + 1;
      }
    }
  }

  // ----- moving a bucket, chunk by chunk

  lemma EmptySpell(heads: seq<Ptr>, next: map<Chunk, Ptr>, chains: seq<seq<Chunk>>)
    requires |heads| == |chains| && forall b :: 0 <= b < |heads| ==> heads[b] == None && chains[b] == []
    ensures AllSpell(heads, next, chains)
  {
  }

  /** In the middle of a move: `rest` is still to go, everything else is in its place. */
  ghost predicate Migrated(heads: seq<Ptr>, cur: seq<seq<Chunk>>, prior: seq<Ptr>, priorChains: seq<seq<Chunk>>,
                           it: Ptr, rest: seq<Chunk>, next: map<Chunk, Ptr>)
  {
    && AllSpell(heads, next, cur) && AllSpell(prior, next, priorChains) && Spells(it, next, rest) && NoDup(rest)
    && forall p :: p in rest ==> Absent(cur, p) && Absent(priorChains, p)
  }

  lemma MigratedHead(heads: seq<Ptr>, cur: seq<seq<Chunk>>, prior: seq<Ptr>, priorChains: seq<seq<Chunk>>,
                     it: Ptr, rest: seq<Chunk>, next: map<Chunk, Ptr>)
    requires Migrated(heads, cur, prior, priorChains, it, rest, next) && it.Some?
    ensures rest != [] && it == Some(rest[0]) && rest[0] in next
  {
  }

  lemma MigrateOne(heads: seq<Ptr>, cur: seq<seq<Chunk>>, prior: seq<Ptr>, priorChains: seq<seq<Chunk>>,
                   it: Ptr, rest: seq<Chunk>, next: map<Chunk, Ptr>, b: nat)
    requires Migrated(heads, cur, prior, priorChains, it, rest, next) && it.Some? && b < |heads| == |cur|
    ensures rest != [] && it == Some(rest[0]) && rest[0] in next
    ensures var p := rest[0];
      Migrated(heads[b := Some(p)], cur[b := [p] + cur[b]], prior, priorChains,
               next[p], rest[1..], next[p := heads[b]])
  {
    hide Spells, Absent, AllSpell;
    MigratedHead(heads, cur, prior, priorChains, it, rest, next);
    var p := rest[0];
    AllPush(heads, next, cur, b, p);
    AllFrame(prior, next, priorChains, p, heads[b]);
    SpellsTail(it, next, rest, heads[b]);
    forall r | r in rest[1..] ensures Absent(cur[b := [p] + cur[b]], r) {
      AbsentPush(cur, b, p, r);
    }
  }

  lemma AbsentPush(chains: seq<seq<Chunk>>, b: nat, p: Chunk, r: Chunk)
    requires Absent(chains, r) && r != p && b < |chains|
    ensures Absent(chains[b := [p] + chains[b]], r)
  {
  }

  lemma SpellsTail(it: Ptr, next: map<Chunk, Ptr>, q: seq<Chunk>, v: Ptr)
    requires Spells(it, next, q) && q != [] && NoDup(q)
    ensures q[0] in next && Spells(next[q[0]], next[q[0] := v], q[1..])
  {
    forall i | 0 <= i < |q[1..]|
      ensures q[1..][i] in next[q[0] := v] && next[q[0] := v][q[1..][i]] == Nth(q[1..], i + 1)
    {
      assert q[1..][i] == q[i + 1];
    }
  }

  lemma StartMigration(t: Table, items: map<Chunk, Item>, hash: Hash, heads: seq<Ptr>, prior: seq<Ptr>,
                       next: map<Chunk, Ptr>)
    requires Sound(t, items, hash) && Sized(t) && t.expanding && AllSpell(heads, next, t.main)
        && AllSpell(prior, next, t.prior)
    ensures |prior| == |t.prior| && |heads| == |t.main|
    ensures Migrated(heads, t.main, prior[t.cursor := None], t.prior[t.cursor := []], prior[t.cursor],
        t.prior[t.cursor], next)
  {
    hide Mask, Pow2;
    var q := t.prior[t.cursor];
    assert Spells(prior[t.cursor], next, q);
    MovedBucket(t, items, hash);
    forall p | p in q ensures Absent(t.main, p) && Absent(t.prior[t.cursor := []], p) {
      Home(t, items, hash, p);
    }
  }

  lemma EndMigration(heads: seq<Ptr>, cur: seq<seq<Chunk>>, prior: seq<Ptr>, priorChains: seq<seq<Chunk>>,
                     it: Ptr, rest: seq<Chunk>, next: map<Chunk, Ptr>)
    requires Migrated(heads, cur, prior, priorChains, it, rest, next) && it.None?
    ensures rest == [] && AllSpell(heads, next, cur) && AllSpell(prior, next, priorChains)
  {
  }

  // ----- the table and the rest of the item

  /** The table depends on items only through the keys of the chunks it holds. */
  lemma KeysSuffice(t: Table, a: map<Chunk, Item>, b: map<Chunk, Item>, hash: Hash, index: map<Key, Chunk>)
    requires Sound(t, a, hash) && Means(t, a, hash, index)
    requires forall k :: k in index ==> index[k] in b && b[index[k]].key == k
    ensures Sound(t, b, hash) && Means(t, b, hash, index)
  {
    hide Migrating, Mask, Pow2;
    forall p | (exists c :: 0 <= c < |t.main| && p in t.main[c]) || (exists c :: 0 <= c < |t.prior| && p in t.prior[c])
      ensures p in a && p in b && a[p].key == b[p].key
    {
      Findable(t, a, hash, p);
      assert Finds(t, a, hash, a[p].key, p);
    }
    forall k, p ensures Finds(t, b, hash, k, p) <==> Finds(t, a, hash, k, p) {}
    forall k, p ensures Finds(t, b, hash, k, p) <==> k in index && index[k] == p {
      assert Finds(t, a, hash, k, p) <==> k in index && index[k] == p;
    }
  }

  lemma ValidHits(h: HashTable, items: map<Chunk, Item>, key: Key)
    requires h.Valid(items)
    ensures Sized(h.table)
    ensures var q := Searched(h.table, h.hash(key));
      && (forall p :: p in q ==> p in items && (items[p].key == key ==> key in h.index && h.index[key] == p))
      && (key in h.index ==> h.index[key] in q && h.index[key] in items && items[h.index[key]].key == key)
  {
    hide Sound, Means, AllSpell;
    Hits(h.table, items, h.hash, h.index, key);
  }

  lemma ValidShape(h: HashTable, items: map<Chunk, Item>)
    requires h.Valid(items)
    ensures h.expanding == h.table.expanding && h.hashpower == h.table.power
    ensures h.primary.Length == Pow2(h.hashpower)
  {
  }

  /** The table finds every indexed chunk under its own key. */
  lemma ValidIndex(h: HashTable, items: map<Chunk, Item>)
    requires h.Valid(items)
    ensures forall k :: k in h.index ==> h.index[k] in items && items[h.index[k]].key == k
  {
    hide Sound, AllSpell;
    SoundSized(h.table, items, h.hash);
    forall k | k in h.index ensures h.index[k] in items && items[h.index[k]].key == k {
      assert Finds(h.table, items, h.hash, k, h.index[k]);
    }
  }

  lemma ValidKeys(h: HashTable, a: map<Chunk, Item>, b: map<Chunk, Item>)
    requires h.Valid(a)
    requires forall k :: k in h.index && h.index[k] in a ==> h.index[k] in b && b[h.index[k]].key == a[h.index[k]].key
    ensures h.Valid(b)
  {
    hide Sound, Means, AllSpell;
    ValidIndex(h, a);
    KeysSuffice(h.table, a, b, h.hash, h.index);
  }

  // ----- splicing a chunk out, chain by chain

  /** Changing a chain changes nothing else of the table. */
  lemma SameCursor(t: Table, hv: nat, p: Chunk)
    requires Sized(t)
    ensures var (r, i) := (Remove(t, hv, p), Insert(t, hv, p));
      && r.power == t.power == i.power && r.expanding == t.expanding == i.expanding
      && r.cursor == t.cursor == i.cursor
  {
  }

  function SpliceNext(next: map<Chunk, Ptr>, q: seq<Chunk>, i: nat): map<Chunk, Ptr>
    requires i < |q| && q[i] in next
  {
    if i == 0 then next[q[i] := None] else next[q[i] := None][q[i - 1] := next[q[i]]]
  }

  function SpliceHeads(heads: seq<Ptr>, b: nat, next: map<Chunk, Ptr>, q: seq<Chunk>, i: nat): seq<Ptr>
    requires i < |q| && q[i] in next && b < |heads|
  {
    if i == 0 then heads[b := next[q[i]]] else heads
  }

  lemma AllCut(heads: seq<Ptr>, next: map<Chunk, Ptr>, chains: seq<seq<Chunk>>, b: nat, i: nat)
    requires AllSpell(heads, next, chains) && b < |heads| && i < |chains[b]| && NoDup(chains[b])
    requires forall c :: 0 <= c < |chains| && c != b ==>
               chains[b][i] !in chains[c] && (i > 0 ==> chains[b][i - 1] !in chains[c])
    ensures chains[b][i] in next && heads[b] == Nth(chains[b], 0)
    ensures i > 0 ==> chains[b][i - 1] in next && next[chains[b][i - 1]] == Some(chains[b][i])
    ensures AllSpell(SpliceHeads(heads, b, next, chains[b], i), SpliceNext(next, chains[b], i),
                     chains[b := Without(chains[b], chains[b][i])])
  {
    var q := chains[b];
    assert Spells(heads[b], next, q);
    WithoutAt(q, i);
    SpellsCut(heads[b], next, q, i);
    forall c | 0 <= c < |chains| && c != b ensures Spells(heads[c], SpliceNext(next, q, i), chains[c]) {
      SpellsFrame(heads[c], next, chains[c], q[i], None);
      if i > 0 { SpellsFrame(heads[c], next[q[i] := None], chains[c], q[i - 1], next[q[i]]); }
    }
  }

  lemma AllCutFrame(heads: seq<Ptr>, next: map<Chunk, Ptr>, chains: seq<seq<Chunk>>, q: seq<Chunk>, i: nat)
    requires AllSpell(heads, next, chains) && i < |q| && q[i] in next
    requires Absent(chains, q[i]) && (i > 0 ==> Absent(chains, q[i - 1]))
    ensures AllSpell(heads, SpliceNext(next, q, i), chains)
  {
    AllFrame(heads, next, chains, q[i], None);
    if i > 0 { AllFrame(heads, next[q[i] := None], chains, q[i - 1], next[q[i]]); }
  }

  /** A chunk of a searched chain is in no other chain. */
  lemma OnlyHome(t: Table, items: map<Chunk, Item>, hash: Hash, hv: nat, p: Chunk)
    requires Sound(t, items, hash) && Sized(t) && p in Searched(t, hv)
    ensures forall b :: 0 <= b < |t.main| && p in t.main[b] ==> !InOld(t, hv) && b == Mask(hv, t.power)
    ensures forall b :: 0 <= b < |t.prior| && p in t.prior[b] ==> InOld(t, hv) && b == Mask(hv, t.power - 1)
  {
    hide Sound, Mask, Pow2;
    SearchedPlaced(t, items, hash, hv);
    Home(t, items, hash, p);
  }

  lemma TableCut(t: Table, heads: seq<Ptr>, prior: seq<Ptr>, next: map<Chunk, Ptr>,
                 items: map<Chunk, Item>, hash: Hash, hv: nat, i: nat)
    requires Sound(t, items, hash) && Sized(t) && i < |Searched(t, hv)|
    requires AllSpell(heads, next, t.main) && (t.expanding ==> AllSpell(prior, next, t.prior))
    ensures var q := Searched(t, hv); var t' := Remove(t, hv, q[i]);
      && |heads| == |t.main| && (t.expanding ==> |prior| == |t.prior|)
      && q[i] in next && (i > 0 ==> q[i - 1] in next && next[q[i - 1]] == Some(q[i]))
      && (if InOld(t, hv) then
            && prior[Mask(hv, t.power - 1)] == Nth(q, 0)
            && AllSpell(heads, SpliceNext(next, q, i), t'.main)
            && AllSpell(SpliceHeads(prior, Mask(hv, t.power - 1), next, q, i), SpliceNext(next, q, i), t'.prior)
          else
            && heads[Mask(hv, t.power)] == Nth(q, 0)
            && AllSpell(SpliceHeads(heads, Mask(hv, t.power), next, q, i), SpliceNext(next, q, i), t'.main)
            && (t.expanding ==> AllSpell(prior, SpliceNext(next, q, i), t'.prior)))
  {
    hide Sound, Spells, Mask, Pow2;
    var q := Searched(t, hv);
    SearchedPlaced(t, items, hash, hv);
    assert NoDup(q);
    OnlyHome(t, items, hash, hv, q[i]);
    if i > 0 { OnlyHome(t, items, hash, hv, q[i - 1]); }
    if InOld(t, hv) {
      AllCut(prior, next, t.prior, Mask(hv, t.power - 1), i);
      AllCutFrame(heads, next, t.main, q, i);
    } else {
      AllCut(heads, next, t.main, Mask(hv, t.power), i);
      if t.expanding { AllCutFrame(prior, next, t.prior, q, i); }
    }
  }

  // ----- pushing a chunk in front

  lemma TablePush(t: Table, heads: seq<Ptr>, prior: seq<Ptr>, next: map<Chunk, Ptr>,
                  items: map<Chunk, Item>, hash: Hash, index: map<Key, Chunk>, it: Chunk)
    requires Sound(t, items, hash) && Sized(t) && Means(t, items, hash, index)
    requires it in items && items[it].key !in index
    requires AllSpell(heads, next, t.main) && (t.expanding ==> AllSpell(prior, next, t.prior))
    ensures var hv := hash(items[it].key); var t' := Insert(t, hv, it);
      && |heads| == |t.main| && (t.expanding ==> |prior| == |t.prior|)
      && (if InOld(t, hv) then
            var b := Mask(hv, t.power - 1); var next' := next[it := prior[b]];
            AllSpell(heads, next', t'.main) && AllSpell(prior[b := Some(it)], next', t'.prior)
          else
            var b := Mask(hv, t.power); var next' := next[it := heads[b]];
            AllSpell(heads[b := Some(it)], next', t'.main) && (t.expanding ==> AllSpell(prior, next', t'.prior)))
  {
    hide Sound, Spells, Mask, Pow2;
    var hv := hash(items[it].key);
    NowhereYet(t, items, hash, index, it);
    if InOld(t, hv) {
      var b := Mask(hv, t.power - 1);
      AllPush(prior, next, t.prior, b, it);
      AllFrame(heads, next, t.main, it, prior[b]);
    } else {
      var b := Mask(hv, t.power);
      AllPush(heads, next, t.main, b, it);
      if t.expanding { AllFrame(prior, next, t.prior, it, heads[b]); }
    }
  }

  lemma NowhereYet(t: Table, items: map<Chunk, Item>, hash: Hash, index: map<Key, Chunk>, it: Chunk)
    requires Sound(t, items, hash) && Means(t, items, hash, index) && it in items && items[it].key !in index
    ensures Absent(t.main, it) && Absent(t.prior, it)
  {
    Home(t, items, hash, it);
    assert !Finds(t, items, hash, items[it].key, it);
  }

  lemma WithoutAt(q: seq<Chunk>, i: nat)
    requires i < |q| && NoDup(q)
    ensures Without(q, q[i]) == q[..i] + q[i + 1..]
  {
    assert IndexOf(q, q[i]) == i;
  }
}
