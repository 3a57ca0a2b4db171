/** The hash table of assoc.c as chains of chunks: a primary table and, while it is being
    expanded bucket by bucket, the old table it grows out of. */
module Chains {
  import opened Seqs
  import opened CacheState

  datatype Table = Table(power: nat, main: seq<seq<Chunk>>, prior: seq<seq<Chunk>>, expanding: bool, cursor: nat)

  type Hash = Key -> nat

  /** hv & hashmask(n). */
  function Mask(hv: nat, n: nat): (b: nat)
    ensures b < Pow2(n)
  {
    hv % Pow2(n)
  }

  ghost predicate Sized(t: Table) {
    && |t.main| == Pow2(t.power)
    && (t.expanding ==> t.power >= 1 && |t.prior| == Pow2(t.power - 1) && t.cursor < |t.prior|)
    && (!t.expanding ==> t.prior == [] && t.cursor == 0)
  }

  /** assoc_find and its like look in the old table for buckets not moved yet. */
  predicate InOld(t: Table, hv: nat)
    requires t.expanding ==> t.power >= 1
  {
    t.expanding && Mask(hv, t.power - 1) >= t.cursor
  }

  /** The one chain searched for a hash value. */
  function Searched(t: Table, hv: nat): seq<Chunk>
    requires Sized(t)
  {
    if InOld(t, hv) then t.prior[Mask(hv, t.power - 1)] else t.main[Mask(hv, t.power)]
  }

  function WithSearched(t: Table, hv: nat, q: seq<Chunk>): Table
    requires Sized(t)
  {
    if InOld(t, hv) then t.(prior := t.prior[Mask(hv, t.power - 1) := q])
    else t.(main := t.main[Mask(hv, t.power) := q])
  }

  function Insert(t: Table, hv: nat, p: Chunk): Table
    requires Sized(t)
  {
    WithSearched(t, hv, [p] + Searched(t, hv))
  }

  function Remove(t: Table, hv: nat, p: Chunk): Table
    requires Sized(t)
  {
    WithSearched(t, hv, Without(Searched(t, hv), p))
  }

  /** assoc_expand. */
  function Expand(t: Table): Table {
    Table(t.power + 1, seq(Pow2(t.power + 1), i => []), t.main, true, 0)
  }

  /** The chunks of q, first to last, each put at the head of its bucket. */
  function Rehash(main: seq<seq<Chunk>>, q: seq<Chunk>, items: map<Chunk, Item>, hash: Hash): (r: seq<seq<Chunk>>)
    requires |main| > 0 && forall p :: p in q ==> p in items
    ensures |r| == |main|
    decreases |q|
  {
    if q == [] then main else
      var b := hash(items[q[0]].key) % |main|;
      Rehash(main[b := [q[0]] + main[b]], q[1..], items, hash)
  }

  /** One round of assoc_maintenance_thread: bucket `cursor` moves to the primary table. */
  function MoveBucket(t: Table, items: map<Chunk, Item>, hash: Hash): Table
    requires Sized(t) && t.expanding && forall p :: p in t.prior[t.cursor] ==> p in items
  {
    var main := Rehash(t.main, t.prior[t.cursor], items, hash);
    if t.cursor + 1 == |t.prior| then Table(t.power, main, [], false, 0)
    else t.(main := main, prior := t.prior[t.cursor := []], cursor := t.cursor + 1)
  }

  // ----- the invariant

  /** Every chain holds distinct items with distinct keys, each in the bucket of its hash. */
  ghost predicate Placed(chains: seq<seq<Chunk>>, items: map<Chunk, Item>, hash: Hash) {
    && (forall b, p :: 0 <= b < |chains| && p in chains[b] ==>
          p in items && hash(items[p].key) % |chains| == b)
    && (forall b, i, j :: 0 <= b < |chains| && 0 <= i < j < |chains[b]| ==>
          chains[b][i] in items && chains[b][j] in items && items[chains[b][i]].key != items[chains[b][j]].key)
  }

  /** The bucket of the old table that bucket b of the primary table comes from. */
  function Low(b: nat, half: nat): nat { if b < half then b else b - half }

  /** Moved buckets are empty in the old table; the two primary buckets a bucket splits into
      stay empty until it moves. */
  ghost predicate Migrating(t: Table) {
    t.expanding ==>
      && |t.main| == 2 * |t.prior| && t.cursor <= |t.prior|
      && (forall b :: 0 <= b < t.cursor ==> t.prior[b] == [])
      && (forall b :: 0 <= b < |t.main| && Low(b, |t.prior|) >= t.cursor ==> t.main[b] == [])
  }

  ghost predicate Sound(t: Table, items: map<Chunk, Item>, hash: Hash) {
    Sized(t) && Placed(t.main, items, hash) && Placed(t.prior, items, hash) && Migrating(t)
  }

  /** A lookup for k comes across p. */
  predicate Finds(t: Table, items: map<Chunk, Item>, hash: Hash, k: Key, p: Chunk)
    requires Sized(t)
  {
    p in Searched(t, hash(k)) && p in items && items[p].key == k
  }

  /** The finite map the table stands for. */
  ghost predicate Means(t: Table, items: map<Chunk, Item>, hash: Hash, index: map<Key, Chunk>)
    requires Sized(t)
  {
    forall k, p :: Finds(t, items, hash, k, p) <==> k in index && index[k] == p
  }

  lemma ModUnique(x: nat, m: nat, q: int, r: nat)
    requires m > 0 && x == m * q + r && r < m
    ensures x % m == r
  {
    var d := q - x / m;
    assert m * d == x % m - r by { assert x == m * (x / m) + x % m; }
    MulApart(m, d);
  }

  lemma MulApart(m: nat, d: int)
    requires m > 0
    ensures d > 0 ==> m * d >= m
    ensures d < 0 ==> m * d + m <= 0
  {
  }

  lemma SplitBucket(hv: nat, m: nat)
    requires m > 0
    ensures Low(hv % (2 * m), m) == hv % m
  {
    var q := hv / (2 * m);
    var b := hv % (2 * m);
    assert hv == m * (2 * q) + b;
    if b < m { ModUnique(hv, m, 2 * q, b); } else {
      assert hv == m * (2 * q + 1) + (b - m);
      ModUnique(hv, m, 2 * q + 1, b - m);
    }
  }

  /** A bucket of the small table splits into two of the big one. */
  lemma HalfBucket(hv: nat, power: nat)
    requires power >= 1
    ensures Low(Mask(hv, power), Pow2(power - 1)) == Mask(hv, power - 1)
    ensures Pow2(power) == 2 * Pow2(power - 1)
  {
    SplitBucket(hv, Pow2(power - 1));
  }

  /** No item is out of reach: wherever it sits, that is the chain searched for its key. */
  lemma Findable(t: Table, items: map<Chunk, Item>, hash: Hash, p: Chunk)
    requires Sound(t, items, hash)
    requires (exists b :: 0 <= b < |t.main| && p in t.main[b]) || (exists b :: 0 <= b < |t.prior| && p in t.prior[b])
    ensures p in items && p in Searched(t, hash(items[p].key))
  {
    if b :| 0 <= b < |t.main| && p in t.main[b] {
      if t.expanding { HalfBucket(hash(items[p].key), t.power); }
    } else {
      var b :| 0 <= b < |t.prior| && p in t.prior[b];
    }
  }

  lemma PlacedUpdate(chains: seq<seq<Chunk>>, items: map<Chunk, Item>, hash: Hash, b: nat, q: seq<Chunk>)
    requires Placed(chains, items, hash) && b < |chains|
    requires forall p :: p in q ==> p in items && hash(items[p].key) % |chains| == b
    requires forall i, j :: 0 <= i < j < |q| ==> items[q[i]].key != items[q[j]].key
    ensures Placed(chains[b := q], items, hash)
  {
  }

  /** Replacing a searched chain by one that is just as well placed. */
  lemma ReplaceOk(t: Table, items: map<Chunk, Item>, hash: Hash, hv: nat, q: seq<Chunk>)
    requires Sound(t, items, hash)
    requires forall p :: p in q ==> p in items && SameChain(t, hv, hash(items[p].key))
    requires forall i, j :: 0 <= i < j < |q| ==> items[q[i]].key != items[q[j]].key
    ensures Sound(WithSearched(t, hv, q), items, hash)
  {
    hide Placed, Pow2;
    if InOld(t, hv) {
      PlacedUpdate(t.prior, items, hash, Mask(hv, t.power - 1), q);
    } else {
      if t.expanding { HalfBucket(hv, t.power); }
      PlacedUpdate(t.main, items, hash, Mask(hv, t.power), q);
    }
  }

  lemma InsertOk(t: Table, items: map<Chunk, Item>, hash: Hash, index: map<Key, Chunk>, p: Chunk)
    requires Sound(t, items, hash) && Means(t, items, hash, index)
    requires p in items && items[p].key !in index
    ensures var k := items[p].key; var t' := Insert(t, hash(k), p);
      Sound(t', items, hash) && Means(t', items, hash, index[k := p])
    ensures |index[items[p].key := p]| == |index| + 1
  {
    hide Migrating;
    assert index[items[p].key := p].Keys == index.Keys + {items[p].key};
    var k := items[p].key;
    var hv := hash(k);
    var q := [p] + Searched(t, hv);
    SearchedPlaced(t, items, hash, hv);
    forall r | r in Searched(t, hv) ensures items[r].key != k {
      assert Finds(t, items, hash, items[r].key, r) <==> items[r].key in index && index[items[r].key] == r;
    }
    ReplaceOk(t, items, hash, hv, q);
    SearchedAfter(t, hv, q, hash);
    InsertMeans(t, items, hash, index, p);
  }

  lemma SearchedPlaced(t: Table, items: map<Chunk, Item>, hash: Hash, hv: nat)
    requires Sound(t, items, hash)
    ensures forall p :: p in Searched(t, hv) ==> p in items && SameChain(t, hv, hash(items[p].key))
    ensures var q := Searched(t, hv);
      forall i, j :: 0 <= i < j < |q| ==> q[i] in items && q[j] in items && items[q[i]].key != items[q[j]].key
  {
    forall p | p in Searched(t, hv) ensures p in items && SameChain(t, hv, hash(items[p].key)) {
      if !InOld(t, hv) && t.expanding {
        assert p in t.main[Mask(hv, t.power)];
        HalfBucket(hv, t.power);
        HalfBucket(hash(items[p].key), t.power);
      }
    }
  }

  lemma InsertMeans(t: Table, items: map<Chunk, Item>, hash: Hash, index: map<Key, Chunk>, p: Chunk)
    requires Sized(t) && Means(t, items, hash, index) && p in items && items[p].key !in index
    requires forall q :: q in Searched(t, hash(items[p].key)) ==>
      q in items && SameChain(t, hash(items[p].key), hash(items[q].key))
    ensures var k := items[p].key; var t' := Insert(t, hash(k), p);
      Sized(t') && Means(t', items, hash, index[k := p])
  {
    var k := items[p].key;
    var hv := hash(k);
    hide Searched, WithSearched, SameChain, Sized, Mask, InOld;
    var q := Searched(t, hv);
    SearchedAfter(t, hv, [p] + q, hash);
    SameChainSearched(t, hv, hash);
    var t' := Insert(t, hv, p);
    forall j, r
      ensures Finds(t', items, hash, j, r) <==> j in index[k := p] && index[k := p][j] == r
    {
      assert Finds(t, items, hash, j, r) <==> j in index && index[j] == r;
      if SameChain(t, hv, hash(j)) { assert r in [p] + q <==> r == p || r in q; }
    }
  }

  lemma SameChainSearched(t: Table, hv: nat, hash: Hash)
    requires Sized(t)
    ensures forall k :: SameChain(t, hv, hash(k)) ==> Searched(t, hash(k)) == Searched(t, hv)
    ensures SameChain(t, hv, hv)
  {
  }

  /** Replacing the searched chain changes what is found for exactly the hash values that
      are searched there. */
  lemma SearchedAfter(t: Table, hv: nat, q: seq<Chunk>, hash: Hash)
    requires Sized(t)
    ensures var t' := WithSearched(t, hv, q);
      && Sized(t')
      && (forall k :: Searched(t', hash(k)) == if SameChain(t, hv, hash(k)) then q else Searched(t, hash(k)))
  {
  }

  predicate SameChain(t: Table, a: nat, b: nat)
    requires Sized(t)
  {
    if InOld(t, a) then InOld(t, b) && Mask(a, t.power - 1) == Mask(b, t.power - 1)
    else !InOld(t, b) && Mask(a, t.power) == Mask(b, t.power)
  }

  lemma RemoveOk(t: Table, items: map<Chunk, Item>, hash: Hash, index: map<Key, Chunk>, k: Key)
    requires Sound(t, items, hash) && Means(t, items, hash, index) && k in index
    ensures var t' := Remove(t, hash(k), index[k]);
      Sound(t', items, hash) && Means(t', items, hash, index - {k})
    ensures |index - {k}| == |index| - 1
  {
    hide Migrating, Placed, Searched, WithSearched, SameChain, Sized, Mask, InOld;
    assert (index - {k}).Keys == index.Keys - {k};
    var p := index[k];
    var hv := hash(k);
    var q := Searched(t, hv);
    SearchedPlaced(t, items, hash, hv);
    assert NoDup(q);
    WithoutNoDup(q, p);
    WithoutOrder(q, p, items);
    ReplaceOk(t, items, hash, hv, Without(q, p));
    SearchedAfter(t, hv, Without(q, p), hash);
    SameChainSearched(t, hv, hash);
    var t' := Remove(t, hv, p);
    forall j, r
      ensures Finds(t', items, hash, j, r) <==> j in index - {k} && (index - {k})[j] == r
    {
      assert Finds(t, items, hash, j, r) <==> j in index && index[j] == r;
      assert Finds(t, items, hash, k, p);
      if SameChain(t, hv, hash(j)) {
        assert Searched(t', hash(j)) == Without(q, p);
        assert r in Without(q, p) <==> r in q && r != p;
      } else {
        assert Searched(t', hash(j)) == Searched(t, hash(j)) && j != k;
      }
    }
  }

  lemma WithoutOrder(q: seq<Chunk>, p: Chunk, items: map<Chunk, Item>)
    requires forall i, j :: 0 <= i < j < |q| ==> q[i] in items && q[j] in items && items[q[i]].key != items[q[j]].key
    requires forall r :: r in q ==> r in items
    ensures var w := Without(q, p);
      forall i, j :: 0 <= i < j < |w| ==> w[i] in items && w[j] in items && items[w[i]].key != items[w[j]].key
  {
    var w := Without(q, p);
    forall a, b | 0 <= a < b < |w|
      ensures w[a] in items && w[b] in items && items[w[a]].key != items[w[b]].key
    {
      WithoutFrom(q, p, a);
      WithoutFrom(q, p, b);
      assert From(q, p, a) < From(q, p, b);
      assert w[a] == q[From(q, p, a)] && w[b] == q[From(q, p, b)];
    }
  }

  /** Expansion starts by looking everything up in the old table. */
  lemma ExpandOk(t: Table, items: map<Chunk, Item>, hash: Hash, index: map<Key, Chunk>)
    requires Sound(t, items, hash) && Means(t, items, hash, index) && !t.expanding
    ensures Sound(Expand(t), items, hash) && Means(Expand(t), items, hash, index)
  {
    var t' := Expand(t);
    forall k, p ensures Finds(t', items, hash, k, p) <==> k in index && index[k] == p {
      assert Searched(t', hash(k)) == Searched(t, hash(k));
      assert Finds(t, items, hash, k, p) <==> k in index && index[k] == p;
    }
  }

  // ----- moving a bucket

  /** Where Rehash puts things: bucket b gains exactly the chunks of q that hash to it. */
  lemma {:induction false} RehashHas(main: seq<seq<Chunk>>, q: seq<Chunk>, items: map<Chunk, Item>, hash: Hash)
    requires |main| > 0 && forall p :: p in q ==> p in items
    ensures var r := Rehash(main, q, items, hash);
      forall b, p :: 0 <= b < |main| ==>
        (p in r[b] <==> p in main[b] || (p in q && hash(items[p].key) % |main| == b))
    decreases |q|
  {
    if q != [] {
      var c := hash(items[q[0]].key) % |main|;
      var next := main[c := [q[0]] + main[c]];
      RehashHas(next, q[1..], items, hash);
      var r := Rehash(main, q, items, hash);
      forall b, p | 0 <= b < |main|
        ensures p in r[b] <==> p in main[b] || (p in q && hash(items[p].key) % |main| == b)
      {
        assert p in q <==> p == q[0] || p in q[1..];
        assert p in next[b] <==> p in main[b] || (p == q[0] && b == c);
      }
    }
  }

  lemma {:induction false} RehashPlaced(main: seq<seq<Chunk>>, q: seq<Chunk>, items: map<Chunk, Item>, hash: Hash)
    requires |main| > 0 && Placed(main, items, hash) && forall p :: p in q ==> p in items
    requires forall i, j :: 0 <= i < j < |q| ==> items[q[i]].key != items[q[j]].key
    requires forall p, b, r :: p in q && 0 <= b < |main| && r in main[b] ==> r in items && items[p].key != items[r].key
    ensures Placed(Rehash(main, q, items, hash), items, hash)
    decreases |q|
  {
    if q != [] {
      var c := hash(items[q[0]].key) % |main|;
      var next := main[c := [q[0]] + main[c]];
      assert Placed(next, items, hash);
      RehashPlaced(next, q[1..], items, hash);
    }
  }

  /** The bucket being moved: its items fit into the two primary buckets it splits into,
      and clash with nothing that is there. */
  lemma MovedBucket(t: Table, items: map<Chunk, Item>, hash: Hash)
    requires Sound(t, items, hash) && t.expanding
    ensures |t.main| == 2 * |t.prior|
    ensures var q := t.prior[t.cursor];
      && (forall p :: p in q ==> p in items && Low(hash(items[p].key) % |t.main|, |t.prior|) == t.cursor)
      && (forall i, j :: 0 <= i < j < |q| ==> items[q[i]].key != items[q[j]].key)
      && (forall p, b, r :: p in q && 0 <= b < |t.main| && r in t.main[b] ==>
            r in items && items[p].key != items[r].key)
  {
    var q := t.prior[t.cursor];
    HalfBucket(0, t.power);
    forall p | p in q ensures p in items && Low(hash(items[p].key) % |t.main|, |t.prior|) == t.cursor {
      HalfBucket(hash(items[p].key), t.power);
    }
  }

  /** Rehashing bucket `cursor` leaves the buckets that come later empty. */
  lemma RehashSparse(main: seq<seq<Chunk>>, q: seq<Chunk>, items: map<Chunk, Item>, hash: Hash, half: nat, cursor: nat)
    requires |main| > 0 && forall p :: p in q ==> p in items && Low(hash(items[p].key) % |main|, half) == cursor
    requires forall b :: 0 <= b < |main| && Low(b, half) >= cursor ==> main[b] == []
    ensures var r := Rehash(main, q, items, hash);
      forall b :: 0 <= b < |main| && Low(b, half) >= cursor + 1 ==> r[b] == []
  {
    var r := Rehash(main, q, items, hash);
    forall b | 0 <= b < |main| && Low(b, half) >= cursor + 1 ensures r[b] == [] {
      RehashSkips(main, q, items, hash, b);
    }
  }

  lemma {:induction false} RehashSkips(main: seq<seq<Chunk>>, q: seq<Chunk>, items: map<Chunk, Item>, hash: Hash,
                                       b: nat)
    requires b < |main| && forall p :: p in q ==> p in items && hash(items[p].key) % |main| != b
    ensures Rehash(main, q, items, hash)[b] == main[b]
    decreases |q|
  {
    if q != [] {
      var c := hash(items[q[0]].key) % |main|;
      assert q[0] in q;
      RehashSkips(main[c := [q[0]] + main[c]], q[1..], items, hash, b);
    }
  }

  lemma MovedMigrating(t: Table, items: map<Chunk, Item>, hash: Hash)
    requires Sound(t, items, hash) && t.expanding
    ensures (forall p :: p in t.prior[t.cursor] ==> p in items)
    ensures Sized(MoveBucket(t, items, hash)) && Migrating(MoveBucket(t, items, hash))
  {
    hide Placed, Mask, Pow2, Rehash;
    MovedBucket(t, items, hash);
    RehashSparse(t.main, t.prior[t.cursor], items, hash, |t.prior|, t.cursor);
  }

  lemma MoveBucketOk(t: Table, items: map<Chunk, Item>, hash: Hash)
    requires Sound(t, items, hash) && t.expanding
    ensures (forall p :: p in t.prior[t.cursor] ==> p in items)
    ensures Sound(MoveBucket(t, items, hash), items, hash)
  {
    hide Placed, Mask, Migrating, Pow2;
    MovedMigrating(t, items, hash);
    MovedBucket(t, items, hash);
    RehashPlaced(t.main, t.prior[t.cursor], items, hash);
    PriorPlaced(t, items, hash);
  }

  lemma PriorPlaced(t: Table, items: map<Chunk, Item>, hash: Hash)
    requires Sound(t, items, hash) && t.expanding
    ensures Placed(t.prior[t.cursor := []], items, hash) && Placed([], items, hash)
  {
  }

  /** Moving a bucket loses nothing and duplicates nothing: every lookup finds what it
      found before. */
  lemma MoveBucketMeans(t: Table, items: map<Chunk, Item>, hash: Hash, index: map<Key, Chunk>)
    requires Sound(t, items, hash) && Means(t, items, hash, index) && t.expanding
    ensures (forall p :: p in t.prior[t.cursor] ==> p in items)
    ensures Sound(MoveBucket(t, items, hash), items, hash) && Means(MoveBucket(t, items, hash), items, hash, index)
  {
    hide Sound;
    MoveBucketOk(t, items, hash);
    MovedBucket(t, items, hash);
    SoundSized(t, items, hash);
    SoundSized(MoveBucket(t, items, hash), items, hash);
    var t' := MoveBucket(t, items, hash);
    forall k, p ensures Finds(t', items, hash, k, p) <==> k in index && index[k] == p {
      FindsAfterMove(t, items, hash, k, p);
    }
  }

  lemma SoundSized(t: Table, items: map<Chunk, Item>, hash: Hash)
    requires Sound(t, items, hash)
    ensures Sized(t) && Migrating(t)
  {
  }

  lemma FindsAfterMove(t: Table, items: map<Chunk, Item>, hash: Hash, k: Key, p: Chunk)
    requires Sound(t, items, hash) && t.expanding
    requires forall p :: p in t.prior[t.cursor] ==> p in items
    requires Sized(MoveBucket(t, items, hash))
    ensures Finds(MoveBucket(t, items, hash), items, hash, k, p) <==> Finds(t, items, hash, k, p)
  {
    hide Placed, Pow2;
    var q := t.prior[t.cursor];
    MovedBucket(t, items, hash);
    RehashHas(t.main, q, items, hash);
    HalfBucket(hash(k), t.power);
  }

  // ----- a whole expansion

  /** n rounds of the maintenance thread. */
  function MoveBuckets(t: Table, items: map<Chunk, Item>, hash: Hash, n: nat): (r: Table)
    requires Sound(t, items, hash)
    ensures Sound(r, items, hash)
    decreases n
  {
    if n == 0 || !t.expanding then t else
      MoveBucketOk(t, items, hash);
      MoveBuckets(MoveBucket(t, items, hash), items, hash, n - 1)
  }

  /** Migration ends after exactly as many rounds as the old table had buckets, and the
      table then means what it meant before. */
  lemma {:induction false} MigrationEnds(t: Table, items: map<Chunk, Item>, hash: Hash, index: map<Key, Chunk>, n: nat)
    requires Sound(t, items, hash) && Means(t, items, hash, index) && t.expanding
    ensures var t' := MoveBuckets(t, items, hash, n);
      && Sound(t', items, hash) && Means(t', items, hash, index) && t'.power == t.power
      && (t'.expanding <==> n < |t.prior| - t.cursor)
    decreases n
  {
    hide Placed, Means, Migrating, Pow2, Rehash;
    if n > 0 {
      MoveBucketMeans(t, items, hash, index);
      var t1 := MoveBucket(t, items, hash);
      if t1.expanding { MigrationEnds(t1, items, hash, index, n - 1); }
    }
  }

  lemma ExpansionComplete(t: Table, items: map<Chunk, Item>, hash: Hash, index: map<Key, Chunk>)
    requires Sound(t, items, hash) && Means(t, items, hash, index) && !t.expanding
    ensures Sound(Expand(t), items, hash)
    ensures var t' := MoveBuckets(Expand(t), items, hash, Pow2(t.power));
      !t'.expanding && |t'.main| == 2 * |t.main| && Means(t', items, hash, index)
    ensures forall n :: 0 <= n < Pow2(t.power) ==> MoveBuckets(Expand(t), items, hash, n).expanding
  {
    ExpandOk(t, items, hash, index);
    MigrationEnds(Expand(t), items, hash, index, Pow2(t.power));
    forall n | 0 <= n < Pow2(t.power) ensures MoveBuckets(Expand(t), items, hash, n).expanding {
      MigrationEnds(Expand(t), items, hash, index, n);
    }
  }
}
