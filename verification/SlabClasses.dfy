/** The chunk sizes of the slab allocator (slabs.c, slabs_init and slabs_clsid). */
module SlabClasses {

  const POWER_LARGEST: nat := 200
  const CHUNK_ALIGN_BYTES: nat := 8
  const ITEM_HEADER: nat := 48   // sizeof(item) on a 64-bit machine

  datatype SlabClass = SlabClass(size: nat, perslab: nat)

  ghost predicate Fits(c: SlabClass, itemSizeMax: nat) {
    && 0 < c.size <= itemSizeMax
    && c.size % CHUNK_ALIGN_BYTES == 0
    && c.perslab == itemSizeMax / c.size
  }

  ghost predicate Ladder(classes: seq<SlabClass>, itemSizeMax: nat) {
    && (forall i :: 1 <= i < |classes| ==> Fits(classes[i], itemSizeMax))
    && (forall i, j :: 1 <= i < j < |classes| ==> classes[i].size <= classes[j].size)
  }

  /** What the cache needs of slabs_init.  Entry 0 is unused; the last entry is power_largest,
      which has to be a place of the arrays heads, tails and sizes. */
  ghost predicate Geometry(classes: seq<SlabClass>, itemSizeMax: nat) {
    && 2 <= |classes| <= POWER_LARGEST
    && Ladder(classes, itemSizeMax)
    && classes[|classes| - 1].size == itemSizeMax
  }

  /** A page holds at least one chunk and its chunks fit into item_size_max bytes. */
  lemma ChunksFit(classes: seq<SlabClass>, itemSizeMax: nat, c: nat)
    requires Geometry(classes, itemSizeMax) && 1 <= c < |classes|
    ensures classes[c].perslab >= 1
    ensures classes[c].size * classes[c].perslab <= itemSizeMax
    ensures c == |classes| - 1 ==> classes[c].perslab == 1
  {
    assert Fits(classes[c], itemSizeMax);
  }

  /** Different chunks of one page occupy disjoint byte ranges inside the page. */
  lemma ChunksDisjoint(classes: seq<SlabClass>, itemSizeMax: nat, c: nat, i: nat, j: nat)
    requires Geometry(classes, itemSizeMax) && 1 <= c < |classes|
    requires i < j < classes[c].perslab
    ensures (i + 1) * classes[c].size <= j * classes[c].size
    ensures (j + 1) * classes[c].size <= itemSizeMax
  {
    ChunksFit(classes, itemSizeMax, c);
    MulMonotone(i + 1, j, classes[c].size);
    MulMonotone(j + 1, classes[c].perslab, classes[c].size);
  }

  lemma MulMonotone(a: nat, b: nat, s: nat)
    requires a <= b
    ensures a * s <= b * s
  {
    assert b * s == a * s + (b - a) * s;
  }

  /** The loop test of slabs_init: size <= item_size_max / factor. */
  predicate BelowLimit(size: nat, max: nat, factor: real)
    requires factor > 1.0
    ensures BelowLimit(size, max, factor) && max > 0 ==> size < max
  {
    var limit := max as real / factor;
    assert limit * factor == max as real;
    assert max > 0 ==> limit < max as real by {
      if max > 0 {
        assert limit > 0.0;
        RealShrinks(limit, factor);
      }
    }
    size as real <= limit
  }

  lemma RealShrinks(x: real, factor: real)
    requires factor > 1.0 && x > 0.0
    ensures x < x * factor
  {
    assert x * factor - x == x * (factor - 1.0);
  }

  /** `size *= factor` on an unsigned int. */
  function Grow(size: nat, factor: real): (r: nat)
    requires factor > 1.0
    ensures r >= size
  {
    assert size > 0 ==> size as real < size as real * factor by {
      if size > 0 { RealShrinks(size as real, factor); }
    }
    (size as real * factor).Floor
  }

  function Align(size: nat): (r: nat)
    ensures size <= r < size + CHUNK_ALIGN_BYTES && r % CHUNK_ALIGN_BYTES == 0
  {
    if size % CHUNK_ALIGN_BYTES != 0 then size + CHUNK_ALIGN_BYTES - size % CHUNK_ALIGN_BYTES else size
  }

  lemma AlignBelow(size: nat, max: nat)
    requires size < max && max % CHUNK_ALIGN_BYTES == 0
    ensures Align(size) <= max
  {
  }

  /** The classes from number i on, when the next one is for chunks of `size`. */
  function ClassList(itemSizeMax: nat, factor: real, size: nat, i: nat): (r: seq<SlabClass>)
    requires factor > 1.0 && size > 0
    ensures r != [] && r[|r| - 1] == SlabClass(itemSizeMax, 1)
    decreases POWER_LARGEST - i
  {
    if i < POWER_LARGEST && BelowLimit(size, itemSizeMax, factor) then
      [SlabClass(Align(size), itemSizeMax / Align(size))]
          + ClassList(itemSizeMax, factor, Grow(Align(size), factor), i + 1)
    else [SlabClass(itemSizeMax, 1)]
  }

  /** The size the next class is for after n classes have been made from `size` on. */
  function SizeAfter(factor: real, size: nat, n: nat): (r: nat)
    requires factor > 1.0
    ensures r >= size
    decreases n
  {
    if n == 0 then size else SizeAfter(factor, Grow(Align(size), factor), n - 1)
  }

  /** The largest class gets the number the loop stops at: the size only grows, so all the
      classes up to number n are made if and only if the size is in the limit just before. */
  lemma {:induction false} ClassCount(itemSizeMax: nat, factor: real, size: nat, i: nat, n: nat)
    requires factor > 1.0 && size > 0 && i < n <= POWER_LARGEST
    ensures |ClassList(itemSizeMax, factor, size, i)| + i > n
      <==> BelowLimit(SizeAfter(factor, size, n - 1 - i), itemSizeMax, factor)
    decreases n - i
  {
    hide Grow, Align, BelowLimit;
    NextClass(itemSizeMax, factor, size, i);
    var more := SizeAfter(factor, size, n - 1 - i);
    if !BelowLimit(size, itemSizeMax, factor) {
      LimitDown(size, more, itemSizeMax, factor);
    } else if i + 1 < n {
      ClassCount(itemSizeMax, factor, Grow(Align(size), factor), i + 1, n);
    }
  }

  lemma LimitDown(size: nat, more: nat, max: nat, factor: real)
    requires factor > 1.0 && size <= more
    ensures BelowLimit(more, max, factor) ==> BelowLimit(size, max, factor)
  {
  }

  method SlabsInit(itemSizeMax: nat, factor: real, chunkSize: nat) returns (classes: seq<SlabClass>)
    requires 0 < itemSizeMax && itemSizeMax % CHUNK_ALIGN_BYTES == 0
    requires factor > 1.0
    ensures classes == [SlabClass(0, 0)] + ClassList(itemSizeMax, factor, ITEM_HEADER + chunkSize, 1)
    ensures 2 <= |classes| <= POWER_LARGEST + 1 && Ladder(classes, itemSizeMax)
    ensures Geometry(classes, itemSizeMax)
      <==> !BelowLimit(SizeAfter(factor, ITEM_HEADER + chunkSize, POWER_LARGEST - 2), itemSizeMax, factor)
  {
    hide ClassList, Grow;
    ClassCount(itemSizeMax, factor, ITEM_HEADER + chunkSize, 1, POWER_LARGEST);
    var size := ITEM_HEADER + chunkSize;
    classes := [SlabClass(0, 0)];
    var i := 1;
    while i < POWER_LARGEST && BelowLimit(size, itemSizeMax, factor)
      invariant 1 <= i <= POWER_LARGEST && |classes| == i
      invariant 0 < size && Ladder(classes, itemSizeMax)
      invariant forall k :: 1 <= k < i ==> classes[k].size <= size
      invariant [SlabClass(0, 0)] + ClassList(itemSizeMax, factor, ITEM_HEADER + chunkSize, 1)
             == classes + ClassList(itemSizeMax, factor, size, i)
    {
      NextClass(itemSizeMax, factor, size, i);
      AlignBelow(size, itemSizeMax);
      Moved(classes, SlabClass(Align(size), itemSizeMax / Align(size)),
            ClassList(itemSizeMax, factor, Grow(Align(size), factor), i + 1));
      size := Align(size);
      classes := classes + [SlabClass(size, itemSizeMax / size)];
      size := Grow(size, factor);
      i := i + 1;
    }
    NextClass(itemSizeMax, factor, size, i);
    classes := classes + [SlabClass(itemSizeMax, 1)];
  }

  lemma NextClass(itemSizeMax: nat, factor: real, size: nat, i: nat)
    requires factor > 1.0 && size > 0
    ensures ClassList(itemSizeMax, factor, size, i) ==
      if i < POWER_LARGEST && BelowLimit(size, itemSizeMax, factor) then
        [SlabClass(Align(size), itemSizeMax / Align(size))]
            + ClassList(itemSizeMax, factor, Grow(Align(size), factor), i + 1)
      else [SlabClass(itemSizeMax, 1)]
  {
  }

  lemma Moved(a: seq<SlabClass>, c: SlabClass, b: seq<SlabClass>)
    ensures a + ([c] + b) == (a + [c]) + b
  {
  }

  /** One class with the standard settings: a page is a megabyte, the factor 1.25. */
  lemma StandardClass(size: nat, aligned: nat, next: nat, i: nat)
    requires 0 < size <= 300 && aligned == Align(size) && 4 * next <= 5 * aligned < 4 * next + 4 && i < POWER_LARGEST
    ensures ClassList(0x10_0000, 1.25, size, i)
      == [SlabClass(aligned, 0x10_0000 / aligned)] + ClassList(0x10_0000, 1.25, next, i + 1)
  {
    hide ClassList;
    NextClass(0x10_0000, 1.25, size, i);
    assert 0x10_0000 as real / 1.25 == 838860.8;
    assert Grow(aligned, 1.25) == next;
  }

  /** The first of them, for 48 bytes of data and up. */
  lemma StandardClasses()
    ensures [SlabClass(96, 10922), SlabClass(120, 8738), SlabClass(152, 6898), SlabClass(192, 5461),
             SlabClass(240, 4369), SlabClass(304, 3449)] <= ClassList(0x10_0000, 1.25, ITEM_HEADER + 48, 1)
  {
    hide ClassList;
    StandardClass(96, 96, 120, 1);
    StandardClass(120, 120, 150, 2);
    StandardClass(150, 152, 190, 3);
    StandardClass(190, 192, 240, 4);
    StandardClass(240, 240, 300, 5);
    StandardClass(300, 304, 380, 6);
  }

  /** When the factor is too small to reach the next multiple of eight, all the classes there
      is room for are made, and power_largest is 200: one more than items.c has room for. */
  lemma {:induction false} TooManyClasses(i: nat)
    requires i <= POWER_LARGEST
    ensures |ClassList(0x10_0000, 1.01, 96, i)| == POWER_LARGEST + 1 - i
    decreases POWER_LARGEST - i
  {
    assert Align(96) == 96 && Grow(96, 1.01) == 96;
    assert BelowLimit(96, 0x10_0000, 1.01) by { assert 0x10_0000 as real / 1.01 >= 96.0; }
    if i < POWER_LARGEST { TooManyClasses(i + 1); }
  }

  /** The class an object of this size goes to, looking from class i upwards. */
  function ClassFrom(classes: seq<SlabClass>, size: nat, i: nat): (id: nat)
    requires i <= |classes|
    ensures id == 0 || i <= id < |classes|
    ensures 0 < i && id == 0 ==> forall k :: i <= k < |classes| ==> classes[k].size < size
    ensures 0 < i && id != 0 ==> size <= classes[id].size && forall k :: i <= k < id ==> classes[k].size < size
    decreases |classes| - i
  {
    if i == |classes| then 0
    else if size <= classes[i].size then i
    else ClassFrom(classes, size, i + 1)
  }

  /** slabs_clsid: the least class that fits, 0 when the size is 0 or nothing fits. */
  function ClsId(classes: seq<SlabClass>, size: nat): nat {
    if size == 0 || |classes| < 1 then 0 else ClassFrom(classes, size, 1)
  }

  method SlabsClsId(classes: seq<SlabClass>, size: nat) returns (res: nat)
    requires |classes| >= 2
    ensures res == ClsId(classes, size)
    ensures res == 0 <==> size == 0 || forall k :: 1 <= k < |classes| ==> classes[k].size < size
    ensures res != 0 ==> 1 <= res < |classes| && size <= classes[res].size
                         && forall k :: 1 <= k < res ==> classes[k].size < size
  {
    if size == 0 { return 0; }
    res := 1;
    while size > classes[res].size
      invariant 1 <= res < |classes|
      invariant ClassFrom(classes, size, 1) == ClassFrom(classes, size, res)
      decreases |classes| - res
    {
      if res == |classes| - 1 { return 0; }
      res := res + 1;
    }
  }
}
