/**
  The Mini-OS page allocator: free lists of power-of-two chunks, one list per
  level, kept beside the allocation bitmap, with a chunk header at the first page
  of every free chunk.  Pages are numbered; the linked lists are sequences, most
  recently freed chunk first.
 */
module BuddyAllocator {
  import opened Sets
  import opened Lists
  import opened Chunks
  import opened Bitmap

  // Levels a chunk may have: pointer width minus page shift.
  const FREELIST_SIZE: nat := 52

  type FreeLists = ls: seq<seq<nat>> | |ls| == FREELIST_SIZE witness seq(FREELIST_SIZE, _ => [])

  // ----- free lists as sets of chunks

  ghost predicate Listed(lists: FreeLists, c: Chunk) {
    c.level < FREELIST_SIZE && c.start in lists[c.level]
  }

  ghost function ChunkSet(lists: FreeLists): set<Chunk> {
    set l: nat, s: nat | l < FREELIST_SIZE && s in lists[l] :: Chunk(s, l)
  }

  lemma InChunkSet(lists: FreeLists, c: Chunk)
    ensures c in ChunkSet(lists) <==> Listed(lists, c)
  {
    if Listed(lists, c) {
      assert c == Chunk(c.start, c.level);
    }
  }

  function Link(lists: FreeLists, c: Chunk): FreeLists
    requires c.level < FREELIST_SIZE
  {
    lists[c.level := [c.start] + lists[c.level]]
  }

  function Unlink(lists: FreeLists, c: Chunk): FreeLists
    requires c.level < FREELIST_SIZE
  {
    lists[c.level := Minus(lists[c.level], c.start)]
  }

  ghost predicate ListsDistinct(lists: FreeLists) {
    forall l :: 0 <= l < FREELIST_SIZE ==> NoDup(lists[l])
  }

  lemma LinkSet(lists: FreeLists, c: Chunk)
    requires c.level < FREELIST_SIZE && ListsDistinct(lists) && c !in ChunkSet(lists)
    ensures ChunkSet(Link(lists, c)) == ChunkSet(lists) + {c}
    ensures ListsDistinct(Link(lists, c))
  {
    InChunkSet(lists, c);
    forall d ensures d in ChunkSet(Link(lists, c)) <==> d in ChunkSet(lists) + {c} {
      InChunkSet(lists, d);
      InChunkSet(Link(lists, c), d);
    }
  }

  lemma UnlinkSet(lists: FreeLists, c: Chunk)
    requires c.level < FREELIST_SIZE && ListsDistinct(lists)
    ensures ChunkSet(Unlink(lists, c)) == ChunkSet(lists) - {c}
    ensures ListsDistinct(Unlink(lists, c))
  {
    MinusMembers(lists[c.level], c.start);
    MinusNoDup(lists[c.level], c.start);
    forall d ensures d in ChunkSet(Unlink(lists, c)) <==> d in ChunkSet(lists) - {c} {
      InChunkSet(lists, d);
      InChunkSet(Unlink(lists, c), d);
    }
  }

  // A header holds the level of the chunk it heads.
  ghost predicate HeadersTrue(cs: set<Chunk>, header: map<nat, nat>) {
    forall c :: c in cs ==> c.start in header && header[c.start] == c.level
  }

  // Everything the allocator keeps between calls: distinct lists whose chunks are
  // aligned, disjoint, exactly the free pages, and with no two free buddies.
  ghost predicate Consistent(lists: FreeLists, header: map<nat, nat>, free: set<nat>) {
    && ListsDistinct(lists)
    && Partition(ChunkSet(lists), free)
    && Canonical(ChunkSet(lists))
    && HeadersTrue(ChunkSet(lists), header)
  }

  // The same while one aligned block of free pages is held off the lists.
  ghost predicate Holding(lists: FreeLists, header: map<nat, nat>, free: set<nat>, held: Chunk) {
    && held.Aligned() && PagesOf(held) <= free
    && Consistent(lists, header, free - PagesOf(held))
  }

  lemma TakeHead(lists: FreeLists, header: map<nat, nat>, free: set<nat>, c: Chunk)
    requires Consistent(lists, header, free)
    requires c.level < FREELIST_SIZE && lists[c.level] != [] && c.start == lists[c.level][0]
    ensures Unlink(lists, c) == lists[c.level := lists[c.level][1..]]
    ensures Holding(Unlink(lists, c), header, free, c)
  {
    InChunkSet(lists, c);
    UnlinkSet(lists, c);
    MinusHead(lists[c.level]);
    TakeOut(ChunkSet(lists), free, c);
    assert c.Aligned() && Within(c, free);
  }

  // Linking an aligned block that has no free buddy.
  lemma LinkBlock(lists: FreeLists, header: map<nat, nat>, free: set<nat>, c: Chunk)
    requires Consistent(lists, header, free)
    requires c.level < FREELIST_SIZE && c.Aligned() && free !! PagesOf(c)
    requires c.Buddy() !in ChunkSet(lists)
    ensures Consistent(Link(lists, c), header[c.start := c.level], free + PagesOf(c))
  {
    var cs := ChunkSet(lists);
    PutIn(cs, free, c);
    LinkSet(lists, c);
    forall d | d in cs
      ensures d.Buddy() != c
      ensures d.start != c.start
    {
      BuddyFacts(d);
      assert c.Has(c.start);
      assert d.Has(d.start);
    }
    BuddyFacts(c);
  }

  // Splitting the held block: its upper half goes on a list, its lower half is held.
  lemma SplitHeld(lists: FreeLists, header: map<nat, nat>, free: set<nat>, held: Chunk)
    requires Holding(lists, header, free, held)
    requires 0 < held.level < FREELIST_SIZE
    ensures var spare := held.UpperHalf();
            Holding(Link(lists, spare), header[spare.start := spare.level], free, held.Lower())
  {
    var low, spare := held.Lower(), held.UpperHalf();
    Halves(held);
    HalvesPages(held);
    var rest := free - PagesOf(held);
    assert low.start in PagesOf(held) by { assert held.Has(low.start); }
    assert low !in ChunkSet(lists) by {
      assert low.Has(low.start);
    }
    LinkBlock(lists, header, rest, spare);
    assert rest + PagesOf(spare) == free - PagesOf(low);
  }

  // Merging the held block with its free buddy.
  lemma MergeHeld(lists: FreeLists, header: map<nat, nat>, free: set<nat>, held: Chunk)
    requires Holding(lists, header, free, held) && held.level < FREELIST_SIZE
    requires held.Buddy() in ChunkSet(lists)
    ensures Holding(Unlink(lists, held.Buddy()), header, free, held.Parent())
  {
    var b := held.Buddy();
    BuddyFacts(held);
    ParentPages(held);
    UnlinkSet(lists, b);
    TakeOut(ChunkSet(lists), free - PagesOf(held), b);
    assert PagesOf(b) <= free by {
      assert Within(b, free - PagesOf(held));
    }
    assert free - PagesOf(held) - PagesOf(b) == free - PagesOf(held.Parent());
  }

  // Reading the buddy's header decides whether the buddy is a free chunk of the
  // same size, and the header read belongs to a listed chunk.
  lemma HeaderDecides(lists: FreeLists, header: map<nat, nat>, free: set<nat>, held: Chunk)
    requires Holding(lists, header, free, held)
    ensures held.Buddy().start in free ==>
              && held.Buddy().start in header
              && Chunk(held.Buddy().start, header[held.Buddy().start]) in ChunkSet(lists)
              && header[held.Buddy().start] <= held.level
    ensures held.Buddy() in ChunkSet(lists) <==>
              held.Buddy().start in free && held.Buddy().start in header &&
              header[held.Buddy().start] == held.level
  {
    var b := held.Buddy();
    BuddyFacts(held);
    assert b.Has(b.start);
    assert !held.Has(b.start);
    if b.start in free {
      var d := BuddyPageIsHeader(ChunkSet(lists), free - PagesOf(held), held);
      assert d == Chunk(d.start, d.level);
    }
  }

  // Whether a list at or above `order` is non-empty is whether an aligned free block exists.
  lemma BlockExists(lists: FreeLists, header: map<nat, nat>, free: set<nat>, order: nat)
    requires Consistent(lists, header, free)
    ensures (exists l :: order <= l < FREELIST_SIZE && lists[l] != []) <==>
            (exists b: Chunk :: b.level == order && b.Aligned() && Within(b, free))
  {
    if l :| order <= l < FREELIST_SIZE && lists[l] != [] {
      var c := Chunk(lists[l][0], l);
      InChunkSet(lists, c);
      var b := FirstPart(c, order);
      assert Within(b, free) by {
        forall p | b.Has(p) ensures p in free { assert c.Has(p); }
      }
    }
    if b: Chunk :| b.level == order && b.Aligned() && Within(b, free) {
      var c := FreeBlockInsideChunk(ChunkSet(lists), free, b);
      InChunkSet(lists, c);
    }
  }

  lemma {:induction false} FirstPart(c: Chunk, order: nat) returns (b: Chunk)
    requires c.Aligned() && order <= c.level
    ensures b.level == order && b.Aligned() && c.Contains(b) && b.start == c.start
    decreases c.level
  {
    b := c;
    if order < c.level {
      Halves(c);
      b := FirstPart(c.Lower(), order);
    }
  }

  // A chunk that ends within memory has a level for which there is a list.
  lemma LevelBound(c: Chunk, npages: nat)
    requires c.End() <= npages < Pow2(FREELIST_SIZE)
    ensures c.level < FREELIST_SIZE
  {
    if c.level >= FREELIST_SIZE {
      Pow2Mono(FREELIST_SIZE, c.level);
    }
  }

  // A smallest level at or above `order` with a non-empty list, if there is one.
  method FindLevel(lists: FreeLists, order: nat) returns (i: nat)
    requires order <= FREELIST_SIZE
    ensures order <= i <= FREELIST_SIZE
    ensures i < FREELIST_SIZE ==> lists[i] != []
    ensures forall l :: order <= l < i ==> lists[l] == []
  {
    i := order;
    while i < FREELIST_SIZE && lists[i] == []
      invariant order <= i <= FREELIST_SIZE
      invariant forall l :: order <= l < i ==> lists[l] == []
    {
      i := i + 1;
    }
  }

  ghost function FreePageSet(words: seq<bv64>, npages: nat): set<nat>
    requires npages / PAGES_PER_MAPWORD < |words|
  {
    set p: nat | p < npages && !Allocated(words, p)
  }

  lemma MarkedPages(was: seq<bv64>, now: seq<bv64>, npages: nat, b: Chunk)
    requires npages / PAGES_PER_MAPWORD < |was| && RunMarked(was, now, b.start, b.Size())
    ensures FreePageSet(now, npages) == FreePageSet(was, npages) - PagesOf(b)
    ensures Allocated(was, npages) ==> Allocated(now, npages)
  {
    forall p: nat | p < npages
      ensures p in FreePageSet(now, npages) <==> p in FreePageSet(was, npages) && p !in PagesOf(b)
    {
      assert p in PagesOf(b) <==> b.Has(p);
    }
  }

  lemma ClearedPages(was: seq<bv64>, now: seq<bv64>, npages: nat, b: Chunk)
    requires npages / PAGES_PER_MAPWORD < |was| && RunCleared(was, now, b.start, b.Size())
    requires b.End() <= npages
    ensures FreePageSet(now, npages) == FreePageSet(was, npages) + PagesOf(b)
    ensures Allocated(was, npages) ==> Allocated(now, npages)
  {
    forall p: nat | p < npages
      ensures p in FreePageSet(now, npages) <==> p in FreePageSet(was, npages) || p in PagesOf(b)
    {
      assert p in PagesOf(b) <==> b.Has(p);
    }
  }

  // A block of free pages lies within memory.
  lemma FreeBlockInside(words: seq<bv64>, npages: nat, b: Chunk)
    requires npages / PAGES_PER_MAPWORD < |words| && PagesOf(b) <= FreePageSet(words, npages)
    ensures b.End() <= npages
    ensures Within(b, FreePageSet(words, npages))
  {
    assert b.Has(b.End() - 1);
    assert b.End() - 1 in PagesOf(b);
  }

  // Below a bit that is set past the end, a clear bit is a free page.
  lemma FreeBit(words: seq<bv64>, npages: nat, p: nat)
    requires npages / PAGES_PER_MAPWORD < |words| && p <= npages && Allocated(words, npages)
    ensures !Allocated(words, p) <==> p in FreePageSet(words, npages)
  {
  }

  // Split the held chunk of level i until its lower part has level `order`.
  method Carve(lists0: FreeLists, header0: map<nat, nat>, start: nat, i0: nat, order: nat, ghost free: set<nat>)
    returns (lists: FreeLists, header: map<nat, nat>)
    requires order <= i0 < FREELIST_SIZE
    requires Holding(lists0, header0, free, Chunk(start, i0))
    ensures Holding(lists, header, free, Chunk(start, order))
  {
    var i := i0;
    lists, header := lists0, header0;
    while i != order
      invariant order <= i < FREELIST_SIZE
      invariant Holding(lists, header, free, Chunk(start, i))
      decreases i
    {
      ghost var held := Chunk(start, i);
      SplitHeld(lists, header, free, held);
      i := i - 1;
      var spare := Chunk(start + Pow2(i), i);
      assert spare == held.UpperHalf() && Chunk(start, i) == held.Lower();
      header := header[spare.start := i];
      lists := Link(lists, spare);
    }
  }

  // One round of merging: the two tests decide whether the buddy is a free chunk
  // of the same level, and if it is, the merged block is again within memory.
  lemma MergeRound(words: seq<bv64>, npages: nat, lists: FreeLists, header: map<nat, nat>, held: Chunk)
    requires npages < Pow2(FREELIST_SIZE) && npages / PAGES_PER_MAPWORD < |words|
    requires Allocated(words, npages) && held.level < FREELIST_SIZE
    requires Holding(lists, header, FreePageSet(words, npages), held)
    ensures held.Buddy().start <= npages
    ensures !Allocated(words, held.Buddy().start) ==>
              && held.Buddy().start in header
              && Chunk(held.Buddy().start, header[held.Buddy().start]) in ChunkSet(lists)
    ensures held.Buddy() in ChunkSet(lists) <==>
              !Allocated(words, held.Buddy().start) && header[held.Buddy().start] == held.level
    ensures held.Buddy() in ChunkSet(lists) ==>
              && held.Parent().level < FREELIST_SIZE
              && Holding(Unlink(lists, held.Buddy()), header, FreePageSet(words, npages), held.Parent())
  {
    var free := FreePageSet(words, npages);
    BuddyFacts(held);
    FreeBlockInside(words, npages, held);
    FreeBit(words, npages, held.Buddy().start);
    HeaderDecides(lists, header, free, held);
    if held.Buddy() in ChunkSet(lists) {
      MergeHeld(lists, header, free, held);
      FreeBlockInside(words, npages, held.Parent());
      LevelBound(held.Parent(), npages);
    }
  }

  // The address of the buddy, below or above, and of the two merged.
  method BuddyOf(start: nat, level: nat) returns (toMerge: nat, merged: nat)
    requires Chunk(start, level).Aligned()
    ensures Chunk(start, level).Buddy() == Chunk(toMerge, level) && Chunk(start, level).Parent() == Chunk(merged, level + 1)
  {
    var mask := Pow2(level);
    if start / mask % 2 == 1 {
      assert mask <= start by { BuddyUnits(Chunk(start, level)); }
      toMerge, merged := start - mask, start - mask;
    } else {
      toMerge, merged := start + mask, start;
    }
  }

  // Merge the held chunk with its buddy for as long as the bitmap says the buddy's
  // first page is free and the header there says the buddy is a chunk of equal level.
  method Coalesce(bits: array<bv64>, npages: nat, lists0: FreeLists, header: map<nat, nat>, page: nat, order: nat)
    returns (lists: FreeLists, start: nat, level: nat)
    requires npages < Pow2(FREELIST_SIZE) && npages / PAGES_PER_MAPWORD < bits.Length
    requires Allocated(bits[..], npages)
    requires Holding(lists0, header, FreePageSet(bits[..], npages), Chunk(page, order))
    ensures level < FREELIST_SIZE
    ensures Holding(lists, header, FreePageSet(bits[..], npages), Chunk(start, level))
    ensures Chunk(start, level).Buddy() !in ChunkSet(lists)
  {
    ghost var words := bits[..];
    lists, start, level := lists0, page, order;
    FreeBlockInside(words, npages, Chunk(start, level));
    LevelBound(Chunk(start, level), npages);
    while level < FREELIST_SIZE
      invariant level < FREELIST_SIZE
      invariant Holding(lists, header, FreePageSet(words, npages), Chunk(start, level))
      decreases FREELIST_SIZE - level
    {
      ghost var held := Chunk(start, level);
      MergeRound(words, npages, lists, header, held);
      var toMerge, merged := BuddyOf(start, level);
      if Allocated(bits[..], toMerge) || header[toMerge] != level {
        break;
      }
      lists := Unlink(lists, Chunk(toMerge, level));
      start, level := merged, level + 1;
    }
  }

  ghost function PageRange(lo: nat, hi: nat): set<nat> {
    set p: nat | p < hi && InRange(p, lo, hi)
  }

  ghost predicate InRange(p: nat, lo: nat, hi: nat) { lo <= p < hi }

  // The level of the next initial chunk: limited by the alignment of `min` and by
  // the pages that remain, and by nothing else.
  method InitialLevel(min: nat, range: nat) returns (i: nat)
    requires range > 0
    ensures Chunk(min, i).Aligned() && Pow2(i) <= range
    ensures Chunk(min, i).Upper() || range < Pow2(i + 1)
  {
    i := 0;
    while Pow2(i + 1) <= range
      invariant Chunk(min, i).Aligned() && Pow2(i) <= range
      decreases range - Pow2(i)
    {
      if min / Pow2(i) % 2 == 1 {
        break;
      }
      ParentAligned(Chunk(min, i));
      i := i + 1;
    }
  }

  // Every chunk that is the lower of its pair has a buddy reaching past the end.
  ghost predicate NoRoomForBuddies(cs: set<Chunk>, hi: nat) {
    forall c :: c in cs ==> c.Upper() || c.Buddy().End() > hi
  }

  // Adding the next initial chunk keeps the lists canonical.
  lemma InitialChunk(lists: FreeLists, header: map<nat, nat>, lo: nat, min: nat, hi: nat, i: nat)
    requires lo <= min < hi < Pow2(FREELIST_SIZE)
    requires Consistent(lists, header, PageRange(lo, min)) && NoRoomForBuddies(ChunkSet(lists), hi)
    requires Chunk(min, i).Aligned() && Pow2(i) <= hi - min
    requires Chunk(min, i).Upper() || hi - min < Pow2(i + 1)
    ensures i < FREELIST_SIZE
    ensures Consistent(Link(lists, Chunk(min, i)), header[min := i], PageRange(lo, min + Pow2(i)))
    ensures NoRoomForBuddies(ChunkSet(Link(lists, Chunk(min, i))), hi)
  {
    var c, cs := Chunk(min, i), ChunkSet(lists);
    var done := PageRange(lo, min);
    LevelBound(c, hi);
    ExtendRange(lo, c);
    BuddyBeyond(cs, done, lo, hi, c);
    LinkBlock(lists, header, done, c);
    PutIn(cs, done, c);
    LinkSet(lists, c);
    BuddyUnits(c);
  }

  lemma ExtendRange(lo: nat, c: Chunk)
    requires lo <= c.start
    ensures PageRange(lo, c.start) !! PagesOf(c)
    ensures PageRange(lo, c.start) + PagesOf(c) == PageRange(lo, c.End())
  {
  }

  // A chunk that ends within the range is no buddy of the chunks before it.
  lemma BuddyBeyond(cs: set<Chunk>, done: set<nat>, lo: nat, hi: nat, c: Chunk)
    requires lo <= c.start && done == PageRange(lo, c.start) && c.End() <= hi && c.Aligned()
    requires Partition(cs, done) && NoRoomForBuddies(cs, hi)
    ensures c.Buddy() !in cs
  {
    var b := c.Buddy();
    BuddyFacts(c);
    BuddyUnits(b);
    assert b.Has(b.start);
  }

  lemma EmptyLists(lists: FreeLists, header: map<nat, nat>, lo: nat)
    requires forall l :: 0 <= l < FREELIST_SIZE ==> lists[l] == []
    ensures ChunkSet(lists) == {}
    ensures Consistent(lists, header, PageRange(lo, lo))
  {
    assert PageRange(lo, lo) == {};
  }

  // The initial free lists: aligned chunks from the low end upwards.
  method InitialLists(lo: nat, hi: nat) returns (lists: FreeLists, header: map<nat, nat>)
    requires lo <= hi < Pow2(FREELIST_SIZE)
    ensures Consistent(lists, header, PageRange(lo, hi))
  {
    lists := seq(FREELIST_SIZE, _ => []);
    header := map[];
    EmptyLists(lists, header, lo);
    var min, range := lo, hi - lo;
    while range != 0
      invariant lo <= min <= hi && range == hi - min
      invariant Consistent(lists, header, PageRange(lo, min))
      invariant NoRoomForBuddies(ChunkSet(lists), hi)
      decreases range
    {
      var i := InitialLevel(min, range);
      InitialChunk(lists, header, lo, min, hi, i);
      lists := Link(lists, Chunk(min, i));
      header := header[min := i];
      min, range := min + Pow2(i), range - Pow2(i);
    }
  }

  // A bitmap of ones with the pages [first, hi) cleared has exactly those pages free.
  lemma InitialBitmap(before: seq<bv64>, now: seq<bv64>, ones: bv64, first: nat, hi: nat)
    requires hi / PAGES_PER_MAPWORD < |before| && first <= hi && View(ones) == From(0)
    requires forall i :: 0 <= i < |before| ==> before[i] == ones
    requires RunCleared(before, now, first, hi - first)
    ensures FreePageSet(now, hi) == PageRange(first, hi)
    ensures Allocated(now, hi)
  {
    forall p: nat | p <= hi ensures Allocated(now, p) <==> !InRange(p, first, hi) {
      assert View(before[p / PAGES_PER_MAPWORD]) == From(0);
      assert Allocated(before, p);
    }
  }

  // Size in pages of the bitmap for `npages` pages of 4096 bytes:
  // round_pgup((max + 1) >> (PAGE_SHIFT + 3)) bytes.
  function BitmapPages(npages: nat): nat {
    var bytes := (npages * 4096 + 1) / 32768;
    (bytes + 4095) / 4096
  }

  function BitmapWords(npages: nat): nat { BitmapPages(npages) * 512 }

  // The word holding the bit past the last page exists exactly when the number of
  // pages is at least eight past a multiple of 32768 (128 MiB).
  lemma BitmapReach(npages: nat)
    ensures npages / PAGES_PER_MAPWORD < BitmapWords(npages) <==> npages % 32768 >= 8
  {
    var q, r := npages / 32768, npages % 32768;
    assert npages == 32768 * q + r;
    assert (npages * 4096 + 1) / 32768 == 4096 * q + r / 8;
    if r >= 8 {
      assert BitmapPages(npages) == q + 1;
    } else {
      assert BitmapPages(npages) == q;
    }
  }

  // The initial bitmap: all allocated, then the pages given to the allocator freed.
  method InitialBits(first: nat, max: nat) returns (bits: array<bv64>)
    requires first <= max && max % 32768 >= 8
    ensures fresh(bits) && max / PAGES_PER_MAPWORD < bits.Length
    ensures FreePageSet(bits[..], max) == PageRange(first, max)
    ensures Allocated(bits[..], max)
  {
    var ones, _ := Constants();
    bits := new bv64[BitmapWords(max)](_ => ones);
    BitmapReach(max);
    ghost var before := bits[..];
    MapFree(bits, first, max - first);
    InitialBitmap(before, bits[..], ones, first, max);
  }

  class PageAllocator {
    var lists: FreeLists
    var header: map<nat, nat>
    const bits: array<bv64>
    const npages: nat

    // Memory fits the level lists, and the bitmap has a bit past the last page.
    ghost predicate Sized() {
      npages < Pow2(FREELIST_SIZE) && npages / PAGES_PER_MAPWORD < bits.Length
    }

    ghost function Free(): set<nat>
      requires Sized()
      reads bits
    {
      FreePageSet(bits[..], npages)
    }

    ghost predicate Valid()
      reads this, bits
    {
      && Sized()
      && Allocated(bits[..], npages)
      && Consistent(lists, header, Free())
    }

    // `min` and `max` in pages; the bitmap occupies the first pages of the range.
    constructor (min: nat, max: nat)
      requires max < Pow2(FREELIST_SIZE) && max % 32768 >= 8
      requires min + BitmapPages(max) <= max
      ensures Valid() && fresh(bits) && npages == max
      ensures Free() == PageRange(min + BitmapPages(max), max)
    {
      npages := max;
      var first := min + BitmapPages(max);
      var words := InitialBits(first, max);
      bits := words;
      var ls, hd := InitialLists(first, max);
      lists, header := ls, hd;
    }

    method AllocPages(order: nat) returns (page: Option<nat>)
      requires Valid() && order <= FREELIST_SIZE
      modifies this, bits
      ensures Valid()
      ensures page.None? <==> !exists b: Chunk :: b.level == order && b.Aligned() && Within(b, old(Free()))
      ensures page.None? ==> Free() == old(Free()) && lists == old(lists) && header == old(header)
      ensures page.Some? ==>
                var b := Chunk(page.value, order);
                b.Aligned() && Within(b, old(Free())) && Free() == old(Free()) - PagesOf(b)
    {
      ghost var free := Free();
      var i := FindLevel(lists, order);
      BlockExists(lists, header, free, order);
      if i == FREELIST_SIZE {
        return None;
      }
      var start := lists[i][0];
      TakeHead(lists, header, free, Chunk(start, i));
      lists := lists[i := lists[i][1..]];
      lists, header := Carve(lists, header, start, i, order, free);
      FreeBlockInside(bits[..], npages, Chunk(start, order));
      ghost var words := bits[..];
      MapAlloc(bits, start, Pow2(order));
      MarkedPages(words, bits[..], npages, Chunk(start, order));
      return Some(start);
    }

    method FreePages(page: nat, order: nat)
      requires Valid()
      requires Chunk(page, order).Aligned() && Chunk(page, order).End() <= npages
      requires PagesOf(Chunk(page, order)) !! Free()
      modifies this, bits
      ensures Valid()
      ensures Free() == old(Free()) + PagesOf(Chunk(page, order))
    {
      ghost var block, words := Chunk(page, order), bits[..];
      MapFree(bits, page, Pow2(order));
      ClearedPages(words, bits[..], npages, block);
      ghost var free := Free();
      assert free - PagesOf(block) == old(Free());
      var start, level;
      lists, start, level := Coalesce(bits, npages, lists, header, page, order);
      LinkBlock(lists, header, free - PagesOf(Chunk(start, level)), Chunk(start, level));
      header := header[start := level];
      lists := Link(lists, Chunk(start, level));
      assert free - PagesOf(Chunk(start, level)) + PagesOf(Chunk(start, level)) == free;
    }

    // What the owner of an allocated page writes there may land on an old header.
    method UserWrite(page: nat, value: nat)
      requires Valid() && page < npages && page !in Free()
      modifies this`header
      ensures Valid() && header == old(header)[page := value]
    {
      forall c | c in ChunkSet(lists) ensures c.start != page {
        assert c.Has(c.start);
      }
      header := header[page := value];
    }

    // An allocation followed by the matching free restores the free chunks.
    method AllocThenFree(order: nat)
      requires Valid() && order <= FREELIST_SIZE
      modifies this, bits
      ensures Valid()
      ensures ChunkSet(lists) == old(ChunkSet(lists))
    {
      ghost var free, chunks := Free(), ChunkSet(lists);
      var page := AllocPages(order);
      if page.Some? {
        ghost var b := Chunk(page.value, order);
        assert PagesOf(b) <= free;
        FreeBlockInside(old(bits[..]), npages, b);
        FreePages(page.value, order);
        assert Free() == free;
        CanonicalUnique(chunks, ChunkSet(lists), free);
      }
    }
  }
}
