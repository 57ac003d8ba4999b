/**
  Aligned power-of-two blocks of pages and the sets of them that a binary buddy
  allocator keeps: what makes such a set a partition of the free pages, what
  makes it canonical, and why the canonical one is unique.
 */
module Chunks {

  function Pow2(n: nat): (r: nat)
    ensures r > 0
  {
    if n == 0 then 1 else 2 * Pow2(n - 1)
  }

  datatype Chunk = Chunk(start: nat, level: nat) {
    function Size(): nat { Pow2(level) }

    function End(): nat { start + Size() }

    ghost predicate Aligned() { start % Size() == 0 }

    predicate Has(page: nat) { start <= page < End() }

    ghost predicate Contains(c: Chunk) { start <= c.start && c.End() <= End() }

    ghost predicate Disjoint(c: Chunk) { End() <= c.start || c.End() <= start }

    // The bit of the start that the chunk's own size selects.
    predicate Upper() { start / Size() % 2 == 1 }

    // The other half of the enclosing block of twice the size.
    function Buddy(): Chunk
    {
      if Upper() && Size() <= start then Chunk(start - Size(), level) else Chunk(start + Size(), level)
    }

    // The enclosing block of twice the size.
    ghost function Parent(): Chunk {
      Chunk(if Upper() && Size() <= start then start - Size() else start, level + 1)
    }

    function Lower(): Chunk
      requires level > 0
    {
      Chunk(start, level - 1)
    }

    function UpperHalf(): Chunk
      requires level > 0
    {
      Chunk(start + Pow2(level - 1), level - 1)
    }
  }

  // ----- geometry of aligned blocks

  lemma {:induction false} Pow2Split(a: nat, b: nat)
    ensures Pow2(a + b) == Pow2(a) * Pow2(b)
  {
    if b > 0 {
      Pow2Split(a, b - 1);
      assert Pow2(a + b) == 2 * Pow2(a + (b - 1));
    }
  }

  lemma {:induction false} Pow2Mono(a: nat, b: nat)
    requires a <= b
    ensures Pow2(a) <= Pow2(b)
    ensures a < b ==> 2 * Pow2(a) <= Pow2(b)
  {
    if a < b { Pow2Mono(a, b - 1); }
  }

  // Multiples of u: a block [x*u, (x+1)*u) and a run [m*u, n*u) either nest or miss.
  lemma UnitsNest(u: nat, x: nat, m: nat, n: nat)
    requires u > 0 && m <= n
    ensures x < m ==> (x + 1) * u <= m * u
    ensures m <= x < n ==> m * u <= x * u && (x + 1) * u <= n * u
    ensures n <= x ==> n * u <= x * u
  {
    if x < m { Scale(u, x + 1, m); }
    if m <= x { Scale(u, m, x); }
    if x < n { Scale(u, x + 1, n); }
    if n <= x { Scale(u, n, x); }
  }

  lemma Scale(u: nat, a: nat, b: nat)
    requires a <= b
    ensures a * u <= b * u
  {
    assert (b - a) * u >= 0;
    assert b * u == a * u + (b - a) * u;
  }

  lemma AlignedUnits(c: Chunk) returns (x: nat)
    requires c.Aligned()
    ensures c.start == x * c.Size() && c.End() == (x + 1) * c.Size()
    ensures x == c.start / c.Size()
  {
    x := c.start / c.Size();
  }

  // Two aligned blocks either nest or are disjoint.
  lemma NestOrMiss(a: Chunk, b: Chunk)
    requires a.Aligned() && b.Aligned() && a.level <= b.level
    ensures b.Contains(a) || a.Disjoint(b)
    ensures a.level == b.level ==> a == b || a.Disjoint(b)
  {
    var x := AlignedUnits(a);
    var y := AlignedUnits(b);
    var d := b.level - a.level;
    var u, w := a.Size(), Pow2(d);
    Pow2Split(a.level, d);
    assert b.Size() == u * w;
    assert y * (u * w) == (y * w) * u by { MulAssoc(y, w, u); }
    assert (y + 1) * (u * w) == ((y + 1) * w) * u by { MulAssoc(y + 1, w, u); }
    Scale(w, y, y + 1);
    UnitsNest(u, x, y * w, (y + 1) * w);
  }

  lemma MulAssoc(a: nat, b: nat, c: nat)
    ensures a * (c * b) == (a * b) * c
  {
  }

  // In units of its size, an aligned block's buddy and parent.
  lemma BuddyUnits(c: Chunk)
    requires c.Aligned()
    ensures c.Upper() ==> c.Size() <= c.start
    ensures c.Buddy().Aligned() && (c.Buddy().Upper() <==> !c.Upper())
    ensures c.Upper() ==> c.Buddy().End() == c.start
    ensures !c.Upper() ==> c.End() == c.Buddy().start
  {
    var u := c.Size();
    var x := AlignedUnits(c);
    if x % 2 == 1 {
      Scale(u, 1, x);
      assert (x - 1) * u == x * u - u;
      MultipleAligned(u, x - 1);
    } else {
      MultipleAligned(u, x + 1);
    }
  }

  lemma ParentAligned(c: Chunk)
    requires c.Aligned()
    ensures c.Parent().Aligned()
  {
    BuddyUnits(c);
    var u := c.Size();
    var x := AlignedUnits(c);
    ParentUnits(u, x);
    MultipleAligned(2 * u, x / 2);
  }

  lemma ParentUnits(u: nat, x: nat)
    ensures (x / 2) * (2 * u) == if x % 2 == 1 then x * u - u else x * u
  {
    var h := x / 2;
    assert h * (2 * u) == (2 * h) * u;
    if x % 2 == 1 {
      assert x * u == (2 * h + 1) * u == (2 * h) * u + u;
    }
  }

  lemma BuddyFacts(c: Chunk)
    requires c.Aligned()
    ensures c.Upper() ==> c.Size() <= c.start
    ensures c.Buddy().Aligned() && c.Buddy().Buddy() == c && c.Buddy() != c
    ensures c.Buddy().Disjoint(c)
    ensures c.Parent().Aligned() && c.Parent() == c.Buddy().Parent()
    ensures c.Parent().start == (if c.Upper() then c.Buddy().start else c.start)
    ensures c.Parent().End() == (if c.Upper() then c.End() else c.Buddy().End())
    ensures c.Upper() ==> c.Buddy().End() == c.start
    ensures !c.Upper() ==> c.End() == c.Buddy().start
  {
    BuddyUnits(c);
    BuddyUnits(c.Buddy());
    ParentAligned(c);
  }

  lemma MultipleAligned(u: nat, k: nat)
    requires u > 0
    ensures (k * u) % u == 0
    ensures (k * u) / u == k
  {
    DivUnique(k * u, u, k);
  }

  lemma DivUnique(n: nat, u: nat, k: nat)
    requires u > 0 && n == k * u
    ensures n / u == k && n % u == 0
  {
    var q, r := n / u, n % u;
    assert q * u + r == k * u;
    if q < k {
      Scale(u, q + 1, k);
      assert false;
    } else if q > k {
      Scale(u, k + 1, q);
      assert false;
    }
  }

  // The halves of an aligned block are aligned buddies that tile it.
  lemma Halves(c: Chunk)
    requires c.Aligned() && c.level > 0
    ensures c.Lower().Aligned() && c.UpperHalf().Aligned()
    ensures c.Lower().Buddy() == c.UpperHalf() && c.UpperHalf().Buddy() == c.Lower()
    ensures c.Lower().start == c.start && c.Lower().End() == c.UpperHalf().start
    ensures c.UpperHalf().End() == c.End()
  {
    var x := AlignedUnits(c);
    HalfUnits(c.start, Pow2(c.level - 1), x);
    BuddyUnits(c.Lower());
  }

  // An even number of half-size units.
  lemma HalfUnits(start: nat, u: nat, x: nat)
    requires u > 0 && start == x * (2 * u)
    ensures start % u == 0 && start / u % 2 == 0
  {
    assert start == (x * 2) * u by { MulAssoc(x, 2, u); }
    MultipleAligned(u, x * 2);
  }

  // ----- sets of chunks

  ghost predicate AllAligned(cs: set<Chunk>) {
    forall c :: c in cs ==> c.Aligned()
  }

  ghost predicate PairwiseDisjoint(cs: set<Chunk>) {
    forall c, d :: c in cs && d in cs && c != d ==> c.Disjoint(d)
  }

  ghost predicate Within(c: Chunk, pages: set<nat>) {
    forall p :: c.Has(p) ==> p in pages
  }

  ghost predicate Covered(cs: set<Chunk>, p: nat) {
    exists c :: c in cs && c.Has(p)
  }

  // The chunks are aligned, do not overlap, and hold exactly the given pages.
  ghost predicate Partition(cs: set<Chunk>, pages: set<nat>) {
    && AllAligned(cs)
    && PairwiseDisjoint(cs)
    && (forall c :: c in cs ==> Within(c, pages))
    && (forall p :: p in pages ==> Covered(cs, p))
  }

  // No two buddies are both present.
  ghost predicate Canonical(cs: set<Chunk>) {
    forall c :: c in cs ==> c.Buddy() !in cs
  }

  ghost function PagesOf(c: Chunk): set<nat> {
    set p: nat | p < c.End() && c.Has(p)
  }

  // In a canonical partition every wholly free aligned block lies inside one chunk.
  lemma {:induction false} FreeBlockInsideChunk(cs: set<Chunk>, free: set<nat>, b: Chunk) returns (c: Chunk)
    requires Partition(cs, free) && Canonical(cs)
    requires b.Aligned() && Within(b, free)
    ensures c in cs && c.level >= b.level && c.Contains(b)
    decreases b.level
  {
    if b.level == 0 {
      assert b.Has(b.start);
      assert Covered(cs, b.start);
      c :| c in cs && c.Has(b.start);
    } else {
      Halves(b);
      c := FreeBlockInsideChunk(cs, free, b.Lower());
      if c.level == b.level - 1 {
        NestOrMiss(b.Lower(), c);
        assert c == b.Lower();
        var d := FreeBlockInsideChunk(cs, free, b.UpperHalf());
        if d.level == b.level - 1 {
          NestOrMiss(b.UpperHalf(), d);
          assert false;
        }
        NestOrMiss(c, d);
        NestOrMiss(b, d);
        assert d.Has(b.UpperHalf().start);
        c := d;
      } else {
        NestOrMiss(b, c);
        assert c.Has(b.start);
      }
    }
  }

  // An aligned wholly free block that no larger aligned wholly free block encloses.
  ghost predicate MaximalFree(c: Chunk, free: set<nat>) {
    c.Aligned() && Within(c, free) && !Within(c.Parent(), free)
  }

  // A canonical partition consists of exactly the maximal aligned free blocks.
  lemma CanonicalIsMaximal(cs: set<Chunk>, free: set<nat>, c: Chunk)
    requires Partition(cs, free) && Canonical(cs)
    ensures c in cs <==> MaximalFree(c, free)
  {
    if c in cs && Within(c.Parent(), free) {
      BuddyFacts(c);
      var d := FreeBlockInsideChunk(cs, free, c.Parent());
      assert false;
    }
    if MaximalFree(c, free) && c !in cs {
      var d := FreeBlockInsideChunk(cs, free, c);
      if d.level == c.level {
        NestOrMiss(c, d);
        assert false;
      } else {
        BuddyFacts(c);
        Pow2Mono(c.level, d.level);
        NestOrMiss(c.Parent(), d);
        assert false;
      }
    }
  }

  // Hence the free pages determine the chunks.
  lemma CanonicalUnique(cs: set<Chunk>, ds: set<Chunk>, free: set<nat>)
    requires Partition(cs, free) && Canonical(cs)
    requires Partition(ds, free) && Canonical(ds)
    ensures cs == ds
  {
    forall c ensures c in cs <==> c in ds {
      CanonicalIsMaximal(cs, free, c);
      CanonicalIsMaximal(ds, free, c);
    }
  }

  // Taking a chunk out, and putting a disjoint aligned one in.

  lemma TakeOut(cs: set<Chunk>, free: set<nat>, c: Chunk)
    requires Partition(cs, free) && c in cs
    ensures Partition(cs - {c}, free - PagesOf(c))
  {
    var ds, left := cs - {c}, free - PagesOf(c);
    forall d | d in ds ensures Within(d, left) {
      assert d.Disjoint(c);
    }
    forall p | p in left ensures Covered(ds, p) {
      var d :| d in cs && d.Has(p);
      assert d in ds;
    }
  }

  lemma PutIn(cs: set<Chunk>, free: set<nat>, c: Chunk)
    requires Partition(cs, free) && c.Aligned() && free !! PagesOf(c)
    ensures Partition(cs + {c}, free + PagesOf(c))
    ensures c !in cs
  {
    var ds, all := cs + {c}, free + PagesOf(c);
    forall d | d in cs ensures d.Disjoint(c) && d != c {
      assert d.Has(c.start) ==> c.start in free;
      assert c.Has(d.start) ==> d.start in PagesOf(c);
      assert d.Has(d.start) && c.Has(c.start);
    }
    forall p | p in all ensures Covered(ds, p) {
      if p in free {
        var d :| d in cs && d.Has(p);
        assert d in ds;
      } else {
        assert c in ds && c.Has(p);
      }
    }
  }

  // A page of an aligned block b, taken by no chunk that overlaps c, starts a chunk
  // no larger than c when b is c's buddy: the header there is a real one.
  lemma BuddyPageIsHeader(cs: set<Chunk>, free: set<nat>, c: Chunk) returns (d: Chunk)
    requires Partition(cs, free) && c.Aligned() && free !! PagesOf(c)
    requires c.Buddy().start in free
    ensures d in cs && d.start == c.Buddy().start && d.level <= c.level
  {
    var b := c.Buddy();
    BuddyFacts(c);
    assert Covered(cs, b.start);
    d :| d in cs && d.Has(b.start);
    assert c.start in PagesOf(c);
    assert d.Has(c.start) ==> c.start in free;
    if d.level > c.level {
      Pow2Mono(c.level, d.level);
      NestOrMiss(c.Parent(), d);
      assert false;
    }
    NestOrMiss(d, b);
    assert b.Has(b.start);
  }

  // Merging two free buddies gives the parent block.
  lemma ParentPages(c: Chunk)
    requires c.Aligned()
    ensures PagesOf(c.Parent()) == PagesOf(c) + PagesOf(c.Buddy())
    ensures PagesOf(c) !! PagesOf(c.Buddy())
  {
    BuddyFacts(c);
  }

  lemma HalvesPages(c: Chunk)
    requires c.Aligned() && c.level > 0
    ensures PagesOf(c) == PagesOf(c.Lower()) + PagesOf(c.UpperHalf())
    ensures PagesOf(c.Lower()) !! PagesOf(c.UpperHalf())
  {
    Halves(c);
  }
}
