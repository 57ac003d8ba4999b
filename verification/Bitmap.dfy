/**
  The page-allocation bitmap of Mini-OS: one bit per page, sixty-four pages per
  word, bit set when the page is allocated.  Words are 64-bit vectors and the
  masks are the ones the allocator computes with shifts and negation.
 */
module Bitmap {

  const PAGES_PER_MAPWORD: nat := 64

  type Bits = s: seq<bool> | |s| == 64 witness seq(64, _ => false)

  // Bit k of a word.
  predicate Bit(w: bv64, k: nat)
    requires k < 64
  {
    BitAt(w, k as bv6)
  }

  predicate BitAt(w: bv64, k: bv6) { (w >> k) & 1 == 1 }

  function View(w: bv64): Bits {
    seq(64, k requires 0 <= k < 64 => Bit(w, k))
  }

  predicate Allocated(words: seq<bv64>, page: nat)
    requires page / PAGES_PER_MAPWORD < |words|
  {
    View(words[page / PAGES_PER_MAPWORD])[page % PAGES_PER_MAPWORD]
  }

  // Bit strings, the meaning of words.

  function From(n: nat): Bits { seq(64, k => n <= k) }

  function Below(n: nat): Bits { seq(64, k => k < n) }

  function Or(a: Bits, b: Bits): Bits { seq(64, k requires 0 <= k < 64 => a[k] || b[k]) }

  function And(a: Bits, b: Bits): Bits { seq(64, k requires 0 <= k < 64 => a[k] && b[k]) }

  // Machine arithmetic computes the bit strings above.

  lemma WordBits(a: bv64, b: bv64, k: bv6)
    ensures BitAt(a | b, k) <==> BitAt(a, k) || BitAt(b, k)
    ensures BitAt(a & b, k) <==> BitAt(a, k) && BitAt(b, k)
  {
  }

  // -(1UL << n) has the bits from n up, (1UL << n) - 1 those below n.
  lemma HighMaskBits(n: bv6, k: bv6)
    ensures BitAt(0 - (1 << n), k) <==> n <= k
  {
  }

  lemma LowMaskBits(n: bv6, k: bv6)
    ensures BitAt((1 << n) - 1, k) <==> k < n
  {
  }

  lemma OffsetOrder(n: bv6, k: bv6)
    ensures n <= k <==> n as nat <= k as nat
  {
  }

  lemma MaskBit(n: bv6, k: nat)
    requires k < 64
    ensures Bit(0 - (1 << n), k) <==> n as nat <= k
    ensures Bit((1 << n) - 1, k) <==> k < n as nat
  {
    HighMaskBits(n, k as bv6);
    LowMaskBits(n, k as bv6);
    OffsetOrder(n, k as bv6);
  }

  lemma MaskViews(n: bv6)
    ensures View(0 - (1 << n)) == From(n as nat)
    ensures View((1 << n) - 1) == Below(n as nat)
  {
    var high: bv64, low: bv64 := 0 - (1 << n), (1 << n) - 1;
    forall k: nat | k < 64
      ensures Bit(high, k) <==> n as nat <= k
      ensures Bit(low, k) <==> k < n as nat
    {
      MaskBit(n, k);
    }
  }

  // -(1UL << n) and (1UL << n) - 1.
  method Masks(n: nat) returns (high: bv64, low: bv64)
    requires n < PAGES_PER_MAPWORD
    ensures View(high) == From(n)
    ensures View(low) == Below(n)
  {
    var off := n as bv6;
    assert off as nat == n;
    high, low := 0 - (1 << off), (1 << off) - 1;
    MaskViews(off);
  }

  method OrWord(a: bv64, b: bv64) returns (r: bv64)
    ensures View(r) == Or(View(a), View(b))
  {
    r := a | b;
    forall k: nat | k < 64 ensures Bit(r, k) <==> Bit(a, k) || Bit(b, k) {
      WordBits(a, b, k as bv6);
    }
  }

  method AndWord(a: bv64, b: bv64) returns (r: bv64)
    ensures View(r) == And(View(a), View(b))
  {
    r := a & b;
    forall k: nat | k < 64 ensures Bit(r, k) <==> Bit(a, k) && Bit(b, k) {
      WordBits(a, b, k as bv6);
    }
  }

  method Constants() returns (ones: bv64, zero: bv64)
    ensures View(ones) == From(0)
    ensures View(zero) == Below(0)
  {
    ones, zero := 0xFFFF_FFFF_FFFF_FFFF, 0;
    forall k: nat | k < 64
      ensures Bit(ones, k) && !Bit(zero, k)
    {
    }
  }

  // Word i after the pages [first, first + n) have been marked, and after they have been cleared.

  function Mark(v: Bits, i: nat, first: nat, n: nat): Bits {
    seq(64, k requires 0 <= k < 64 => v[k] || first <= 64 * i + k < first + n)
  }

  function Clear(v: Bits, i: nat, first: nat, n: nat): Bits {
    seq(64, k requires 0 <= k < 64 => v[k] && !(first <= 64 * i + k < first + n))
  }

  lemma MarkCases(v: Bits, i: nat, first: nat, n: nat)
    ensures var lo, hi := first / 64, (first + n) / 64;
            var startOff, endOff := first % 64, (first + n) % 64;
            Mark(v, i, first, n) ==
            if i < lo || hi < i then v
            else if lo == hi then Or(v, And(Below(endOff), From(startOff)))
            else if i == lo then Or(v, From(startOff))
            else if i == hi then Or(v, Below(endOff))
            else From(0)
  {
  }

  lemma ClearCases(v: Bits, i: nat, first: nat, n: nat)
    ensures var lo, hi := first / 64, (first + n) / 64;
            var startOff, endOff := first % 64, (first + n) % 64;
            Clear(v, i, first, n) ==
            if i < lo || hi < i then v
            else if lo == hi then And(v, Or(From(endOff), Below(startOff)))
            else if i == lo then And(v, Below(startOff))
            else if i == hi then And(v, From(endOff))
            else Below(0)
  {
  }

  // The bitmap `now` is `was` with exactly the pages [first, first + n) marked, respectively cleared.

  ghost predicate RunMarked(was: seq<bv64>, now: seq<bv64>, first: nat, n: nat) {
    && |was| == |now|
    && forall p: nat :: p / PAGES_PER_MAPWORD < |now| ==>
         (Allocated(now, p) <==> first <= p < first + n || Allocated(was, p))
  }

  ghost predicate RunCleared(was: seq<bv64>, now: seq<bv64>, first: nat, n: nat) {
    && |was| == |now|
    && forall p: nat :: p / PAGES_PER_MAPWORD < |now| ==>
         (Allocated(now, p) <==> !(first <= p < first + n) && Allocated(was, p))
  }

  // Word by word: the words outside a run keep their bits, the words inside it are
  // wholly marked, and its first and last words are split at its two ends.
  lemma WordsMarked(was: seq<bv64>, now: seq<bv64>, first: nat, n: nat)
    requires |was| == |now| && (first + n) / 64 < |was|
    requires forall i :: 0 <= i < first / 64 || (first + n) / 64 < i < |now| ==> now[i] == was[i]
    requires forall i :: first / 64 < i < (first + n) / 64 ==> View(now[i]) == From(0)
    requires first / 64 == (first + n) / 64 ==>
               View(now[first / 64]) ==
               Or(View(was[first / 64]), And(Below((first + n) % 64), From(first % 64)))
    requires first / 64 < (first + n) / 64 ==>
               && View(now[first / 64]) == Or(View(was[first / 64]), From(first % 64))
               && View(now[(first + n) / 64]) == Or(View(was[(first + n) / 64]), Below((first + n) % 64))
    ensures RunMarked(was, now, first, n)
  {
    forall p: nat | p / PAGES_PER_MAPWORD < |now|
      ensures Allocated(now, p) <==> first <= p < first + n || Allocated(was, p)
    {
      var i := p / PAGES_PER_MAPWORD;
      MarkCases(View(was[i]), i, first, n);
      assert View(now[i]) == Mark(View(was[i]), i, first, n);
    }
  }

  lemma WordsCleared(was: seq<bv64>, now: seq<bv64>, first: nat, n: nat)
    requires |was| == |now| && (first + n) / 64 < |was|
    requires forall i :: 0 <= i < first / 64 || (first + n) / 64 < i < |now| ==> now[i] == was[i]
    requires forall i :: first / 64 < i < (first + n) / 64 ==> View(now[i]) == Below(0)
    requires first / 64 == (first + n) / 64 ==>
               View(now[first / 64]) ==
               And(View(was[first / 64]), Or(From((first + n) % 64), Below(first % 64)))
    requires first / 64 < (first + n) / 64 ==>
               && View(now[first / 64]) == And(View(was[first / 64]), Below(first % 64))
               && View(now[(first + n) / 64]) == And(View(was[(first + n) / 64]), From((first + n) % 64))
    ensures RunCleared(was, now, first, n)
  {
    forall p: nat | p / PAGES_PER_MAPWORD < |now|
      ensures Allocated(now, p) <==> !(first <= p < first + n) && Allocated(was, p)
    {
      var i := p / PAGES_PER_MAPWORD;
      ClearCases(View(was[i]), i, first, n);
      assert View(now[i]) == Clear(View(was[i]), i, first, n);
    }
  }

  method MapAlloc(bits: array<bv64>, first: nat, n: nat)
    requires (first + n) / PAGES_PER_MAPWORD < bits.Length
    modifies bits
    ensures RunMarked(old(bits[..]), bits[..], first, n)
  {
    ghost var was := bits[..];
    var start, end := first / PAGES_PER_MAPWORD, (first + n) / PAGES_PER_MAPWORD;
    var startHigh, _ := Masks(first % PAGES_PER_MAPWORD);
    var _, endLow := Masks((first + n) % PAGES_PER_MAPWORD);
    var curr := start;
    if curr == end {
      var run := AndWord(endLow, startHigh);
      bits[curr] := OrWord(bits[curr], run);
    } else {
      bits[curr] := OrWord(bits[curr], startHigh);
      curr := curr + 1;
      var ones, _ := Constants();
      ghost var front := bits[start];
      while curr < end
        invariant start < curr <= end
        invariant forall i :: 0 <= i < start ==> bits[i] == was[i]
        invariant bits[start] == front
        invariant forall i :: start < i < curr ==> bits[i] == ones
        invariant forall i :: curr <= i < bits.Length ==> bits[i] == was[i]
      {
        bits[curr] := ones;
        curr := curr + 1;
      }
      bits[curr] := OrWord(bits[curr], endLow);
    }
    WordsMarked(was, bits[..], first, n);
  }

  method MapFree(bits: array<bv64>, first: nat, n: nat)
    requires (first + n) / PAGES_PER_MAPWORD < bits.Length
    modifies bits
    ensures RunCleared(old(bits[..]), bits[..], first, n)
  {
    ghost var was := bits[..];
    var start, end := first / PAGES_PER_MAPWORD, (first + n) / PAGES_PER_MAPWORD;
    var _, startLow := Masks(first % PAGES_PER_MAPWORD);
    var endHigh, _ := Masks((first + n) % PAGES_PER_MAPWORD);
    var curr := start;
    if curr == end {
      var keep := OrWord(endHigh, startLow);
      bits[curr] := AndWord(bits[curr], keep);
    } else {
      bits[curr] := AndWord(bits[curr], startLow);
      curr := curr + 1;
      var _, zero := Constants();
      ghost var front := bits[start];
      while curr != end
        invariant start < curr <= end
        invariant forall i :: 0 <= i < start ==> bits[i] == was[i]
        invariant bits[start] == front
        invariant forall i :: start < i < curr ==> bits[i] == zero
        invariant forall i :: curr <= i < bits.Length ==> bits[i] == was[i]
        decreases end - curr
      {
        bits[curr] := zero;
        curr := curr + 1;
      }
      bits[curr] := AndWord(bits[curr], endHigh);
    }
    WordsCleared(was, bits[..], first, n);
  }
}
