/**
  What every step of the barrier protocol keeps.  The dispatch queue is ordered
  by the true generation of its requests although the protocol compares only
  one-bit colours; every phase of a running sequence has its proxy in exactly one
  place until it is done; and the requests held by the driver belong to the
  current phase.
 */
module BarrierInvariant {
  import opened Barrier

  function Parity(n: nat): bool { n % 2 == 1 }

  // Position in the only order in which requests may leave: by generation, and
  // within one generation fs requests, then the three proxies, then the barrier.
  function Rank(r: Request): nat {
    8 * r.gen + match r.kind
                case Fs => if r.barrier then 4 else 0
                case PreFlush => 1
                case Bar => 2
                case PostFlush => 3
  }

  predicate Ordinary(r: Request) { r.kind == Fs && !r.barrier }

  ghost predicate Before(a: Request, b: Request) {
    Rank(a) < Rank(b) || (Rank(a) == Rank(b) && Ordinary(a))
  }

  ghost predicate Sorted(h: seq<Request>) {
    forall i, j :: 0 <= i < j < |h| ==> Before(h[i], h[j])
  }

  ghost predicate HasBarrier(h: seq<Request>, g: nat) {
    exists r :: r in h && r.kind == Fs && r.barrier && r.gen == g
  }

  ghost predicate HasKind(s: seq<Request>, k: Kind) {
    exists r :: r in s && r.kind == k
  }

  // The first generation whose barrier has not yet been taken off the queue.
  function FirstGen(q: Queue): nat { if Sequencing(q) then q.epoch + 1 else q.epoch }

  // ----- shape of the requests

  ghost predicate HeadShape(q: Queue, r: Request) {
    && q.epoch <= r.gen
    && (r.kind == Fs ==>
          && r.gen <= q.epochs && r.color == Parity(r.gen)
          && (r.barrier ==> FirstGen(q) <= r.gen < q.epochs))
    && (r.kind != Fs ==>
          Sequencing(q) && r.gen == q.epoch && r.soft && r.barrier && r.id == q.orig.id)
  }

  ghost predicate SchedShape(q: Queue, r: Request) {
    Ordinary(r) && r.gen == q.epochs && r.color == Parity(r.gen) && !r.started
  }

  ghost predicate DriverShape(q: Queue, r: Request) {
    && r.started && r.gen == q.epoch
    && (r.kind == Fs ==> !r.barrier && r.color == Parity(r.gen))
    && (r.kind != Fs ==> Sequencing(q) && r.barrier && r.id == q.orig.id)
  }

  ghost predicate OrigShape(q: Queue) {
    && q.orig.kind == Fs && q.orig.barrier && q.orig.gen == q.epoch < q.epochs
    && q.orig.color == Parity(q.epoch)
  }

  ghost predicate ShapeInv(q: Queue) {
    && (forall r :: r in q.head ==> HeadShape(q, r))
    && (forall r :: r in q.sched ==> SchedShape(q, r))
    && (forall r :: r in q.driver ==> DriverShape(q, r))
    && q.ordcolor == Parity(q.epochs) && q.epoch <= q.epochs
    && (Sequencing(q) ==> STARTED in q.ordseq && OrigShape(q))
  }

  ghost predicate OrderInv(q: Queue) {
    && Sorted(q.head)
    && forall g :: FirstGen(q) <= g < q.epochs ==> HasBarrier(q.head, g)
  }

  // ----- phases of a running sequence

  // A proxy whose phase is open is in exactly one place; one whose phase is done is gone.
  ghost predicate ProxyPlace(q: Queue, k: Kind) {
    if PhaseOf(k) in q.ordseq then !HasKind(q.head, k) && !HasKind(q.driver, k)
    else HasKind(q.head, k) != HasKind(q.driver, k)
  }

  ghost predicate PhaseInv(q: Queue) {
    && ProxyPlace(q, PreFlush) && ProxyPlace(q, Bar) && ProxyPlace(q, PostFlush)
    && CurSeq(q.ordseq) != DONE
    && (BAR in q.ordseq ==> DRAIN in q.ordseq)
    // the driver works on the current phase, and on one proxy at a time
    && (forall r :: r in q.driver ==> PhaseOf(r.kind) == CurSeq(q.ordseq))
    && (CurSeq(q.ordseq) != DRAIN ==> |q.driver| <= 1)
    // a request handed out and not yet dequeued belongs to the current phase
    && (forall r :: r in q.head && r.started ==>
          r.gen == q.epoch && PhaseOf(r.kind) == CurSeq(q.ordseq))
    // once drained, nothing of this generation is left before the proxies
    && (DRAIN in q.ordseq ==> forall r :: r in q.head && r.kind == Fs ==> r.gen > q.epoch)
    // while draining, there is something to drain
    && (DRAIN !in q.ordseq ==>
          q.inFlight > 0 || (q.head != [] && q.head[0].kind == Fs && q.head[0].gen == q.epoch))
  }

  ghost predicate IdleInv(q: Queue) {
    forall r :: r in q.head && r.started ==> Ordinary(r) && r.gen == q.epoch
  }

  function CountAccounted(s: seq<Request>): nat {
    if s == [] then 0 else (if Accounted(s[0]) then 1 else 0) + CountAccounted(s[1..])
  }

  ghost predicate ProtocolInv(q: Queue) {
    && ShapeInv(q)
    && OrderInv(q)
    && (if Sequencing(q) then PhaseInv(q) else IdleInv(q))
    && q.inFlight == CountAccounted(q.driver)
  }

  // ----- list facts

  lemma InsertMembers(h: seq<Request>, k: nat, x: Request)
    requires k <= |h|
    ensures forall r :: r in InsertAt(h, k, x) <==> r in h || r == x
  {
    var s := InsertAt(h, k, x);
    assert h == h[..k] + h[k..];
    assert forall r :: r in h <==> r in h[..k] || r in h[k..];
  }

  lemma FirstIn(s: seq<Request>)
    ensures s == [] || s[0] in s
  {
  }

  lemma RemoveMembers(h: seq<Request>, i: nat)
    requires i < |h|
    ensures forall r :: r in RemoveAt(h, i) ==> r in h
    ensures forall r :: r in h ==> r in RemoveAt(h, i) || r == h[i]
  {
    assert h == h[..i] + [h[i]] + h[i + 1..];
  }

  lemma SortedInsert(h: seq<Request>, k: nat, x: Request)
    requires Sorted(h) && k <= |h|
    requires forall i :: 0 <= i < k ==> Before(h[i], x)
    requires forall i :: k <= i < |h| ==> Before(x, h[i])
    ensures Sorted(InsertAt(h, k, x))
  {
    var s := InsertAt(h, k, x);
    forall i, j | 0 <= i < j < |s| ensures Before(s[i], s[j]) {
      var i', j' := if i < k then i else i - 1, if j < k then j else j - 1;
      assert i != k ==> s[i] == h[i'];
      assert j != k ==> s[j] == h[j'];
    }
  }

  lemma SortedRemove(h: seq<Request>, i: nat)
    requires Sorted(h) && i < |h|
    ensures Sorted(RemoveAt(h, i))
  {
    var s := RemoveAt(h, i);
    forall a, b | 0 <= a < b < |s| ensures Before(s[a], s[b]) {
      assert s[a] == h[if a < i then a else a + 1];
      assert s[b] == h[if b < i then b else b + 1];
    }
  }

  // In a sorted queue a request that is not ordinary occurs only once.
  lemma RemoveUnique(h: seq<Request>, i: nat)
    requires Sorted(h) && i < |h| && !Ordinary(h[i])
    ensures forall r :: r in RemoveAt(h, i) ==> Rank(r) != Rank(h[i])
  {
    var s := RemoveAt(h, i);
    forall r | r in s ensures Rank(r) != Rank(h[i]) {
      var a :| 0 <= a < |s| && s[a] == r;
      var b := if a < i then a else a + 1;
      assert s[a] == h[b];
      assert Before(h[b], h[i]) || Before(h[i], h[b]);
    }
  }

  lemma {:induction false} CountRemove(s: seq<Request>, i: nat)
    requires i < |s|
    ensures CountAccounted(s) ==
            CountAccounted(RemoveAt(s, i)) + if Accounted(s[i]) then 1 else 0
  {
    if i == 0 {
      assert RemoveAt(s, 0) == s[1..];
    } else {
      CountRemove(s[1..], i - 1);
      assert RemoveAt(s, i) == [s[0]] + RemoveAt(s[1..], i - 1);
    }
  }

  lemma {:induction false} CountAppend(s: seq<Request>, r: Request)
    ensures CountAccounted(s + [r]) == CountAccounted(s) + if Accounted(r) then 1 else 0
  {
    if s == [] {
      assert s + [r] == [r];
    } else {
      CountAppend(s[1..], r);
      assert (s + [r])[1..] == s[1..] + [r];
    }
  }

  lemma {:induction false} CountZero(s: seq<Request>)
    requires CountAccounted(s) == 0
    ensures forall r :: r in s ==> !Accounted(r)
  {
    if s != [] {
      CountZero(s[1..]);
    }
  }

  // ----- the head of the queue

  // The head of the queue never belongs to a generation past the first one whose
  // barrier is still queued, so its colour tells its generation.
  lemma HeadGeneration(q: Queue)
    requires ShapeInv(q) && OrderInv(q) && q.head != []
    ensures q.head[0].gen <= FirstGen(q)
  {
    assert HeadShape(q, q.head[0]);
    if FirstGen(q) < q.epochs {
      assert HasBarrier(q.head, FirstGen(q));
      var b :| b in q.head && b.kind == Fs && b.barrier && b.gen == FirstGen(q);
      var i :| 0 <= i < |q.head| && q.head[i] == b;
      if i > 0 {
        assert Before(q.head[0], q.head[i]);
      }
    }
  }

  lemma HeadColour(q: Queue)
    requires ShapeInv(q) && OrderInv(q) && Sequencing(q) && q.head != []
    ensures ReqSeq(q, q.head[0]) == DRAIN <==> q.head[0].kind == Fs && q.head[0].gen == q.epoch
    ensures ReqSeq(q, q.head[0]) == DONE <==> q.head[0].kind == Fs && q.head[0].gen > q.epoch
  {
    HeadGeneration(q);
    assert HeadShape(q, q.head[0]);
    assert Parity(q.epoch) != Parity(q.epoch + 1);
  }

  // ----- each step keeps the invariant

  lemma AddSortedKeeps(q: Queue, sector: nat)
    requires ProtocolInv(q)
    ensures ProtocolInv(AddSorted(q, sector))
  {
    var q' := AddSorted(q, sector);
    assert forall r :: r in q.head ==> HeadShape(q, r) ==> HeadShape(q', r);
    assert forall r :: r in q.driver ==> DriverShape(q, r) ==> DriverShape(q', r);
    assert forall r :: r in q.sched ==> SchedShape(q, r) ==> SchedShape(q', r);
    assert SchedShape(q', NewRequest(q, false, false, false, sector));
  }

  lemma AddBackKeeps(q: Queue, barrier: bool, empty: bool, sector: nat)
    requires ProtocolInv(q) && q.sched == []
    ensures ProtocolInv(AddBack(q, barrier, empty, sector))
  {
    var q', x := AddBack(q, barrier, empty, sector), NewRequest(q, barrier, empty, true, sector);
    assert q'.head == InsertAt(q.head, |q.head|, x);
    InsertMembers(q.head, |q.head|, x);
    assert HeadShape(q', x);
    forall r | r in q.head ensures HeadShape(q', r) && Before(r, x) {
      assert HeadShape(q, r);
    }
    forall r | r in q.driver ensures DriverShape(q', r) {
      assert DriverShape(q, r);
    }
    SortedInsert(q.head, |q.head|, x);
    forall g | FirstGen(q') <= g < q'.epochs ensures HasBarrier(q'.head, g) {
      if g < q.epochs { assert HasBarrier(q.head, g); }
    }
    KindsInsert(q.head, |q.head|, x);
  }

  lemma KindsInsert(h: seq<Request>, k: nat, x: Request)
    requires k <= |h|
    ensures forall kind :: HasKind(InsertAt(h, k, x), kind) <==> HasKind(h, kind) || x.kind == kind
  {
    InsertMembers(h, k, x);
  }

  // The shapes depend only on the sequence and the two generation counts.
  ghost predicate SameFrame(q: Queue, q': Queue) {
    q.epoch == q'.epoch && q.epochs == q'.epochs && q.ordseq == q'.ordseq && q.orig == q'.orig
  }

  lemma ShapesKept(q: Queue, q': Queue)
    requires SameFrame(q, q')
    ensures forall r :: HeadShape(q, r) <==> HeadShape(q', r)
    ensures forall r :: DriverShape(q, r) <==> DriverShape(q', r)
    ensures forall r :: SchedShape(q, r) <==> SchedShape(q', r)
  {
  }

  // A request of an older generation, or a proxy, is followed by a fixed one or is one.
  lemma FixedFollows(q: Queue, j: nat) returns (m: nat)
    requires ProtocolInv(q) && j < |q.head|
    requires !(Ordinary(q.head[j]) && q.head[j].gen == q.epochs)
    ensures j <= m < |q.head| && Fixed(q.head[m])
  {
    var r := q.head[j];
    assert HeadShape(q, r);
    if Fixed(r) {
      m := j;
    } else {
      var b: Request;
      if FirstGen(q) <= r.gen {
        assert HasBarrier(q.head, r.gen);
        b :| b in q.head && b.kind == Fs && b.barrier && b.gen == r.gen;
      } else {
        assert DRAIN !in q.ordseq;
        assert !HasKind(q.driver, Bar);
        assert HasKind(q.head, Bar);
        b :| b in q.head && b.kind == Bar;
        assert HeadShape(q, b);
      }
      m :| 0 <= m < |q.head| && q.head[m] == b;
      assert m < j ==> Before(q.head[m], q.head[j]);
    }
  }

  lemma DispatchKeeps(q: Queue, i: nat, k: nat)
    requires ProtocolInv(q) && Enabled(q, DoDispatch(i, k))
    ensures ProtocolInv(Dispatch(q, i, k))
  {
    var q', x := Dispatch(q, i, k), q.sched[i];
    assert SchedShape(q, x);
    RemoveMembers(q.sched, i);
    InsertMembers(q.head, k, x);
    KindsInsert(q.head, k, x);
    ShapesKept(q, q');
    assert HeadShape(q', x);
    forall j | 0 <= j < k ensures Before(q.head[j], x) {
      assert HeadShape(q, q.head[j]);
    }
    forall j | k <= j < |q.head| ensures Before(x, q.head[j]) {
      if !(Ordinary(q.head[j]) && q.head[j].gen == q.epochs) {
        var m := FixedFollows(q, j);
      }
    }
    SortedInsert(q.head, k, x);
    BarriersKept(q.head, q'.head);
    if Sequencing(q) && DRAIN !in q.ordseq {
      assert !HasKind(q.driver, Bar);
      assert HasKind(q.head, Bar);
      assert k > 0 by {
        var b :| b in q.head && b.kind == Bar;
        assert HeadShape(q, b);
      }
    }
  }

  lemma BarriersKept(h: seq<Request>, h': seq<Request>)
    requires forall r :: r in h ==> r in h'
    ensures forall g :: HasBarrier(h, g) ==> HasBarrier(h', g)
  {
  }

  // What is handed out while a sequence runs belongs to the current phase: the
  // warning for a request whose turn is over cannot fire.
  lemma HandedIsCurrent(q: Queue)
    requires ProtocolInv(q) && Ready(q)
    ensures q.head[0].gen == q.epoch
    ensures Sequencing(q) ==> PhaseOf(q.head[0].kind) == CurSeq(q.ordseq) == ReqSeq(q, q.head[0])
    ensures !Sequencing(q) ==> Ordinary(q.head[0])
  {
    var r := q.head[0];
    assert HeadShape(q, r);
    HeadGeneration(q);
    if Sequencing(q) {
      HeadColour(q);
      assert r.kind != Fs ==> HasKind(q.head, r.kind);
    }
  }

  lemma MarkStarted(h: seq<Request>)
    requires h != []
    ensures var h' := [h[0].(started := true)] + h[1..];
            && (Sorted(h) ==> Sorted(h'))
            && (forall k :: HasKind(h, k) <==> HasKind(h', k))
            && (forall g :: HasBarrier(h, g) ==> HasBarrier(h', g))
  {
    var x := h[0].(started := true);
    var h' := [x] + h[1..];
    assert h == [h[0]] + h[1..];
    assert forall r :: r in h <==> r == h[0] || r in h[1..];
    assert x in h';
    if Sorted(h) {
      forall i, j | 0 <= i < j < |h'| ensures Before(h'[i], h'[j]) {
        assert Before(h[i], h[j]);
      }
    }
    forall g | HasBarrier(h, g) ensures HasBarrier(h', g) {
      var b :| b in h && b.kind == Fs && b.barrier && b.gen == g;
      assert b in h' || b == h[0];
    }
  }

  lemma HandOutKeeps(q: Queue)
    requires ProtocolInv(q) && Ready(q)
    ensures ProtocolInv(HandOut(q))
  {
    var q', r := HandOut(q), q.head[0];
    var r' := r.(started := true);
    HandedIsCurrent(q);
    MarkStarted(q.head);
    ShapesKept(q, q');
    assert HeadShape(q, r) && HeadShape(q, r');
    assert forall x :: x in q'.head ==> x in q.head || x == r';
    HandOutPhase(q);
  }

  lemma HandOutPhase(q: Queue)
    requires ProtocolInv(q) && Ready(q)
    ensures Sequencing(q) ==> PhaseInv(HandOut(q))
    ensures !Sequencing(q) ==> IdleInv(HandOut(q))
  {
    var q', r := HandOut(q), q.head[0];
    var r' := r.(started := true);
    HandedIsCurrent(q);
    MarkStarted(q.head);
    assert forall x :: x in q'.head ==> x in q.head || x == r';
  }

  // ----- starting, advancing and ending a sequence

  lemma SortedConcat(a: seq<Request>, b: seq<Request>)
    requires Sorted(a) && Sorted(b)
    requires forall x, y :: x in a && y in b ==> Before(x, y)
    ensures Sorted(a + b)
  {
    var s := a + b;
    forall i, j | 0 <= i < j < |s| ensures Before(s[i], s[j]) {
      assert i < |a| ==> s[i] == a[i] && a[i] in a;
      assert j >= |a| ==> s[j] == b[j - |a|] && b[j - |a|] in b;
      assert i >= |a| ==> s[i] == b[i - |a|];
    }
  }

  // Behind a barrier at the head, only later generations are queued.
  lemma BehindBarrier(q: Queue)
    requires ProtocolInv(q) && !Sequencing(q) && q.head != [] && q.head[0].barrier
    ensures q.head[0].kind == Fs && q.head[0].gen == q.epoch < q.epochs
    ensures forall r :: r in q.head[1..] ==> r.kind == Fs && r.gen > q.epoch && !r.started
    ensures Sorted(q.head[1..])
    ensures forall g :: q.epoch < g < q.epochs ==> HasBarrier(q.head[1..], g)
  {
    var b, rest := q.head[0], q.head[1..];
    assert HeadShape(q, b);
    HeadGeneration(q);
    assert rest == RemoveAt(q.head, 0);
    SortedRemove(q.head, 0);
    RemoveMembers(q.head, 0);
    forall r | r in rest ensures r.kind == Fs && r.gen > q.epoch && !r.started {
      var i := MemberIndex(rest, r);
      assert Before(q.head[0], q.head[i + 1]);
      assert HeadShape(q, r);
    }
    forall g | q.epoch < g < q.epochs ensures HasBarrier(rest, g) {
      BarrierBehind(q.head, g);
    }
  }

  lemma MemberIndex(s: seq<Request>, r: Request) returns (i: nat)
    requires r in s
    ensures i < |s| && s[i] == r
  {
    i :| i < |s| && s[i] == r;
  }

  lemma BarrierBehind(h: seq<Request>, g: nat)
    requires h != [] && HasBarrier(h, g) && h[0].gen != g
    ensures HasBarrier(h[1..], g)
  {
    assert h == [h[0]] + h[1..];
  }

  lemma ProxiesShape(orig: Request, mode: Mode)
    requires mode.Draining?
    ensures var p := Proxies(orig, mode);
            && Sorted(p)
            && (forall r :: r in p ==> r.kind != Fs && r.gen == orig.gen && r.id == orig.id &&
                                       r.soft && r.barrier && !r.started)
            && (HasKind(p, PreFlush) <==> mode.preflush)
            && HasKind(p, Bar)
            && (HasKind(p, PostFlush) <==> mode.postflush && !orig.empty)
  {
    var p := Proxies(orig, mode);
    assert BarProxy(orig) in p;
    assert mode.preflush ==> FlushProxy(orig, PreFlush) in p;
    assert mode.postflush && !orig.empty ==> FlushProxy(orig, PostFlush) in p;
  }

  lemma KindsConcat(a: seq<Request>, b: seq<Request>)
    requires forall r :: r in b ==> r.kind == Fs
    ensures forall k :: k != Fs ==> (HasKind(a + b, k) <==> HasKind(a, k))
  {
    forall k | k != Fs && HasKind(a, k) ensures HasKind(a + b, k) {
      var r :| r in a && r.kind == k;
      assert r in a + b;
    }
  }

  lemma StartShape(q: Queue)
    requires ProtocolInv(q) && !Sequencing(q)
    requires q.head != [] && q.head[0].barrier && q.nextOrdered.Draining?
    ensures ShapeInv(StartOrdered(q)) && OrderInv(StartOrdered(q))
  {
    var q', orig, rest := StartOrdered(q), q.head[0], q.head[1..];
    var p := Proxies(orig, q.nextOrdered);
    assert HeadShape(q, orig);
    BehindBarrier(q);
    ProxiesShape(orig, q.nextOrdered);
    SortedConcat(p, rest);
    forall r | r in q'.head ensures HeadShape(q', r) {
      assert r in p || r in rest;
      if r in rest { assert r in q.head && HeadShape(q, r); }
    }
    forall r | r in q.driver ensures DriverShape(q', r) {
      assert DriverShape(q, r);
    }
    forall g | FirstGen(q') <= g < q'.epochs ensures HasBarrier(q'.head, g) {
      assert HasBarrier(rest, g);
      var b :| b in rest && b.kind == Fs && b.barrier && b.gen == g;
      assert b in q'.head;
    }
  }

  // The bits set at the start are those of the phases that are skipped.
  lemma StartBits(orig: Request, mode: Mode, inFlight: nat)
    requires mode.Draining?
    ensures var bits := {STARTED} + Skipped(orig, mode, inFlight);
            && STARTED in bits && BAR !in bits
            && (DRAIN in bits <==> inFlight == 0)
            && (PREFLUSH in bits <==> !mode.preflush)
            && (POSTFLUSH in bits <==> !(mode.postflush && !orig.empty))
            && DRAIN <= CurSeq(bits) <= BAR
            && (CurSeq(bits) == DRAIN <==> inFlight != 0)
  {
  }

  lemma StartPlaces(q: Queue)
    requires ProtocolInv(q) && !Sequencing(q)
    requires q.head != [] && q.head[0].barrier && q.nextOrdered.Draining?
    ensures var q' := StartOrdered(q);
            ProxyPlace(q', PreFlush) && ProxyPlace(q', Bar) && ProxyPlace(q', PostFlush)
  {
    var q', orig, rest := StartOrdered(q), q.head[0], q.head[1..];
    BehindBarrier(q);
    ProxiesShape(orig, q.nextOrdered);
    KindsConcat(Proxies(orig, q.nextOrdered), rest);
    StartBits(orig, q.nextOrdered, q.inFlight);
    forall k | k != Fs ensures !HasKind(q'.driver, k) {
      assert forall r :: r in q.driver ==> DriverShape(q, r);
    }
  }

  // Nothing accounted at the driver means, between sequences, nothing at the driver.
  lemma IdleDriver(q: Queue)
    requires ShapeInv(q) && !Sequencing(q) && q.inFlight == CountAccounted(q.driver) == 0
    ensures q.driver == []
  {
    CountZero(q.driver);
    assert forall r :: r in q.driver ==> DriverShape(q, r);
    FirstIn(q.driver);
  }

  lemma StartPhase(q: Queue)
    requires ProtocolInv(q) && !Sequencing(q)
    requires q.head != [] && q.head[0].barrier && q.nextOrdered.Draining?
    ensures PhaseInv(StartOrdered(q))
  {
    var q', orig, rest := StartOrdered(q), q.head[0], q.head[1..];
    var p := Proxies(orig, q.nextOrdered);
    StartPlaces(q);
    BehindBarrier(q);
    ProxiesShape(orig, q.nextOrdered);
    StartBits(orig, q.nextOrdered, q.inFlight);
    forall r | r in q'.head ensures !r.started && (r.kind == Fs ==> r.gen > q.epoch) {
      assert r in p || r in rest;
    }
    forall r | r in q.driver ensures r.kind == Fs {
      assert DriverShape(q, r);
    }
    if q.inFlight == 0 { IdleDriver(q); }
  }

  lemma StartKeeps(q: Queue)
    requires ProtocolInv(q) && !Sequencing(q)
    requires q.head != [] && q.head[0].barrier && q.nextOrdered.Draining?
    ensures ProtocolInv(StartOrdered(q))
    ensures q.inFlight == 0 ==> Ready(StartOrdered(q))
  {
    StartShape(q);
    StartPhase(q);
  }

  // Ending the current phase, none of whose requests is left anywhere.
  ghost predicate PhaseEmpty(q: Queue, phase: nat) {
    && ShapeInv(q) && OrderInv(q) && Sequencing(q)
    && q.driver == [] && q.inFlight == 0
    && phase == CurSeq(q.ordseq) && DRAIN <= phase < DONE
    && (forall k :: k != Fs && (PhaseOf(k) in q.ordseq || PhaseOf(k) == phase) ==> !HasKind(q.head, k))
    && (forall k :: k != Fs && PhaseOf(k) !in q.ordseq && PhaseOf(k) != phase ==> HasKind(q.head, k))
    && (BAR in q.ordseq ==> DRAIN in q.ordseq)
    && (forall r :: r in q.head ==> !r.started)
    && (forall r :: r in q.head && r.kind == Fs ==> r.gen > q.epoch)
  }

  lemma CompleteSeqKeeps(q: Queue, phase: nat)
    requires PhaseEmpty(q, phase)
    ensures ProtocolInv(CompleteSeq(q, phase))
  {
    var q' := CompleteSeq(q, phase);
    if CurSeq(q.ordseq + {phase}) != DONE {
      assert forall r :: HeadShape(q, r) <==> HeadShape(q', r);
      assert forall r :: SchedShape(q, r) <==> SchedShape(q', r);
      assert PhaseInv(q');
    } else {
      assert q.ordseq + {phase} >= {STARTED, DRAIN, PREFLUSH, BAR, POSTFLUSH};
      forall r | r in q'.head ensures HeadShape(q', r) {
        assert HeadShape(q, r);
        assert r.kind != Fs ==> HasKind(q.head, r.kind);
      }
      assert forall r :: SchedShape(q, r) <==> SchedShape(q', r);
    }
  }

  // ----- dequeue, completion, requeue

  // A started request in the queue may be dequeued: it belongs to the current
  // generation, and a proxy finds the driver idle.
  lemma StartedMayLeave(q: Queue, i: nat)
    requires ProtocolInv(q) && i < |q.head| && q.head[i].started
    ensures DriverShape(q, q.head[i])
    ensures !(q.head[i].kind == Fs && q.head[i].barrier)
    ensures Sequencing(q) && CurSeq(q.ordseq) != DRAIN ==> q.driver == [] && q.head[i].kind != Fs
  {
    var r := q.head[i];
    assert HeadShape(q, r);
    if Sequencing(q) && CurSeq(q.ordseq) != DRAIN {
      assert HasKind(q.head, r.kind);
      FirstIn(q.driver);
    }
  }

  lemma RemoveKinds(h: seq<Request>, i: nat)
    requires Sorted(h) && i < |h| && h[i].kind != Fs
    requires forall r, s :: r in h && s in h && r.kind == s.kind != Fs ==> Rank(r) == Rank(s)
    ensures !HasKind(RemoveAt(h, i), h[i].kind)
    ensures forall k :: k != h[i].kind ==> (HasKind(RemoveAt(h, i), k) <==> HasKind(h, k))
  {
    RemoveMembers(h, i);
    RemoveUnique(h, i);
  }

  // All proxies in the queue are of the running sequence.
  lemma ProxyRanks(q: Queue)
    requires ShapeInv(q)
    ensures forall r, s :: r in q.head && s in q.head && r.kind == s.kind != Fs ==> Rank(r) == Rank(s)
  {
    assert forall r :: r in q.head ==> HeadShape(q, r);
  }

  lemma RemoveBarriers(h: seq<Request>, i: nat)
    requires i < |h| && !(h[i].kind == Fs && h[i].barrier)
    ensures forall g :: HasBarrier(h, g) ==> HasBarrier(RemoveAt(h, i), g)
  {
    RemoveMembers(h, i);
  }

  lemma DequeuePhase(q: Queue, i: nat)
    requires ProtocolInv(q) && i < |q.head| && q.head[i].started && Sequencing(q)
    ensures PhaseInv(Dequeue(q, i))
  {
    var q', r := Dequeue(q, i), q.head[i];
    StartedMayLeave(q, i);
    RemoveMembers(q.head, i);
    assert forall x :: x in q'.driver <==> x in q.driver || x == r;
    assert forall k :: HasKind(q'.driver, k) <==> HasKind(q.driver, k) || r.kind == k;
    if r.kind == Fs {
      forall k | k != Fs ensures HasKind(q'.head, k) <==> HasKind(q.head, k) {
      }
    } else {
      ProxyRanks(q);
      RemoveKinds(q.head, i);
      assert HasKind(q.head, r.kind);
    }
  }

  lemma DequeueKeeps(q: Queue, i: nat)
    requires ProtocolInv(q) && i < |q.head| && q.head[i].started
    ensures ProtocolInv(Dequeue(q, i))
  {
    var q', r := Dequeue(q, i), q.head[i];
    StartedMayLeave(q, i);
    ShapesKept(q, q');
    RemoveMembers(q.head, i);
    SortedRemove(q.head, i);
    RemoveBarriers(q.head, i);
    CountAppend(q.driver, r);
    assert forall x :: x in q'.driver ==> x in q.driver || x == r;
    if Sequencing(q) { DequeuePhase(q, i); }
  }

  // The barrier proxy waits in the queue until everything before it is drained.
  lemma BarWaits(q: Queue)
    requires ProtocolInv(q) && Sequencing(q) && CurSeq(q.ordseq) == DRAIN
    ensures HasKind(q.head, Bar) && q.head != []
    ensures forall r :: r in q.driver ==> r.kind == Fs
  {
  }

  lemma CompletionIsSafe(q: Queue, i: nat)
    requires ProtocolInv(q) && i < |q.driver|
    ensures CompletionSafe(q, i)
    ensures q.driver[i].kind != Fs ==> q.driver == [q.driver[i]] && PhaseOf(q.driver[i].kind) == CurSeq(q.ordseq)
  {
    var r := q.driver[i];
    assert DriverShape(q, r);
    CountRemove(q.driver, i);
    if Sequencing(q) && CurSeq(q.ordseq) == DRAIN {
      BarWaits(q);
    }
  }

  lemma UndrivenKeeps(q: Queue, i: nat)
    requires ProtocolInv(q) && i < |q.driver| && CompletionSafe(q, i)
    ensures ShapeInv(Undriven(q, i)) && OrderInv(Undriven(q, i))
    ensures Undriven(q, i).inFlight == CountAccounted(Undriven(q, i).driver)
    ensures !Sequencing(q) ==> IdleInv(Undriven(q, i))
  {
    ShapesKept(q, Undriven(q, i));
    RemoveMembers(q.driver, i);
    CountRemove(q.driver, i);
  }

  // The last outstanding request of a draining generation leaves the phase empty.
  lemma DrainedEmpty(q: Queue, q1: Queue)
    requires ProtocolInv(q) && Sequencing(q) && CurSeq(q.ordseq) == DRAIN
    requires SameFrame(q, q1) && q1.head == q.head && q1.sched == q.sched
    requires ShapeInv(q1) && OrderInv(q1) && (forall r :: r in q1.driver ==> r in q.driver)
    requires q1.inFlight == CountAccounted(q1.driver) == 0
    requires q.head != [] && ReqSeq(q, q.head[0]) > DRAIN
    ensures PhaseEmpty(q1, DRAIN)
  {
    BarWaits(q);
    CountZero(q1.driver);
    assert forall r :: r in q.driver ==> DriverShape(q, r);
    FirstIn(q1.driver);
    HeadColour(q);
    forall r | r in q.head && r.kind == Fs ensures r.gen > q.epoch {
      assert HeadShape(q, r);
      var i :| 0 <= i < |q.head| && q.head[i] == r;
      if i > 0 {
        assert Before(q.head[0], q.head[i]);
        assert HeadShape(q, q.head[0]);
      }
    }
    forall k | k != Fs ensures !HasKind(q.driver, k) {
    }
  }

  lemma CompleteFsKeeps(q: Queue, i: nat)
    requires ProtocolInv(q) && i < |q.driver| && q.driver[i].kind == Fs && CompletionSafe(q, i)
    ensures ProtocolInv(Complete(q, i))
  {
    UndrivenKeeps(q, i);
    var q0 := Undriven(q, i);
    var q1 := q0.(log := q0.log + [Completed(q.driver[i].id)]);
    ShapesKept(q0, q1);
    if Sequencing(q) {
      RemoveMembers(q.driver, i);
      assert q.driver[i] in q.driver;
      BarWaits(q);
      HeadColour(q);
      if q1.inFlight == 0 && ReqSeq(q1, q1.head[0]) > DRAIN {
        DrainedEmpty(q, q1);
        CompleteSeqKeeps(q1, DRAIN);
      } else {
        assert forall k :: k != Fs ==> !HasKind(q.driver, k) && !HasKind(q1.driver, k);
        assert PhaseInv(q1);
      }
    }
  }

  // When its proxy completes, the current phase is empty.
  lemma ProxyPhaseEmpty(q: Queue, i: nat)
    requires ProtocolInv(q) && i < |q.driver| && q.driver[i].kind != Fs && CompletionSafe(q, i)
    ensures PhaseEmpty(Undriven(q, i), PhaseOf(q.driver[i].kind))
  {
    var r, q1 := q.driver[i], Undriven(q, i);
    CompletionIsSafe(q, i);
    UndrivenKeeps(q, i);
    assert HasKind(q.driver, r.kind);
    assert forall k :: HasKind(q.driver, k) ==> k == r.kind;
    assert forall x :: x in q.head && x.started && x.kind != Fs ==> HasKind(q.head, x.kind);
  }

  lemma CompleteProxyKeeps(q: Queue, i: nat)
    requires ProtocolInv(q) && i < |q.driver| && q.driver[i].kind != Fs && CompletionSafe(q, i)
    ensures ProtocolInv(Complete(q, i))
  {
    ProxyPhaseEmpty(q, i);
    CompleteSeqKeeps(Undriven(q, i), PhaseOf(q.driver[i].kind));
  }

  // The placeholder that is killed is the open barrier phase of the sequence.
  lemma KillTarget(q: Queue)
    requires ProtocolInv(q) && Ready(q) && EmptyBarrier(q.head[0])
    ensures Sequencing(q) && q.head[0].kind == Bar && CurSeq(q.ordseq) == BAR && BAR !in q.ordseq
    ensures q.driver == []
  {
    HandedIsCurrent(q);
    assert HeadShape(q, q.head[0]);
    assert HasKind(q.head, q.head[0].kind);
    FirstIn(q.driver);
  }

  lemma KillShape(q: Queue)
    requires ProtocolInv(q) && q.head != [] && q.head[0].kind == Bar
    ensures var q1 := q.(head := q.head[1..], log := q.log + [Absorbed(q.head[0].id)]);
            && ShapeInv(q1) && OrderInv(q1) && !HasKind(q1.head, Bar)
            && (forall k :: k != Bar ==> (HasKind(q1.head, k) <==> HasKind(q.head, k)))
  {
    var q1 := q.(head := q.head[1..], log := q.log + [Absorbed(q.head[0].id)]);
    assert q1.head == RemoveAt(q.head, 0);
    SortedRemove(q.head, 0);
    RemoveMembers(q.head, 0);
    RemoveBarriers(q.head, 0);
    ProxyRanks(q);
    RemoveKinds(q.head, 0);
    ShapesKept(q, q1);
  }

  lemma KillPhase(q: Queue)
    requires ProtocolInv(q) && Ready(q) && EmptyBarrier(q.head[0])
    ensures PhaseEmpty(q.(head := q.head[1..], log := q.log + [Absorbed(q.head[0].id)]), BAR)
  {
    KillTarget(q);
    KillShape(q);
    var q1 := q.(head := q.head[1..], log := q.log + [Absorbed(q.head[0].id)]);
    assert forall x :: x in q1.head ==> x in q.head;
    assert forall k :: !HasKind(q.driver, k);
    forall x | x in q1.head ensures !x.started {
      assert x.started ==> HasKind(q1.head, x.kind);
    }
  }

  lemma KillEmptyKeeps(q: Queue)
    requires ProtocolInv(q) && Ready(q) && EmptyBarrier(q.head[0])
    ensures Sequencing(q) && q.head[0].kind == Bar && BAR !in q.ordseq
    ensures ProtocolInv(KillEmpty(q))
  {
    KillTarget(q);
    KillPhase(q);
    CompleteSeqKeeps(q.(head := q.head[1..], log := q.log + [Absorbed(q.head[0].id)]), BAR);
  }

  // Where a requeued request goes, found by colour, is ahead of everything waiting, which
  // is its place in the true order.
  lemma RequeuePosition(q: Queue, i: nat)
    requires ProtocolInv(q) && i < |q.driver| && Sequencing(q)
    ensures var x := q.driver[i].(started := false, soft := true);
            && FirstAtLeast(q, q.head, ReqSeq(q, x)) == 0
            && (forall j :: 0 <= j < |q.head| ==> Before(x, q.head[j]))
  {
    var x := q.driver[i].(started := false, soft := true);
    assert DriverShape(q, q.driver[i]);
    assert ReqSeq(q, x) == PhaseOf(x.kind);
    if q.head != [] {
      var y := q.head[0];
      assert HeadShape(q, y);
      assert x.kind != Fs ==> HasKind(q.driver, x.kind);
      assert y.kind != Fs ==> HasKind(q.head, y.kind);
      if y.kind == Fs && y.gen > q.epoch { BarrierBetween(q, 0); }
      assert Before(x, y);
      forall j | 0 <= j < |q.head| ensures Before(x, q.head[j]) {
        if j > 0 { assert Before(q.head[0], q.head[j]); }
      }
    }
  }

  // Between the proxies and a request of a later generation whose colour is that of
  // the running barrier stands a barrier of the other colour.
  lemma BarrierBetween(q: Queue, j: nat)
    requires ShapeInv(q) && OrderInv(q) && Sequencing(q) && j < |q.head|
    requires q.head[j].kind == Fs && q.head[j].gen > q.epoch
    ensures exists m :: 0 <= m <= j && ReqSeq(q, q.head[m]) == DONE
  {
    var r := q.head[j];
    assert HeadShape(q, r);
    assert Parity(q.epoch) != Parity(q.epoch + 1);
    if r.gen > q.epoch + 1 {
      assert HasBarrier(q.head, q.epoch + 1);
      var b :| b in q.head && b.kind == Fs && b.barrier && b.gen == q.epoch + 1;
      assert HeadShape(q, b);
      var m :| 0 <= m < |q.head| && q.head[m] == b;
      assert m > j ==> Before(q.head[j], q.head[m]);
      assert ReqSeq(q, q.head[m]) == DONE;
    } else {
      assert ReqSeq(q, q.head[j]) == DONE;
    }
  }

  lemma RequeueKeeps(q: Queue, i: nat)
    requires ProtocolInv(q) && i < |q.driver| && CompletionSafe(q, i)
    ensures ProtocolInv(Requeue(q, i))
  {
    var q', r := Requeue(q, i), q.driver[i];
    var x := r.(started := false, soft := true);
    var k := if Sequencing(q) then FirstAtLeast(q, q.head, ReqSeq(q, x)) else 0;
    assert DriverShape(q, r);
    UndrivenKeeps(q, i);
    ShapesKept(q, q');
    assert HeadShape(q, x);
    InsertMembers(q.head, k, x);
    if Sequencing(q) {
      RequeuePosition(q, i);
      RequeuePhase(q, i);
    } else {
      forall j | 0 <= j < |q.head| ensures Before(x, q.head[j]) {
        assert HeadShape(q, q.head[j]);
      }
    }
    SortedInsert(q.head, k, x);
    BarriersKept(q.head, q'.head);
  }

  lemma RequeuePhase(q: Queue, i: nat)
    requires ProtocolInv(q) && i < |q.driver| && CompletionSafe(q, i) && Sequencing(q)
    ensures PhaseInv(Requeue(q, i))
  {
    RequeueHead(q, i);
    if q.driver[i].kind == Fs { RequeueFs(q, i); } else { RequeueProxy(q, i); }
  }

  lemma RequeueHead(q: Queue, i: nat)
    requires ProtocolInv(q) && i < |q.driver| && CompletionSafe(q, i) && Sequencing(q)
    ensures Requeue(q, i).head == [q.driver[i].(started := false, soft := true)] + q.head
    ensures DriverShape(q, q.driver[i]) && PhaseInv(q)
  {
    assert q.driver[i] in q.driver;
    RequeuePosition(q, i);
  }

  lemma RequeueFs(q: Queue, i: nat)
    requires PhaseInv(q) && i < |q.driver| && CompletionSafe(q, i) && DriverShape(q, q.driver[i])
    requires q.driver[i].kind == Fs && Requeue(q, i).head == [q.driver[i].(started := false, soft := true)] + q.head
    ensures PhaseInv(Requeue(q, i))
  {
    var q', x := Requeue(q, i), q.driver[i].(started := false, soft := true);
    RemoveMembers(q.driver, i);
    assert CurSeq(q.ordseq) == DRAIN;
    assert forall kind :: kind != Fs ==> !HasKind(q.driver, kind) && !HasKind(q'.driver, kind);
    assert q'.head == InsertAt(q.head, 0, x);
    KindsInsert(q.head, 0, x);
  }

  lemma RequeueProxy(q: Queue, i: nat)
    requires PhaseInv(q) && i < |q.driver| && CompletionSafe(q, i) && DriverShape(q, q.driver[i])
    requires q.driver[i].kind != Fs && Requeue(q, i).head == [q.driver[i].(started := false, soft := true)] + q.head
    ensures PhaseInv(Requeue(q, i))
  {
    var q', x := Requeue(q, i), q.driver[i].(started := false, soft := true);
    assert q'.head == InsertAt(q.head, 0, x);
    KindsInsert(q.head, 0, x);
    assert HasKind(q.driver, x.kind) by { assert q.driver[i] in q.driver; }
    assert |q.driver| == 1 && q'.driver == [];
    assert forall kind :: HasKind(q.driver, kind) ==> kind == x.kind;
  }

  lemma RejectKeeps(q: Queue)
    requires ProtocolInv(q) && !Sequencing(q) && q.head != [] && q.head[0].barrier
    requires q.inFlight == 0
    ensures ProtocolInv(RejectBarrier(q))
  {
    var q' := RejectBarrier(q);
    BehindBarrier(q);
    IdleDriver(q);
    forall r | r in q'.head ensures HeadShape(q', r) {
      assert r in q.head && HeadShape(q, r);
    }
    assert forall r :: SchedShape(q, r) <==> SchedShape(q', r);
  }

  // ----- one step, any step

  // The one thing that must not happen: a barrier is turned away by an unordered
  // queue while requests of its generation are still with the driver.
  predicate RejectsBusy(q: Queue, a: Action) {
    && a == DoNext && !Sequencing(q) && q.head != [] && q.head[0].barrier
    && q.nextOrdered == Unordered && q.inFlight > 0
  }

  lemma StepIsSafe(q: Queue, a: Action)
    requires ProtocolInv(q) && Enabled(q, a)
    ensures NoFault(q, a)
  {
    match a
    case DoNext =>
      if Ready(q) && EmptyBarrier(q.head[0]) { KillEmptyKeeps(q); }
    case DoComplete(i) => CompletionIsSafe(q, i);
    case DoRequeue(i) => CompletionIsSafe(q, i);
    case _ =>
  }

  lemma DeliverKeeps(q: Queue)
    requires ProtocolInv(q) && Ready(q)
    ensures EmptyBarrier(q.head[0]) ==> BAR !in q.ordseq
    ensures ProtocolInv(Deliver(q))
  {
    if EmptyBarrier(q.head[0]) { KillEmptyKeeps(q); } else { HandOutKeeps(q); }
  }

  lemma NextKeeps(q: Queue)
    requires ProtocolInv(q) && NextSafe(q) && !RejectsBusy(q, DoNext)
    ensures ProtocolInv(Next(q))
  {
    if q.head != [] {
      if Ready(q) {
        DeliverKeeps(q);
      } else if !Sequencing(q) {
        if q.nextOrdered == Unordered {
          RejectKeeps(q);
        } else {
          StartKeeps(q);
          if q.inFlight == 0 { DeliverKeeps(StartOrdered(q)); }
        }
      }
    }
  }

  lemma StepKeeps(q: Queue, a: Action)
    requires ProtocolInv(q) && Enabled(q, a) && NoFault(q, a) && !RejectsBusy(q, a)
    ensures ProtocolInv(Apply(q, a))
  {
    match a
    case DoAddSorted(sector) => AddSortedKeeps(q, sector);
    case DoAddBack(barrier, empty, sector) => AddBackKeeps(q, barrier, empty, sector);
    case DoDispatch(i, k) => DispatchKeeps(q, i, k);
    case DoNext => NextKeeps(q);
    case DoDequeue(i) => DequeueKeeps(q, i);
    case DoComplete(i) =>
      if q.driver[i].kind == Fs { CompleteFsKeeps(q, i); } else { CompleteProxyKeeps(q, i); }
    case DoRequeue(i) => CompletionIsSafe(q, i); RequeueKeeps(q, i);
    case DoSetOrdered(mode) =>
      ShapesKept(q, q.(nextOrdered := mode));
  }

  lemma CountSome(s: seq<Request>) returns (r: Request)
    requires CountAccounted(s) > 0
    ensures r in s && Accounted(r)
  {
    if Accounted(s[0]) {
      r := s[0];
    } else {
      r := CountSome(s[1..]);
    }
  }

  // Turning a barrier away while busy is the only step that loses the invariant.
  lemma StepKeepsExactly(q: Queue, a: Action)
    requires ProtocolInv(q) && Enabled(q, a) && NoFault(q, a)
    ensures ProtocolInv(Apply(q, a)) <==> !RejectsBusy(q, a)
  {
    if RejectsBusy(q, a) {
      var r := CountSome(q.driver);
      assert DriverShape(q, r);
      assert !DriverShape(Apply(q, a), r);
    } else {
      StepKeeps(q, a);
    }
  }

  // While a sequence runs, bits are only ever added and the current phase only moves
  // forward; only the end of the sequence takes them away.
  lemma PhasesMoveForward(q: Queue, a: Action)
    requires Enabled(q, a) && NoFault(q, a) && Sequencing(q)
    ensures var q' := Apply(q, a);
            q'.epoch == q.epoch ==> q.ordseq <= q'.ordseq && CurSeq(q.ordseq) <= CurSeq(q'.ordseq)
  {
  }
}
