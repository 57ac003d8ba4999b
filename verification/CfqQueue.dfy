/**
  One CFQ queue: its sort tree, FIFO, cached next request and counters, and what the
  removal, insertion and repositioning of a request do to them.
 */
module CfqQueue {
  import opened Lists
  import opened Sets
  import AnticipatoryCache

  type Id = nat

  datatype Class = RealTime | BestEffort | Idle

  datatype Crq = Crq(sector: nat, sectors: nat, sync: bool)

  // One counter for synchronous requests and one for the others.
  datatype Counts = Counts(sync: int, async: int) {
    function At(s: bool): int { if s then sync else async }
    function Add(s: bool, k: int): Counts { if s then Counts(sync + k, async) else Counts(sync, async + k) }
  }

  datatype Queue = Queue(
    rqs: map<Id, Crq>,
    tree: map<nat, Id>,
    fifo: seq<Id>,
    next: Option<Id>,
    queued: Counts,
    onRr: bool,
    prio: nat,
    class_: Class,
    served: nat,
    inFlight: Counts,
    sliceEnd: nat,
    sliceLeft: nat)

  // A queue as cfq_get_queue makes it, with time left so that it may preempt.
  function NewQueue(class_: Class, prio: nat, sliceLeft: nat): (c: Queue)
    ensures QueueOk(c) && !c.onRr
  {
    var c := Queue(map[], map[], [], None, Counts(0, 0), false, prio, class_, 0, Counts(0, 0), 0, sliceLeft);
    Views(c);
    c
  }

  // The head position and the seek tunables.
  datatype Head = Head(last: nat, backMax: nat, backPenalty: nat)

  // ----- agreement

  ghost predicate TreeOk(c: Queue) {
    && (forall s :: s in c.tree ==> c.tree[s] in c.rqs && c.rqs[c.tree[s]].sector == s)
    && (forall id :: id in c.rqs ==> c.rqs[id].sector in c.tree && c.tree[c.rqs[id].sector] == id)
  }

  // The FIFO holds the queued requests and those in `hole`.
  ghost predicate FifoOk(c: Queue, hole: set<Id>) {
    NoDup(c.fifo) && (forall id :: id in c.fifo <==> id in c.rqs || id in hole)
  }

  ghost predicate NextOk(c: Queue) {
    (c.next.None? <==> c.rqs == map[]) && (c.next.Some? ==> c.next.value in c.rqs)
  }

  function OfKind(rqs: map<Id, Crq>, sync: bool): set<Id> {
    set id | id in rqs && rqs[id].sync == sync
  }

  ghost predicate CountOk(queued: Counts, rqs: map<Id, Crq>) {
    queued == Counts(|OfKind(rqs, true)|, |OfKind(rqs, false)|)
  }

  datatype View = InTree | InFifo | InCache | OnList | InCount

  ghost predicate ViewOk(c: Queue, v: View) {
    match v
    case InTree => TreeOk(c)
    case InFifo => FifoOk(c, {})
    case InCache => NextOk(c)
    case OnList => c.onRr <==> c.rqs != map[]
    case InCount => CountOk(c.queued, c.rqs)
  }

  // On a round-robin list iff the tree is non-empty iff there is a next request.
  ghost predicate QueueOk(c: Queue) { forall v :: ViewOk(c, v) }

  lemma Views(c: Queue)
    ensures QueueOk(c) <==>
              TreeOk(c) && FifoOk(c, {}) && NextOk(c) && (c.onRr <==> c.rqs != map[]) && CountOk(c.queued, c.rqs)
  {
    if QueueOk(c) {
      assert ViewOk(c, InTree) && ViewOk(c, InFifo) && ViewOk(c, InCache) && ViewOk(c, OnList) && ViewOk(c, InCount);
    }
  }

  // ----- choosing

  predicate Wraps(h: Head, s: nat) { s + h.backMax * 2 < h.last }

  function Distance(h: Head, s: nat): nat {
    if s >= h.last then s - h.last else Mul(h.last - s, h.backPenalty)
  }

  function Mul(a: nat, b: nat): nat { a * b }

  // cfq_choose_req: is the first of two different requests the better one?
  predicate FirstBetter(h: Head, a: Crq, b: Crq) {
    if a.sync != b.sync then a.sync
    else if Wraps(h, a.sector) != Wraps(h, b.sector) then Wraps(h, b.sector)
    else if Wraps(h, a.sector) then a.sector <= b.sector
    else if Distance(h, a.sector) != Distance(h, b.sector) then Distance(h, a.sector) < Distance(h, b.sector)
    else a.sector >= b.sector
  }

  function Choose(h: Head, c: Queue, a: Option<Id>, b: Option<Id>): (r: Option<Id>)
    requires a.Some? ==> a.value in c.rqs
    requires b.Some? ==> b.value in c.rqs
    ensures r == a || r == b
    ensures r.None? <==> a.None? && b.None?
  {
    if a.None? || a == b then b
    else if b.None? then a
    else if FirstBetter(h, c.rqs[a.value], c.rqs[b.value]) then a else b
  }

  // Among requests at different sectors the preference is a strict total order.
  lemma ChoiceIsOrder(h: Head, a: Crq, b: Crq, c: Crq)
    requires a.sector != b.sector && b.sector != c.sector && a.sector != c.sector
    ensures FirstBetter(h, a, b) <==> !FirstBetter(h, b, a)
    ensures FirstBetter(h, a, b) && FirstBetter(h, b, c) ==> FirstBetter(h, a, c)
  {
  }

  // What the preference means: a synchronous request before any other; then, of two ahead
  // of the head, the nearer; one behind it, within reach, only if its distance times the
  // penalty is less; one out of reach only when both are, and then the lowest.
  lemma ChoiceMeans(h: Head, a: Crq, b: Crq)
    requires a.sector != b.sector
    ensures a.sync && !b.sync ==> FirstBetter(h, a, b) && !FirstBetter(h, b, a)
    ensures a.sync == b.sync && h.last <= a.sector < b.sector ==> FirstBetter(h, a, b) && !FirstBetter(h, b, a)
    ensures a.sync == b.sync && a.sector < h.last <= b.sector ==>
              (FirstBetter(h, a, b) <==>
                 a.sector + h.backMax * 2 >= h.last && Mul(h.last - a.sector, h.backPenalty) < b.sector - h.last)
    ensures a.sync == b.sync && a.sector < b.sector < h.last && h.backPenalty > 0 ==>
              (FirstBetter(h, a, b) <==> b.sector + h.backMax * 2 < h.last)
  {
    if a.sector < b.sector < h.last && h.backPenalty > 0 { MulLess(h.last - b.sector, h.last - a.sector, h.backPenalty); }
  }

  lemma MulLess(a: nat, b: nat, k: nat)
    requires a < b && k > 0
    ensures Mul(a, k) < Mul(b, k)
  {
    assert b * k - a * k == (b - a) * k;
    assert (b - a) * k >= k by { assert (b - a - 1) * k >= 0 by { MulNonneg(b - a - 1, k); } }
  }

  lemma MulNonneg(a: nat, b: nat)
    ensures a * b >= 0
  {
  }

  // Between requests of one kind, with the anticipatory scheduler's constants, it is that
  // scheduler's preference.
  lemma LiftedFromAnticipatory(h: Head, a: Crq, b: Crq)
    requires a.sync == b.sync && a.sector != b.sector
    requires h.backMax * 2 == AnticipatoryCache.MAXBACK && h.backPenalty == AnticipatoryCache.BACK_PENALTY
    ensures FirstBetter(h, a, b) <==> AnticipatoryCache.Better(h.last, a.sector, b.sector)
  {
  }

  function AtSector(c: Queue, s: Option<nat>): Option<Id>
    requires s.Some? ==> s.value in c.tree
  {
    if s.Some? then Some(c.tree[s.value]) else None
  }

  // cfq_find_next_crq.
  function FindNext(h: Head, c: Queue, id: Id): Option<Id>
    requires TreeOk(c) && id in c.rqs
  {
    var s := c.rqs[id].sector;
    var keys := c.tree.Keys;
    var after := if Succ(keys, s).Some? then Succ(keys, s) else if Least(keys) == s then None else Some(Least(keys));
    Choose(h, c, AtSector(c, after), AtSector(c, Pred(keys, s)))
  }

  // It is another queued request, and none only when there is no other.
  lemma FoundIsQueued(h: Head, c: Queue, id: Id)
    requires TreeOk(c) && id in c.rqs
    ensures var r := FindNext(h, c, id);
            (r.None? <==> c.rqs - {id} == map[]) && (r.Some? ==> r.value in c.rqs - {id})
  {
    var s := c.rqs[id].sector;
    if FindNext(h, c, id).None? {
      forall x | x in c.rqs ensures x == id {
        assert c.rqs[x].sector in c.tree.Keys;
      }
    } else {
      assert FindNext(h, c, id).value in c.rqs - {id};
    }
  }

  // Sector t is beside s: just below it, just above it, or the lowest of all when there is
  // none above.
  ghost predicate BesideAt(sectors: set<nat>, s: nat, t: nat) {
    && t in sectors && t != s
    && ((t < s && forall y :: y in sectors && y < s ==> y <= t)
        || (t > s && forall y :: y in sectors && y > s ==> t <= y)
        || (forall y :: y in sectors ==> t <= y <= s))
  }

  ghost predicate Beside(c: Queue, id: Id, x: Id)
    requires id in c.rqs
  {
    x in c.rqs && BesideAt(set y | y in c.rqs :: c.rqs[y].sector, c.rqs[id].sector, c.rqs[x].sector)
  }

  // What cfq_find_next_crq looks at above or round the end.
  function UpOrRound(sectors: set<nat>, s: nat): Option<nat>
    requires s in sectors
  {
    if Succ(sectors, s).Some? then Succ(sectors, s) else if Least(sectors) == s then None else Some(Least(sectors))
  }

  lemma NeighboursAreBeside(sectors: set<nat>, s: nat, t: nat)
    requires s in sectors
    ensures BesideAt(sectors, s, t) <==> UpOrRound(sectors, s) == Some(t) || Pred(sectors, s) == Some(t)
  {
  }

  lemma TreeSectors(c: Queue)
    requires TreeOk(c)
    ensures (set y | y in c.rqs :: c.rqs[y].sector) == c.tree.Keys
  {
  }

  // Only requests beside it are compared, and all of them.
  lemma FoundBeside(h: Head, c: Queue, id: Id, x: Id)
    requires TreeOk(c) && id in c.rqs && Beside(c, id, x)
    ensures var r := FindNext(h, c, id);
            && r.Some? && r.value in c.rqs && Beside(c, id, r.value)
            && (r.value == x || FirstBetter(h, c.rqs[r.value], c.rqs[x]))
  {
    TreeSectors(c);
    var s, keys := c.rqs[id].sector, c.tree.Keys;
    var up, down := UpOrRound(keys, s), Pred(keys, s);
    NeighboursAreBeside(keys, s, c.rqs[x].sector);
    assert c.tree[c.rqs[x].sector] == x;
    var r := FindNext(h, c, id);
    assert r == Choose(h, c, AtSector(c, up), AtSector(c, down));
    NeighboursAreBeside(keys, s, c.rqs[r.value].sector);
    if up.Some? && down.Some? && up != down { ChoiceIsTotal(h, c.rqs[c.tree[up.value]], c.rqs[c.tree[down.value]]); }
  }

  lemma ChoiceIsTotal(h: Head, a: Crq, b: Crq)
    requires a.sector != b.sector
    ensures FirstBetter(h, a, b) <==> !FirstBetter(h, b, a)
  {
  }

  // ----- removal

  // cfq_remove_request: off the FIFO and out of the tree; a queue left empty goes off
  // its round-robin list.
  function Removed(h: Head, c: Queue, id: Id): Queue
    requires TreeOk(c) && id in c.rqs
  {
    var rqs := c.rqs - {id};
    c.(fifo := Minus(c.fifo, id), queued := c.queued.Add(c.rqs[id].sync, -1),
       next := if c.next == Some(id) then FindNext(h, c, id) else c.next,
       rqs := rqs, tree := c.tree - {c.rqs[id].sector}, onRr := c.onRr && rqs != map[])
  }

  // cfq_dispatch_insert.
  function Dispatched(h: Head, c: Queue, id: Id): Queue
    requires TreeOk(c) && id in c.rqs
  {
    var c1 := Removed(h, c.(next := FindNext(h, c, id)), id);
    c1.(inFlight := c1.inFlight.Add(c.rqs[id].sync, 1))
  }

  lemma TreeRemoved(c: Queue, id: Id)
    requires TreeOk(c) && id in c.rqs
    ensures TreeOk(c.(rqs := c.rqs - {id}, tree := c.tree - {c.rqs[id].sector}))
  {
  }

  lemma FifoRemoved(c: Queue, id: Id, hole: set<Id>)
    requires FifoOk(c, hole) && id in c.rqs && id !in hole
    ensures FifoOk(c.(rqs := c.rqs - {id}, fifo := Minus(c.fifo, id)), hole)
  {
    MinusMembers(c.fifo, id);
    MinusNoDup(c.fifo, id);
  }

  // The counter of the request's kind is positive, and counts right after it is lowered.
  lemma OneFewer(queued: Counts, rqs: map<Id, Crq>, id: Id)
    requires CountOk(queued, rqs) && id in rqs
    ensures queued.At(rqs[id].sync) > 0
    ensures CountOk(queued.Add(rqs[id].sync, -1), rqs - {id})
  {
    var s := rqs[id].sync;
    assert id in OfKind(rqs, s);
    assert OfKind(rqs - {id}, s) == OfKind(rqs, s) - {id};
    assert OfKind(rqs - {id}, !s) == OfKind(rqs, !s);
  }

  lemma OneMore(queued: Counts, rqs: map<Id, Crq>, id: Id, rq: Crq)
    requires CountOk(queued, rqs) && id !in rqs
    ensures CountOk(queued.Add(rq.sync, 1), rqs[id := rq])
  {
    KindAdded(rqs, id, rq);
  }

  lemma KindAdded(rqs: map<Id, Crq>, id: Id, rq: Crq)
    requires id !in rqs
    ensures OfKind(rqs[id := rq], rq.sync) == OfKind(rqs, rq.sync) + {id}
    ensures OfKind(rqs[id := rq], !rq.sync) == OfKind(rqs, !rq.sync)
  {
  }

  // A dispatch repairs the cache even while another request is out of the tree.
  lemma DispatchedParts(h: Head, c: Queue, id: Id, hole: set<Id>)
    requires TreeOk(c) && FifoOk(c, hole) && id in c.rqs && id !in hole && CountOk(c.queued, c.rqs)
    ensures var c' := Dispatched(h, c, id);
            && TreeOk(c') && FifoOk(c', hole) && NextOk(c')
            && c'.rqs == c.rqs - {id} && CountOk(c'.queued, c'.rqs) && (c'.onRr <==> c.onRr && c'.rqs != map[])
  {
    TreeRemoved(c, id);
    FifoRemoved(c, id, hole);
    OneFewer(c.queued, c.rqs, id);
    FoundIsQueued(h, c, id);
  }

  lemma DispatchedOk(h: Head, c: Queue, id: Id)
    requires QueueOk(c) && id in c.rqs
    ensures TreeOk(c) && QueueOk(Dispatched(h, c, id))
    ensures Dispatched(h, c, id).rqs == c.rqs - {id}
    ensures Dispatched(h, c, id).onRr <==> Dispatched(h, c, id).rqs != map[]
  {
    Views(c);
    DispatchedParts(h, c, id, {});
    Views(Dispatched(h, c, id));
  }

  // After a dispatch the next request is one beside the dispatched one, and synchronous if
  // any of those is.
  lemma DispatchedNext(h: Head, c: Queue, id: Id, x: Id)
    requires TreeOk(c) && id in c.rqs && Beside(c, id, x)
    ensures var next := Dispatched(h, c, id).next;
            && next.Some? && next.value in c.rqs && Beside(c, id, next.value)
            && (c.rqs[x].sync ==> c.rqs[next.value].sync)
  {
    FoundBeside(h, c, id, x);
    FoundIsQueued(h, c, id);
  }

  lemma RemovedOk(h: Head, c: Queue, id: Id)
    requires QueueOk(c) && id in c.rqs
    ensures TreeOk(c) && QueueOk(Removed(h, c, id))
  {
    Views(c);
    TreeRemoved(c, id);
    FifoRemoved(c, id, {});
    OneFewer(c.queued, c.rqs, id);
    FoundIsQueued(h, c, id);
    if c.next != Some(id) { assert c.next.value in c.rqs - {id}; }
    Views(Removed(h, c, id));
  }

  // ----- insertion

  // Into the tree once the sector is free, and compared with the cached request.
  function Linked(h: Head, c: Queue, id: Id, rq: Crq): Queue
    requires c.next.Some? ==> c.next.value in c.rqs || c.next.value == id
  {
    var c1 := c.(rqs := c.rqs[id := rq], tree := c.tree[rq.sector := id], queued := c.queued.Add(rq.sync, 1), onRr := true);
    c1.(next := Choose(h, c1, c.next, Some(id)))
  }

  // A new synchronous request takes the place of an asynchronous next one, and an
  // asynchronous one never that of a synchronous; of one kind, both ahead of the head, the
  // nearer is next.
  lemma LinkedNext(h: Head, c: Queue, id: Id, rq: Crq)
    requires id !in c.rqs && (c.next.Some? ==> c.next.value in c.rqs && c.rqs[c.next.value].sector != rq.sector)
    ensures var next := Linked(h, c, id, rq).next;
            && (c.next.None? ==> next == Some(id))
            && (c.next.Some? ==>
                  var was := c.rqs[c.next.value];
                  && (rq.sync && !was.sync ==> next == Some(id))
                  && (!rq.sync && was.sync ==> next == c.next)
                  && (rq.sync == was.sync && h.last <= rq.sector && h.last <= was.sector ==>
                        next == if rq.sector < was.sector then Some(id) else c.next))
  {
    if c.next.Some? {
      var was := c.rqs[c.next.value];
      ChoiceIsTotal(h, was, rq);
      ChoiceMeans(h, rq, was);
      ChoiceMeans(h, was, rq);
    }
  }

  lemma LinkedParts(h: Head, c: Queue, id: Id, rq: Crq, hole: set<Id>)
    requires TreeOk(c) && FifoOk(c, hole + {id}) && id !in c.rqs && id !in hole && rq.sector !in c.tree && CountOk(c.queued, c.rqs)
    requires c.next.Some? ==> c.next.value in c.rqs || c.next.value == id
    ensures var c' := Linked(h, c, id, rq);
            TreeOk(c') && FifoOk(c', hole) && NextOk(c') && c'.onRr && c'.rqs != map[] && CountOk(c'.queued, c'.rqs)
  {
    OneMore(c.queued, c.rqs, id, rq);
    assert id in c.rqs[id := rq];
  }

  // Taken out of the tree to be put back elsewhere, as cfq_reposition_crq_rb does.
  function TakenOut(c: Queue, id: Id): Queue
    requires id in c.rqs
  {
    c.(rqs := c.rqs - {id}, tree := c.tree - {c.rqs[id].sector}, queued := c.queued.Add(c.rqs[id].sync, -1))
  }

  lemma TakenOutParts(c: Queue, id: Id)
    requires QueueOk(c) && id in c.rqs
    ensures var c' := TakenOut(c, id);
            && TreeOk(c') && FifoOk(c', {id}) && CountOk(c'.queued, c'.rqs) && c'.onRr
            && (c'.next.Some? ==> c'.next.value in c'.rqs || c'.next.value == id)
  {
    Views(c);
    TreeRemoved(c, id);
    OneFewer(c.queued, c.rqs, id);
  }
}
