/**
  CFQ at work: per-process queues on round-robin lists, the rotation over priority
  levels, insertion and repositioning of requests, and the forced drain of everything.
 */
module Cfq {
  import opened Lists
  import opened Sets
  import opened CfqQueue
  import opened CfqLists
  import opened CfqPriority

  datatype Cfq = Cfq(queues: map<Qid, Queue>, lists: RrLists, busyQueues: int, head: Head, out: seq<Id>)

  // ----- what every operation keeps

  datatype Promise = Queues | Listed | Counted | Levels

  ghost predicate Kept(s: Cfq, except: set<Qid>, p: Promise) {
    match p
    case Queues => forall q :: q in s.queues && q !in except ==> QueueOk(s.queues[q])
    case Listed => NoDup(All(s.lists)) && forall q :: q in All(s.lists) <==> q in s.queues && s.queues[q].onRr
    case Counted => s.busyQueues == |All(s.lists)|
    case Levels => forall q :: q in s.queues ==> s.queues[q].prio < |s.lists.rr|
  }

  // Queues outside `except` are in order; a queue is on one list, once, iff it is marked
  // so, and busy_queues counts those.
  ghost predicate Good(s: Cfq, except: set<Qid>) { forall p :: Kept(s, except, p) }

  // A queue changes; if it stops being on a list it is unlinked and counted out.
  function Stored(s: Cfq, q: Qid, c: Queue): Cfq
    requires q in s.queues
  {
    var s1 := s.(queues := s.queues[q := c]);
    if s.queues[q].onRr && !c.onRr then s1.(lists := Drop(s.lists, q), busyQueues := s.busyQueues - 1) else s1
  }

  lemma StoredGood(s: Cfq, q: Qid, c: Queue, before: set<Qid>, after: set<Qid>)
    requires Good(s, before) && q in s.queues && before <= after + {q} && (q in after || QueueOk(c))
    requires c.prio == s.queues[q].prio && (c.onRr ==> s.queues[q].onRr)
    ensures Good(Stored(s, q, c), after)
  {
    var s' := Stored(s, q, c);
    forall p ensures Kept(s', after, p) {
      assert Kept(s, before, p);
      assert Kept(s, before, Listed);
      DropAll(s.lists, q);
      MinusMembers(All(s.lists), q);
      MinusNoDup(All(s.lists), q);
      MinusLength(All(s.lists), q);
    }
  }

  // cfq_dispatch_insert; `tail` is the sector after the request then last in the
  // dispatch queue.
  function DispatchedIn(s: Cfq, q: Qid, id: Id, tail: nat): Cfq
    requires q in s.queues && TreeOk(s.queues[q]) && id in s.queues[q].rqs
  {
    Stored(s, q, Dispatched(s.head, s.queues[q], id)).(head := s.head.(last := tail), out := s.out + [id])
  }

  lemma SameLists(s: Cfq, s': Cfq, except: set<Qid>)
    requires Good(s, except) && s'.queues == s.queues && s'.lists == s.lists && s'.busyQueues == s.busyQueues
    ensures Good(s', except)
  {
    forall p ensures Kept(s', except, p) {
      assert Kept(s, except, p);
    }
  }

  lemma DispatchedGood(s: Cfq, q: Qid, id: Id, tail: nat)
    requires Good(s, {}) && q in s.queues && id in s.queues[q].rqs
    ensures TreeOk(s.queues[q]) && Good(DispatchedIn(s, q, id, tail), {})
    ensures DispatchedIn(s, q, id, tail).queues[q].rqs == s.queues[q].rqs - {id}
  {
    assert Kept(s, {}, Queues);
    var c := s.queues[q];
    DispatchedOk(s.head, c, id);
    assert c.onRr by { assert ViewOk(c, OnList); }
    var s1 := Stored(s, q, Dispatched(s.head, c, id));
    StoredGood(s, q, Dispatched(s.head, c, id), {}, {});
    SameLists(s1, DispatchedIn(s, q, id, tail), {});
  }

  lemma RemovedGood(s: Cfq, q: Qid, id: Id)
    requires Good(s, {}) && q in s.queues && id in s.queues[q].rqs
    ensures TreeOk(s.queues[q]) && Good(Stored(s, q, Removed(s.head, s.queues[q], id)), {})
  {
    assert Kept(s, {}, Queues);
    RemovedOk(s.head, s.queues[q], id);
    StoredGood(s, q, Removed(s.head, s.queues[q], id), {}, {});
  }

  // ----- placing a queue on a list

  // The list a queue belongs on.
  function Target(c: Queue): Where {
    if c.class_.RealTime? then Cur
    else if c.class_.Idle? then Where.Idle
    else if c.inFlight.sync + c.inFlight.async != 0 then Busy
    else Level(c.prio)
  }

  // Scanning back past queues served later: behind the first that was never served or
  // was served before.
  function ScanBack(list: seq<Qid>, queues: map<Qid, Queue>, served: nat, k: nat): (r: nat)
    requires k <= |list|
    ensures r <= k
  {
    if k == 0 || list[k - 1] !in queues || queues[list[k - 1]].served == 0 || queues[list[k - 1]].served < served then k
    else ScanBack(list, queues, served, k - 1)
  }

  function Position(list: seq<Qid>, queues: map<Qid, Queue>, w: Where, served: nat, preempted: bool): (r: nat)
    ensures r <= |list|
  {
    if preempted then (if list == [] then 0 else |list| - 1)
    else if w == Busy then |list|
    else ScanBack(list, queues, served, |list|)
  }

  ghost predicate ByService(list: seq<Qid>, queues: map<Qid, Queue>) {
    forall i, j :: 0 <= i < j < |list| && list[i] in queues && list[j] in queues ==>
      queues[list[i]].served <= queues[list[j]].served
  }

  // The scan stops behind the last queue served earlier.
  lemma {:induction false} ScanBackFits(list: seq<Qid>, queues: map<Qid, Queue>, served: nat, k: nat)
    requires k <= |list| && forall q :: q in list ==> q in queues
    ensures var r := ScanBack(list, queues, served, k);
            && (forall j :: r <= j < k ==> queues[list[j]].served >= served)
            && (r > 0 ==> queues[list[r - 1]].served == 0 || queues[list[r - 1]].served < served)
  {
    if k > 0 {
      assert list[k - 1] in list;
      ScanBackFits(list, queues, served, k - 1);
    }
  }

  // A list in order of last service, never-served queues first, stays so.
  lemma ServiceOrderKept(list: seq<Qid>, queues: map<Qid, Queue>, q: Qid)
    requires ByService(list, queues) && (forall x :: x in list ==> x in queues) && q in queues
    ensures ByService(InsertAt(list, ScanBack(list, queues, queues[q].served, |list|), q), queues)
  {
    var served := queues[q].served;
    var k := ScanBack(list, queues, served, |list|);
    ScanBackFits(list, queues, served, |list|);
    ServedBefore(list, queues, served, k);
    InsertedByService(list, queues, q, k);
  }

  lemma ServedBefore(list: seq<Qid>, queues: map<Qid, Queue>, served: nat, k: nat)
    requires ByService(list, queues) && k <= |list| && forall x :: x in list ==> x in queues
    requires k > 0 ==> queues[list[k - 1]].served <= served
    ensures forall i :: 0 <= i < k ==> list[i] in queues && queues[list[i]].served <= served
    ensures forall i :: 0 <= i < |list| ==> list[i] in queues
  {
    forall i | 0 <= i < |list| ensures list[i] in queues {
      assert list[i] in list;
    }
  }

  lemma InsertedByService(list: seq<Qid>, queues: map<Qid, Queue>, q: Qid, k: nat)
    requires ByService(list, queues) && q in queues && k <= |list|
    requires forall i :: 0 <= i < k ==> list[i] in queues && queues[list[i]].served <= queues[q].served
    requires forall i :: k <= i < |list| ==> list[i] in queues && queues[list[i]].served >= queues[q].served
    ensures ByService(InsertAt(list, k, q), queues)
  {
    var r := InsertAt(list, k, q);
    forall i, j | 0 <= i < j < |r| && r[i] in queues && r[j] in queues ensures queues[r[i]].served <= queues[r[j]].served {
      var a, b := if i < k then i else i - 1, if j < k then j else j - 1;
      assert i != k ==> r[i] == list[a];
      assert j != k ==> r[j] == list[b];
    }
  }

  // A preempted queue goes one before the last of the list, so to its front only when
  // the list has at most one other queue.
  lemma PreemptedPlace(list: seq<Qid>, queues: map<Qid, Queue>, w: Where, served: nat)
    ensures Position(list, queues, w, served, true) == 0 <==> |list| <= 1
  {
  }

  // cfq_resort_rr_list.
  function Resorted(s: Cfq, q: Qid, preempted: bool): Cfq
    requires q in s.queues && s.queues[q].prio < |s.lists.rr|
  {
    var l := Drop(s.lists, q);
    var c := s.queues[q];
    var list := Get(l, Target(c));
    s.(lists := Put(l, Target(c), InsertAt(list, Position(list, s.queues, Target(c), c.served, preempted), q)))
  }

  lemma ResortedGood(s: Cfq, q: Qid, preempted: bool, except: set<Qid>)
    requires Good(s, except) && q in s.queues && s.queues[q].onRr
    ensures s.queues[q].prio < |s.lists.rr| && Good(Resorted(s, q, preempted), except)
  {
    assert Kept(s, except, Listed) && Kept(s, except, Levels);
    var l, c := Drop(s.lists, q), s.queues[q];
    var list := Get(l, Target(c));
    DropAll(s.lists, q);
    MinusMembers(All(s.lists), q);
    MinusNoDup(All(s.lists), q);
    MinusLength(All(s.lists), q);
    CfqLists.Linked(l, Target(c), Position(list, s.queues, Target(c), c.served, preempted), q);
    forall p ensures Kept(Resorted(s, q, preempted), except, p) {
      assert Kept(s, except, p);
    }
  }

  // Queue q is on one list: the current one if it is real time, the idle one if it is
  // idle; otherwise the busy one while requests of it are in flight, and then the one of
  // its level.
  ghost predicate Placed(l: RrLists, q: Qid, c: Queue) {
    && (q in l.cur <==> c.class_ == RealTime)
    && (q in l.idle <==> c.class_ == Class.Idle)
    && (q in l.busy <==> Delayed(c))
    && (forall i :: 0 <= i < |l.rr| ==> (q in l.rr[i] <==> c.class_ == BestEffort && !Delayed(c) && i == c.prio))
  }

  // A best-effort queue with requests in flight.
  ghost predicate Delayed(c: Queue) { c.class_ == BestEffort && c.inFlight.sync + c.inFlight.async != 0 }

  ghost predicate OthersStay(l: RrLists, l': RrLists, q: Qid) {
    && |l'.rr| == |l.rr|
    && (forall p :: p != q ==> (p in l'.cur <==> p in l.cur) && (p in l'.busy <==> p in l.busy) && (p in l'.idle <==> p in l.idle))
    && (forall p, i :: p != q && 0 <= i < |l.rr| ==> (p in l'.rr[i] <==> p in l.rr[i]))
  }

  lemma ResortedPlace(s: Cfq, q: Qid, preempted: bool)
    requires Good(s, {}) && q in s.queues && s.queues[q].onRr
    ensures s.queues[q].prio < |s.lists.rr|
    ensures Placed(Resorted(s, q, preempted).lists, q, s.queues[q])
    ensures OthersStay(s.lists, Resorted(s, q, preempted).lists, q)
  {
    ResortedGood(s, q, preempted, {});
    var s' := Resorted(s, q, preempted);
    ResortedOn(s, q, preempted, Cur);
    ResortedOn(s, q, preempted, Busy);
    ResortedOn(s, q, preempted, Where.Idle);
    forall i | 0 <= i < |s.lists.rr| ensures q in s'.lists.rr[i] <==> Level(i) == Target(s.queues[q]) {
      ResortedOn(s, q, preempted, Level(i));
    }
    DropOthers(s.lists, q);
    var l, c := Drop(s.lists, q), s.queues[q];
    PutOthers(l, Target(c), Position(Get(l, Target(c)), s.queues, Target(c), c.served, preempted), q);
  }

  lemma DropOthers(l: RrLists, q: Qid)
    ensures OthersStay(l, Drop(l, q), q)
  {
    MinusMembers(l.cur, q);
    MinusMembers(l.busy, q);
    MinusMembers(l.idle, q);
    forall i | 0 <= i < |l.rr| ensures forall p :: p in Minus(l.rr[i], q) <==> p in l.rr[i] && p != q {
      MinusMembers(l.rr[i], q);
    }
  }

  lemma InsertMembers(list: seq<Qid>, k: nat, q: Qid)
    requires k <= |list|
    ensures forall p :: p in InsertAt(list, k, q) <==> p in list || p == q
  {
    assert list == list[..k] + list[k..];
  }

  lemma PutOthers(l: RrLists, w: Where, k: nat, q: Qid)
    requires Exists(l, w) && k <= |Get(l, w)|
    ensures OthersStay(l, Put(l, w, InsertAt(Get(l, w), k, q)), q)
  {
    InsertMembers(Get(l, w), k, q);
  }

  // Unless it was preempted, a queue joins the busy list at the back and any other list in
  // order of last service.
  lemma ResortedInOrder(s: Cfq, q: Qid, w: Where)
    requires Good(s, {}) && q in s.queues && s.queues[q].onRr && s.queues[q].prio < |s.lists.rr|
    requires Exists(s.lists, w) && q in Get(Resorted(s, q, false).lists, w)
    ensures var before, after := Minus(Get(s.lists, w), q), Get(Resorted(s, q, false).lists, w);
            if w == Busy then after == before + [q]
            else ByService(before, s.queues) ==> ByService(after, s.queues)
  {
    ResortedOn(s, q, false, w);
    var before := Minus(Get(s.lists, w), q);
    assert Get(Drop(s.lists, q), w) == before;
    MinusQueues(s, q, w);
    if ByService(before, s.queues) { ServiceOrderKept(before, s.queues, q); }
  }

  lemma MinusQueues(s: Cfq, q: Qid, w: Where)
    requires Good(s, {}) && Exists(s.lists, w)
    ensures forall x :: x in Minus(Get(s.lists, w), q) ==> x in s.queues
  {
    MinusMembers(Get(s.lists, w), q);
    Around(s.lists, w, []);
    assert Kept(s, {}, Listed);
    assert forall x :: x in Get(s.lists, w) ==> x in All(s.lists);
  }

  lemma ResortedOn(s: Cfq, q: Qid, preempted: bool, w: Where)
    requires Good(s, {}) && q in s.queues && s.queues[q].onRr && Exists(s.lists, w)
    ensures s.queues[q].prio < |s.lists.rr| && Exists(Resorted(s, q, preempted).lists, w)
    ensures q in Get(Resorted(s, q, preempted).lists, w) <==> w == Target(s.queues[q])
  {
    ResortedGood(s, q, preempted, {});
    var s' := Resorted(s, q, preempted);
    var target := Target(s.queues[q]);
    assert NoDup(All(s'.lists)) by { assert Kept(s', {}, Listed); }
    assert q in Get(s'.lists, target);
    if w != target { Elsewhere(s'.lists, target, w, q); }
  }

  // A changed queue that is to be on a list: linked and counted if it was not.
  function Enlisted(s: Cfq, q: Qid, c: Queue): Cfq
    requires q in s.queues && c.prio < |s.lists.rr|
  {
    var s1 := s.(queues := s.queues[q := c]);
    if s.queues[q].onRr then s1
    else
      var list := Get(s.lists, Target(c));
      s1.(busyQueues := s.busyQueues + 1,
          lists := Put(s.lists, Target(c), InsertAt(list, Position(list, s.queues, Target(c), c.served, false), q)))
  }

  lemma EnlistedGood(s: Cfq, q: Qid, c: Queue, before: set<Qid>)
    requires Good(s, before) && q in s.queues && QueueOk(c) && c.onRr && c.prio == s.queues[q].prio && before <= {q}
    ensures c.prio < |s.lists.rr| && Good(Enlisted(s, q, c), {})
  {
    assert Kept(s, before, Listed) && Kept(s, before, Levels);
    if !s.queues[q].onRr {
      var list := Get(s.lists, Target(c));
      CfqLists.Linked(s.lists, Target(c), Position(list, s.queues, Target(c), c.served, false), q);
    }
    forall p ensures Kept(Enlisted(s, q, c), {}, p) {
      assert Kept(s, before, p);
    }
  }

  lemma EnlistedPlace(s: Cfq, q: Qid, c: Queue, before: set<Qid>)
    requires Good(s, before) && q in s.queues && !s.queues[q].onRr && QueueOk(c) && c.onRr && c.prio == s.queues[q].prio && before <= {q}
    ensures c.prio < |s.lists.rr| && Placed(Enlisted(s, q, c).lists, q, c)
  {
    EnlistedGood(s, q, c, before);
    var s', w := Enlisted(s, q, c), Target(c);
    assert NoDup(All(s'.lists)) by { assert Kept(s', {}, Listed); }
    InsertMembers(Get(s.lists, w), Position(Get(s.lists, w), s.queues, w, c.served, false), q);
    assert q in Get(s'.lists, w);
    forall v: Where | Exists(s'.lists, v) && v != w ensures q !in Get(s'.lists, v) {
      Elsewhere(s'.lists, w, v, q);
    }
    assert w != Cur ==> q !in Get(s'.lists, Cur);
    assert w != Busy ==> q !in Get(s'.lists, Busy);
    assert w != Where.Idle ==> q !in Get(s'.lists, Where.Idle);
    forall i | 0 <= i < |s'.lists.rr| ensures q in s'.lists.rr[i] <==> w == Level(i) {
      assert Get(s'.lists, Level(i)) == s'.lists.rr[i];
    }
  }

  // ----- insertion

  function RoomMade(s: Cfq, q: Qid, sector: nat, tail: nat): Cfq
    requires q in s.queues && TreeOk(s.queues[q])
  {
    if sector in s.queues[q].tree then DispatchedIn(s, q, s.queues[q].tree[sector], tail) else s
  }

  // What a queue needs before a request is linked into its tree.
  ghost predicate Loose(c: Queue, id: Id) {
    && TreeOk(c) && FifoOk(c, {id}) && CountOk(c.queued, c.rqs) && id !in c.rqs
    && (c.next.Some? ==> c.next.value in c.rqs || c.next.value == id)
  }

  lemma RoomMadeGood(s: Cfq, q: Qid, id: Id, sector: nat, tail: nat)
    requires Good(s, {q}) && q in s.queues && Loose(s.queues[q], id)
    ensures var s' := RoomMade(s, q, sector, tail);
            && Good(s', {q}) && q in s'.queues && Loose(s'.queues[q], id) && sector !in s'.queues[q].tree
            && s'.queues[q].prio == s.queues[q].prio
  {
    var c := s.queues[q];
    if sector in c.tree {
      var alias := c.tree[sector];
      DispatchedParts(s.head, c, alias, {id});
      StoredGood(s, q, Dispatched(s.head, c, alias), {q}, {q});
      SameLists(Stored(s, q, Dispatched(s.head, c, alias)), DispatchedIn(s, q, alias, tail), {q});
    }
  }

  // cfq_add_crq_rb once the sector is free: into the tree, and the queue onto a list if
  // it was on none.
  function LinkedIn(s: Cfq, q: Qid, id: Id, rq: Crq): Cfq
    requires q in s.queues && Loose(s.queues[q], id) && s.queues[q].prio < |s.lists.rr|
  {
    Enlisted(s, q, CfqQueue.Linked(s.head, s.queues[q], id, rq))
  }

  lemma LinkedInGood(s: Cfq, q: Qid, id: Id, rq: Crq)
    requires Good(s, {q}) && q in s.queues && Loose(s.queues[q], id) && rq.sector !in s.queues[q].tree
    ensures s.queues[q].prio < |s.lists.rr| && Good(LinkedIn(s, q, id, rq), {})
  {
    var c := CfqQueue.Linked(s.head, s.queues[q], id, rq);
    assert {} + {id} == {id};
    LinkedParts(s.head, s.queues[q], id, rq, {});
    Views(c);
    EnlistedGood(s, q, c, {q});
  }

  // cfq_add_crq_rb of a request that is out of the tree.
  function Relinked(s: Cfq, q: Qid, id: Id, rq: Crq, tail: nat): Cfq
    requires Good(s, {q}) && q in s.queues && Loose(s.queues[q], id)
  {
    RoomMadeGood(s, q, id, rq.sector, tail);
    var s1 := RoomMade(s, q, rq.sector, tail);
    LinkedInGood(s1, q, id, rq);
    LinkedIn(s1, q, id, rq)
  }

  lemma RelinkedGood(s: Cfq, q: Qid, id: Id, rq: Crq, tail: nat)
    requires Good(s, {q}) && q in s.queues && Loose(s.queues[q], id)
    ensures Good(Relinked(s, q, id, rq, tail), {})
    ensures Relinked(s, q, id, rq, tail).queues.Keys == s.queues.Keys
    ensures |Relinked(s, q, id, rq, tail).lists.rr| == |s.lists.rr|
  {
    RoomMadeGood(s, q, id, rq.sector, tail);
    var s1 := RoomMade(s, q, rq.sector, tail);
    assert s1.queues.Keys == s.queues.Keys && |s1.lists.rr| == |s.lists.rr|;
    LinkedInGood(s1, q, id, rq);
  }

  function Loosened(s: Cfq, q: Qid, c: Queue): Cfq { s.(queues := s.queues[q := c]) }

  lemma LoosenedGood(s: Cfq, q: Qid, c: Queue)
    requires Good(s, {}) && q in s.queues && c.onRr == s.queues[q].onRr && c.prio == s.queues[q].prio
    ensures Good(Loosened(s, q, c), {q})
  {
    StoredGood(s, q, c, {}, {q});
  }

  // cfq_insert_request: a new request at the tail of the FIFO and in the tree.
  function AddedIn(s: Cfq, q: Qid, id: Id, rq: Crq, tail: nat): Cfq
    requires Good(s, {}) && q in s.queues && id !in s.queues[q].rqs
  {
    NewIsLoose(s, q, id);
    Relinked(Loosened(s, q, s.queues[q].(fifo := s.queues[q].fifo + [id])), q, id, rq, tail)
  }

  lemma NewIsLoose(s: Cfq, q: Qid, id: Id)
    requires Good(s, {}) && q in s.queues && id !in s.queues[q].rqs
    ensures var c := s.queues[q].(fifo := s.queues[q].fifo + [id]);
            Loose(c, id) && Good(Loosened(s, q, c), {q})
  {
    assert Kept(s, {}, Queues);
    Views(s.queues[q]);
    LoosenedGood(s, q, s.queues[q].(fifo := s.queues[q].fifo + [id]));
  }

  lemma AddedGood(s: Cfq, q: Qid, id: Id, rq: Crq, tail: nat)
    requires Good(s, {}) && q in s.queues && id !in s.queues[q].rqs
    ensures Good(AddedIn(s, q, id, rq, tail), {})
  {
    NewIsLoose(s, q, id);
    RelinkedGood(Loosened(s, q, s.queues[q].(fifo := s.queues[q].fifo + [id])), q, id, rq, tail);
  }

  // The state once the sector of a new request is free.
  function RoomFor(s: Cfq, q: Qid, id: Id, sector: nat, tail: nat): Cfq
    requires q in s.queues && TreeOk(s.queues[q])
  {
    RoomMade(Loosened(s, q, s.queues[q].(fifo := s.queues[q].fifo + [id])), q, sector, tail)
  }

  lemma RoomForNext(s: Cfq, q: Qid, id: Id, sector: nat, tail: nat)
    requires Good(s, {}) && q in s.queues && id !in s.queues[q].rqs
    ensures TreeOk(s.queues[q])
    ensures var c, s1 := s.queues[q], RoomFor(s, q, id, sector, tail);
            var c1 := s1.queues[q];
            && id !in c1.rqs && (c1.next.Some? ==> c1.next.value in c1.rqs && c1.rqs[c1.next.value].sector != sector)
            && c1.rqs == (if sector in c.tree then c.rqs - {c.tree[sector]} else c.rqs)
            && (sector !in c.tree ==> c1.next == c.next && c1.fifo == c.fifo + [id] && s1.head == s.head)
  {
    NewIsLoose(s, q, id);
    assert Kept(s, {}, Queues);
    Views(s.queues[q]);
    var c0 := s.queues[q].(fifo := s.queues[q].fifo + [id]);
    if sector in c0.tree { DispatchedParts(s.head, c0, c0.tree[sector], {id}); }
  }

  lemma AddedQueue(s: Cfq, q: Qid, id: Id, rq: Crq, tail: nat)
    requires Good(s, {}) && q in s.queues && id !in s.queues[q].rqs
    ensures TreeOk(s.queues[q])
    ensures var s1 := RoomFor(s, q, id, rq.sector, tail);
            && (s1.queues[q].next.Some? ==> s1.queues[q].next.value in s1.queues[q].rqs)
            && AddedIn(s, q, id, rq, tail).queues[q] == CfqQueue.Linked(s1.head, s1.queues[q], id, rq)
  {
    RoomForNext(s, q, id, rq.sector, tail);
    NewIsLoose(s, q, id);
  }

  // What an insertion does to the queue's next request.  With nothing at the sector, a
  // synchronous request takes the place of an asynchronous next one, an asynchronous one
  // never that of a synchronous, and of one kind, both ahead of the head, the nearer is
  // next.  In any case the next request is synchronous if the new one is.
  ghost predicate NextOnAdding(h: Head, c: Queue, id: Id, rq: Crq, c': Queue) {
    && c'.next.Some? && c'.next.value in c'.rqs && (rq.sync ==> c'.rqs[c'.next.value].sync)
    && (rq.sector !in c.tree ==>
          c'.rqs == c.rqs[id := rq] && c'.fifo == c.fifo + [id] && NextAfterAdding(h, c, id, rq, c'.next))
    && (rq.sector in c.tree ==> c'.rqs == (c.rqs - {c.tree[rq.sector]})[id := rq])
  }

  lemma AddedNext(s: Cfq, q: Qid, id: Id, rq: Crq, tail: nat)
    requires Good(s, {}) && q in s.queues && id !in s.queues[q].rqs
    ensures NextOnAdding(s.head, s.queues[q], id, rq, AddedIn(s, q, id, rq, tail).queues[q])
  {
    RoomForNext(s, q, id, rq.sector, tail);
    AddedQueue(s, q, id, rq, tail);
    var s1 := RoomFor(s, q, id, rq.sector, tail);
    LinkedNext(s1.head, s1.queues[q], id, rq);
  }

  ghost predicate NextAfterAdding(h: Head, c: Queue, id: Id, rq: Crq, next: Option<Id>) {
    if c.next.None? || c.next.value !in c.rqs then next == Some(id)
    else
      var was := c.rqs[c.next.value];
      && (rq.sync && !was.sync ==> next == Some(id))
      && (!rq.sync && was.sync ==> next == c.next)
      && (rq.sync == was.sync && h.last <= rq.sector && h.last <= was.sector ==>
            next == if rq.sector < was.sector then Some(id) else c.next)
  }

  // A queue that was on no list is then where its class, level and requests in flight say.
  lemma AddedPlace(s: Cfq, q: Qid, id: Id, rq: Crq, tail: nat)
    requires Good(s, {}) && q in s.queues && id !in s.queues[q].rqs && !s.queues[q].onRr
    ensures var s' := AddedIn(s, q, id, rq, tail); Placed(s'.lists, q, s'.queues[q])
  {
    NewIsLoose(s, q, id);
    var c0 := s.queues[q].(fifo := s.queues[q].fifo + [id]);
    var s0 := Loosened(s, q, c0);
    assert Kept(s, {}, Queues);
    Views(s.queues[q]);
    assert rq.sector !in c0.tree;
    var c := CfqQueue.Linked(s.head, c0, id, rq);
    assert {} + {id} == {id};
    LinkedParts(s.head, c0, id, rq, {});
    Views(c);
    EnlistedPlace(s0, q, c, {q});
  }

  // cfq_reposition_crq_rb: a front-merged request moves to its new sector.
  function RepositionedIn(s: Cfq, q: Qid, id: Id, rq: Crq, tail: nat): Cfq
    requires Good(s, {}) && q in s.queues && id in s.queues[q].rqs
  {
    TakenIsLoose(s, q, id);
    Relinked(Loosened(s, q, TakenOut(s.queues[q], id)), q, id, rq, tail)
  }

  lemma TakenIsLoose(s: Cfq, q: Qid, id: Id)
    requires Good(s, {}) && q in s.queues && id in s.queues[q].rqs
    ensures Loose(TakenOut(s.queues[q], id), id) && Good(Loosened(s, q, TakenOut(s.queues[q], id)), {q})
  {
    assert Kept(s, {}, Queues);
    TakenOutParts(s.queues[q], id);
    LoosenedGood(s, q, TakenOut(s.queues[q], id));
  }

  // Whatever started at the new sector, the queue comes out in order: on a list, with a
  // next request, and counted.
  lemma RepositionedGood(s: Cfq, q: Qid, id: Id, rq: Crq, tail: nat)
    requires Good(s, {}) && q in s.queues && id in s.queues[q].rqs
    ensures Good(RepositionedIn(s, q, id, rq, tail), {})
  {
    TakenIsLoose(s, q, id);
    RelinkedGood(Loosened(s, q, TakenOut(s.queues[q], id)), q, id, rq, tail);
  }

  // ----- totals

  function Total(queues: map<Qid, Queue>, list: seq<Qid>): nat {
    if list == [] then 0 else (if list[0] in queues then |queues[list[0]].rqs| else 0) + Total(queues, list[1..])
  }

  lemma {:induction false} TotalJoin(queues: map<Qid, Queue>, a: seq<Qid>, b: seq<Qid>)
    ensures Total(queues, a + b) == Total(queues, a) + Total(queues, b)
  {
    if a == [] {
      assert a + b == b;
    } else {
      assert (a + b)[1..] == a[1..] + b;
      TotalJoin(queues, a[1..], b);
    }
  }

  // A queue on no list has nothing queued, so the lists account for everything.
  lemma Unlisted(s: Cfq, q: Qid)
    requires Good(s, {}) && q in s.queues
    ensures q !in All(s.lists) <==> s.queues[q].rqs == map[]
    ensures q !in All(s.lists) <==> s.queues[q].next.None?
  {
    assert Kept(s, {}, Queues) && Kept(s, {}, Listed);
    Views(s.queues[q]);
  }

  lemma NewQueueGood(s: Cfq, q: Qid, c: Queue)
    requires Good(s, {}) && q !in s.queues && QueueOk(c) && !c.onRr && c.prio < |s.lists.rr|
    ensures Good(s.(queues := s.queues[q := c]), {})
  {
    var s' := s.(queues := s.queues[q := c]);
    forall p ensures Kept(s', {}, p) {
      assert Kept(s, {}, p);
    }
  }

  // Changing only what timing and completions count keeps everything.
  lemma TimedGood(s: Cfq, q: Qid, c: Queue)
    requires Good(s, {}) && q in s.queues
    requires c == s.queues[q].(served := c.served, inFlight := c.inFlight, sliceEnd := c.sliceEnd, sliceLeft := c.sliceLeft)
    ensures Good(s.(queues := s.queues[q := c]), {})
  {
    assert Kept(s, {}, Queues);
    Views(s.queues[q]);
    Views(c);
    StoredGood(s, q, c, {}, {});
  }

  // What is on a list is a queue with requests.
  lemma ListedBusy(s: Cfq, w: Where, q: Qid)
    requires Good(s, {}) && Exists(s.lists, w) && q in Get(s.lists, w)
    ensures q in s.queues && s.queues[q].onRr && s.queues[q].next.Some?
  {
    assert Kept(s, {}, Listed);
    Around(s.lists, w, []);
    assert q in All(s.lists);
    Unlisted(s, q);
  }

  // ----- the forced drain

  // From s0 to s, queue q was emptied and n requests, the ones it had, went out.
  ghost predicate DrainedQueue(s0: Cfq, q: Qid, n: nat, s: Cfq) {
    && q in s0.queues && s.queues.Keys == s0.queues.Keys
    && (forall p :: p in s0.queues && p != q ==> s.queues[p] == s0.queues[p])
    && s.queues[q].rqs == map[] && s.queues[q].fifo == []
    && s.lists == Drop(s0.lists, q)
    && n == |s0.queues[q].rqs| && Sent(s0, s, n)
    && (forall id :: id in s0.queues[q].rqs ==> id in s.out)
  }

  ghost predicate Sent(s0: Cfq, s: Cfq, n: nat) { s0.out <= s.out && |s.out| == |s0.out| + n }

  // Part of the way there: the requests still queued make up the rest.
  ghost predicate Draining(s0: Cfq, q: Qid, n: nat, s: Cfq) {
    && q in s0.queues && s.queues.Keys == s0.queues.Keys
    && (forall p :: p in s0.queues && p != q ==> s.queues[p] == s0.queues[p])
    && s.lists == (if s.queues[q].onRr then s0.lists else Drop(s0.lists, q))
    && n + |s.queues[q].rqs| == |s0.queues[q].rqs| && Sent(s0, s, n)
    && (forall id :: id in s0.queues[q].rqs ==> id in s.queues[q].rqs || id in s.out)
  }

  lemma DrainStep(s0: Cfq, q: Qid, n: nat, s: Cfq, tail: nat)
    requires Draining(s0, q, n, s) && Good(s, {}) && s.queues[q].next.Some?
    ensures s.queues[q].next.value in s.queues[q].rqs && TreeOk(s.queues[q])
    ensures var s' := DispatchedIn(s, q, s.queues[q].next.value, tail);
            Draining(s0, q, n + 1, s') && Good(s', {}) && |s'.lists.rr| == |s.lists.rr|
  {
    assert Kept(s, {}, Queues);
    var c := s.queues[q];
    assert c.next.value in c.rqs && TreeOk(c) && c.onRr by { Views(c); }
    DispatchedGood(s, q, c.next.value, tail);
    DrainCounts(s0, q, n, s, c.next.value, tail);
  }

  lemma DrainCounts(s0: Cfq, q: Qid, n: nat, s: Cfq, id: Id, tail: nat)
    requires Draining(s0, q, n, s) && id in s.queues[q].rqs && TreeOk(s.queues[q]) && s.queues[q].onRr
    ensures Draining(s0, q, n + 1, DispatchedIn(s, q, id, tail))
  {
    var s' := DispatchedIn(s, q, id, tail);
    MapLess(s.queues[q].rqs, id);
    assert s'.queues[q].rqs == s.queues[q].rqs - {id} && s'.out == s.out + [id];
    assert s'.queues.Keys == s.queues.Keys;
  }

  lemma DrainEnds(s0: Cfq, q: Qid, n: nat, s: Cfq)
    requires Draining(s0, q, n, s) && Good(s, {}) && s.queues[q].next.None?
    ensures DrainedQueue(s0, q, n, s)
  {
    assert Kept(s, {}, Queues);
    Views(s.queues[q]);
    FirstIn(s.queues[q].fifo);
  }

  lemma FirstIn(f: seq<Id>)
    ensures f == [] || f[0] in f
  {
  }

  // From s0 to s, the queues of one list were emptied.
  ghost predicate DrainedList(s0: Cfq, w: Where, n: nat, s: Cfq) {
    && Exists(s0.lists, w) && s.queues.Keys == s0.queues.Keys
    && s.lists == Put(s0.lists, w, [])
    && (forall p :: p in s0.queues && p !in Get(s0.lists, w) ==> s.queues[p] == s0.queues[p])
    && n == Total(s0.queues, Get(s0.lists, w)) && Sent(s0, s, n)
    && (forall p, id :: p in Get(s0.lists, w) && p in s0.queues && id in s0.queues[p].rqs ==> id in s.out)
  }

  // The first j queues of the list as it was have been emptied.
  ghost predicate DrainingList(s0: Cfq, w: Where, j: nat, n: nat, s: Cfq) {
    && Exists(s0.lists, w) && s.queues.Keys == s0.queues.Keys && j <= |Get(s0.lists, w)|
    && s.lists == Put(s0.lists, w, Get(s0.lists, w)[j..])
    && (forall p :: p in s0.queues && p !in Get(s0.lists, w)[..j] ==> s.queues[p] == s0.queues[p])
    && n == Total(s0.queues, Get(s0.lists, w)[..j]) && Sent(s0, s, n)
    && (forall p, id :: p in Get(s0.lists, w)[..j] && p in s0.queues && id in s0.queues[p].rqs ==> id in s.out)
  }

  lemma ListStep(s0: Cfq, w: Where, j: nat, n: nat, s: Cfq, m: nat, s': Cfq)
    requires DrainingList(s0, w, j, n, s) && j < |Get(s0.lists, w)| && NoDup(All(s0.lists)) && NoDup(All(s.lists))
    requires Get(s0.lists, w)[j] in s0.queues && DrainedQueue(s, Get(s0.lists, w)[j], m, s')
    ensures DrainingList(s0, w, j + 1, n + m, s')
  {
    var list := Get(s0.lists, w);
    var q := list[j];
    Pieces(s0.lists, w);
    assert list[..j + 1] == list[..j] + [q] && q !in list[..j];
    StepLists(s0.lists, s.lists, w, j);
    TotalJoin(s0.queues, list[..j], [q]);
    assert Total(s0.queues, [q]) == |s0.queues[q].rqs| + Total(s0.queues, [q][1..]);
    PrefixMembers(s.out, s'.out);
  }

  lemma StepLists(l0: RrLists, l: RrLists, w: Where, j: nat)
    requires Exists(l0, w) && j < |Get(l0, w)| && l == Put(l0, w, Get(l0, w)[j..]) && NoDup(All(l))
    ensures Drop(l, Get(l0, w)[j]) == Put(l0, w, Get(l0, w)[j + 1..])
  {
    var list := Get(l0, w);
    assert Get(l, w) == list[j..] && list[j..][0] == list[j] && list[j..][1..] == list[j + 1..];
    DropHead(l, w);
    PutTwice(l0, w, list[j..], list[j + 1..]);
  }

  lemma PrefixMembers(a: seq<Id>, b: seq<Id>)
    requires a <= b
    ensures forall x :: x in a ==> x in b
  {
    assert b == a + b[|a|..];
  }

  // The next queue of the list is still on it, marked so, with its requests.
  lemma StillListed(s0: Cfq, s: Cfq, w: Where, j: nat, n: nat)
    requires Good(s0, {}) && Good(s, {}) && DrainingList(s0, w, j, n, s) && j < |Get(s0.lists, w)|
    ensures var q := Get(s0.lists, w)[j];
            q in s0.queues && q in s.queues && s.queues[q].onRr && NoDup(All(s0.lists)) && NoDup(All(s.lists))
  {
    assert Kept(s0, {}, Listed) && Kept(s, {}, Listed);
    var list := Get(s0.lists, w);
    var q := list[j];
    Around(s.lists, w, []);
    assert q in Get(s.lists, w) && Get(s.lists, w)[0] == q;
    assert q in All(s.lists);
  }

  lemma PutTwice(l: RrLists, w: Where, a: seq<Qid>, b: seq<Qid>)
    requires Exists(l, w)
    ensures Exists(Put(l, w, a), w) && Put(Put(l, w, a), w, b) == Put(l, w, b)
  {
  }

  // Since s0, n requests went out; the queues still listed are as they were and hold the rest.
  ghost predicate Remaining(s0: Cfq, n: nat, s: Cfq) {
    && s.queues.Keys == s0.queues.Keys && |s.lists.rr| == |s0.lists.rr| && Sent(s0, s, n)
    && n + Total(s0.queues, All(s.lists)) == Total(s0.queues, All(s0.lists))
    && (forall p :: p in All(s.lists) ==> p in s0.queues && s.queues[p] == s0.queues[p])
    && (forall p, id :: p in s0.queues && id in s0.queues[p].rqs ==> p in All(s.lists) || id in s.out)
  }

  lemma RemainingStarts(s: Cfq)
    requires Good(s, {})
    ensures Remaining(s, 0, s)
  {
    assert Kept(s, {}, Listed);
    forall p, id | p in s.queues && id in s.queues[p].rqs ensures p in All(s.lists) {
      Unlisted(s, p);
    }
  }

  lemma {:induction false} TotalSame(a: map<Qid, Queue>, b: map<Qid, Queue>, list: seq<Qid>)
    requires forall p :: p in list ==> p in a && p in b && a[p] == b[p]
    ensures Total(a, list) == Total(b, list)
  {
    if list != [] { TotalSame(a, b, list[1..]); }
  }

  lemma RemainingStep(s0: Cfq, n: nat, s: Cfq, w: Where, m: nat, s': Cfq)
    requires Remaining(s0, n, s) && NoDup(All(s.lists)) && DrainedList(s, w, m, s')
    ensures Remaining(s0, n + m, s')
  {
    TotalStep(s0, n, s, w, m, s');
    RestStep(s0, n, s, w, m, s');
    SentStep(s0, n, s, w, m, s');
  }

  lemma TotalStep(s0: Cfq, n: nat, s: Cfq, w: Where, m: nat, s': Cfq)
    requires Remaining(s0, n, s) && DrainedList(s, w, m, s')
    ensures n + m + Total(s0.queues, All(s'.lists)) == Total(s0.queues, All(s0.lists))
  {
    var a, b := Ahead(s.lists, w), Behind(s.lists, w);
    Around(s.lists, w, []);
    assert a + [] + b == a + b;
    TotalsStep(s0.queues, s.queues, a, Get(s.lists, w), b);
  }

  lemma RestStep(s0: Cfq, n: nat, s: Cfq, w: Where, m: nat, s': Cfq)
    requires Remaining(s0, n, s) && NoDup(All(s.lists)) && DrainedList(s, w, m, s')
    ensures forall p :: p in All(s'.lists) ==> p in s0.queues && s'.queues[p] == s0.queues[p]
  {
    var a, b := Ahead(s.lists, w), Behind(s.lists, w);
    Around(s.lists, w, []);
    assert a + [] + b == a + b;
    OutsideBlock(a, Get(s.lists, w), b);
  }

  lemma SentStep(s0: Cfq, n: nat, s: Cfq, w: Where, m: nat, s': Cfq)
    requires Remaining(s0, n, s) && DrainedList(s, w, m, s')
    ensures forall p, id :: p in s0.queues && id in s0.queues[p].rqs ==> p in All(s'.lists) || id in s'.out
  {
    Around(s.lists, w, []);
    PrefixMembers(s.out, s'.out);
    forall p, id | p in s0.queues && id in s0.queues[p].rqs ensures p in All(s'.lists) || id in s'.out {
      assert p in All(s.lists) || id in s.out;
    }
  }

  lemma TotalsStep(before: map<Qid, Queue>, now: map<Qid, Queue>, a: seq<Qid>, list: seq<Qid>, b: seq<Qid>)
    requires forall p :: p in list ==> p in before && p in now && now[p] == before[p]
    ensures Total(now, list) + Total(before, a + b) == Total(before, a + list + b)
  {
    TotalSame(now, before, list);
    TotalJoin(before, a + list, b);
    TotalJoin(before, a, list);
    TotalJoin(before, a, b);
  }

  lemma OutsideBlock(a: seq<Qid>, x: seq<Qid>, b: seq<Qid>)
    requires NoDup(a + x + b)
    ensures forall p :: p in a + b ==> p in a + x + b && p !in x
    ensures forall p :: p in a + x + b && p !in a + b ==> p in x
  {
    var s := a + x + b;
    forall p | p in a + b ensures p !in x {
      var i :| 0 <= i < |a + b| && (a + b)[i] == p;
      var k := if i < |a| then i else i + |x|;
      assert s[k] == p;
      forall j | 0 <= j < |x| ensures x[j] != p {
        assert s[|a| + j] == x[j];
      }
    }
  }

  // Nothing listed: every queue is empty, and the count is everything there was.
  lemma RemainingEnds(s0: Cfq, n: nat, s: Cfq)
    requires Good(s, {}) && Remaining(s0, n, s) && s.lists.busy == s.lists.cur == s.lists.idle == []
    requires forall i :: 0 <= i < |s.lists.rr| ==> s.lists.rr[i] == []
    ensures n == Total(s0.queues, All(s0.lists)) && s.busyQueues == 0
    ensures forall q :: q in s.queues ==> s.queues[q].rqs == map[] && !s.queues[q].onRr
    ensures forall p, id :: p in s0.queues && id in s0.queues[p].rqs ==> id in s.out
  {
    ConcatNone(s.lists.rr);
    assert All(s.lists) == [];
    assert Kept(s, {}, Listed) && Kept(s, {}, Counted);
    forall q | q in s.queues ensures s.queues[q].rqs == map[] {
      Unlisted(s, q);
    }
  }

  // The next request is beside the dispatched one, and synchronous if x is.
  ghost predicate NextBeside(c: Queue, id: Id, x: Id, next: Option<Id>)
    requires id in c.rqs && x in c.rqs
  {
    next.Some? && next.value in c.rqs && Beside(c, id, next.value) && (c.rqs[x].sync ==> c.rqs[next.value].sync)
  }

  lemma OnlyDelayed(l: RrLists, l1: RrLists, q: Qid)
    requires OthersStay(l, l1, q) && l1.cur == [] && BusyLevels(l1.rr) == {}
    ensures forall p :: p != q ==> p !in l.cur && forall i :: 0 <= i < |l.rr| ==> p !in l.rr[i]
  {
    forall i | 0 <= i < |l.rr| ensures l1.rr[i] == [] {
      assert i !in BusyLevels(l1.rr);
    }
  }

  class Scheduler {
    var queues: map<Qid, Queue>
    var lists: RrLists
    var busyQueues: int
    var head: Head
    var out: seq<Id>
    var curPrio: nat
    var curEndPrio: nat
    var active: Option<Qid>

    function State(): Cfq
      reads this
    {
      Cfq.Cfq(queues, lists, busyQueues, head, out)
    }

    ghost predicate Valid()
      reads this
    {
      && Good(State(), {})
      && IsSlot(|lists.rr|, Slot(curEndPrio, curPrio))
      && (active.Some? ==> active.value in queues)
    }

    constructor (n: nat, head: Head)
      requires n > 0
      ensures Valid() && queues == map[] && |lists.rr| == n && out == []
      ensures curPrio == curEndPrio == 0
    {
      queues, busyQueues, this.head, out := map[], 0, head, [];
      lists := RrLists(seq(n, i => []), [], [], []);
      curPrio, curEndPrio, active := 0, 0, None;
      new;
      NoneListed(State());
    }

    // cfq_get_next_prio_level: the next level with queues in the order of passes, whose
    // list moves to the front of the current list; -1 when every level is empty.
    method NextPrioLevel() returns (prio: int)
      requires Valid()
      modifies this`lists, this`curPrio, this`curEndPrio
      ensures Valid()
      ensures prio == -1 <==> BusyLevels(old(lists.rr)) == {}
      ensures prio == -1 ==> lists == old(lists) && curPrio == curEndPrio == 0
      ensures prio != -1 ==>
                && BusyLevels(old(lists.rr)) != {} && InRange(|old(lists.rr)|, BusyLevels(old(lists.rr)))
                && var at := Search(|old(lists.rr)|, old(Slot(curEndPrio, curPrio)), BusyLevels(old(lists.rr)));
                && prio == at.prio && Slot(curEndPrio, curPrio) == NextSlot(|old(lists.rr)|, at)
                && lists == Spliced(old(lists), at.prio)
    {
      var p, cur, end := FindLevel(lists.rr, curPrio, curEndPrio);
      prio, curPrio, curEndPrio := p, cur, end;
      if prio != -1 {
        SplicedGood(State(), prio);
        lists := Spliced(lists, prio);
        curPrio := prio + 1;
        if curPrio > curEndPrio {
          curEndPrio := curPrio;
          curPrio := 0;
        }
        if curEndPrio == |lists.rr| {
          curPrio := 0;
          curEndPrio := 0;
        }
      }
    }

    // cfq_dispatch_insert, also while another request of the queue is out of the tree.
    method DispatchInsert(q: Qid, id: Id, tail: nat)
      requires q in queues && TreeOk(queues[q]) && id in queues[q].rqs
      modifies this`queues, this`lists, this`busyQueues, this`head, this`out
      ensures State() == DispatchedIn(old(State()), q, id, tail)
      ensures queues[q].rqs == old(queues)[q].rqs - {id} && out == old(out) + [id] && head.last == tail
      ensures queues[q].inFlight == old(queues)[q].inFlight.Add(old(queues)[q].rqs[id].sync, 1)
      ensures forall x :: Beside(old(queues)[q], id, x) ==>
                NextBeside(old(queues)[q], id, x, queues[q].next)
    {
      forall x | Beside(queues[q], id, x) ensures NextBeside(queues[q], id, x, Dispatched(head, queues[q], id).next) {
        DispatchedNext(head, queues[q], id, x);
      }
      var c := queues[q];
      c := c.(next := FindNext(head, c, id));
      c := Removed(head, c, id);
      c := c.(inFlight := c.inFlight.Add(queues[q].rqs[id].sync, 1));
      if queues[q].onRr && !c.onRr {
        lists := Drop(lists, q);
        busyQueues := busyQueues - 1;
      }
      queues := queues[q := c];
      head := head.(last := tail);
      out := out + [id];
    }

    // cfq_remove_request.
    method RemoveRequest(q: Qid, id: Id)
      requires Valid() && q in queues && id in queues[q].rqs
      modifies this`queues, this`lists, this`busyQueues
      ensures Valid() && TreeOk(old(queues)[q])
      ensures State() == Stored(old(State()), q, Removed(head, old(queues)[q], id))
    {
      RemovedGood(State(), q, id);
      var c := Removed(head, queues[q], id);
      if queues[q].onRr && !c.onRr {
        lists := Drop(lists, q);
        busyQueues := busyQueues - 1;
      }
      queues := queues[q := c];
    }

    // The loop of cfq_add_crq_rb: a request already at the sector is dispatched.
    method MakeRoom(q: Qid, sector: nat, tail: nat, ghost id: Id)
      requires Good(State(), {q}) && q in queues && Loose(queues[q], id)
      modifies this`queues, this`lists, this`busyQueues, this`head, this`out
      ensures q in old(queues) && TreeOk(old(queues)[q]) && State() == RoomMade(old(State()), q, sector, tail)
    {
      ghost var s := State();
      RoomMadeGood(s, q, id, sector, tail);
      while sector in queues[q].tree
        invariant q in queues
        invariant State() == s || (sector !in queues[q].tree && State() == RoomMade(s, q, sector, tail))
        decreases sector in queues[q].tree
      {
        DispatchInsert(q, queues[q].tree[sector], tail);
      }
    }

    // The rest of cfq_add_crq_rb.
    method Link(q: Qid, id: Id, rq: Crq)
      requires q in queues && Loose(queues[q], id) && queues[q].prio < |lists.rr|
      modifies this`queues, this`lists, this`busyQueues
      ensures State() == LinkedIn(old(State()), q, id, rq)
    {
      var c := CfqQueue.Linked(head, queues[q], id, rq);
      if !queues[q].onRr {
        var w := Target(c);
        var list := Get(lists, w);
        var k := |list|;
        if w != Busy {
          k := Scan(list, c.served);
        }
        lists := Put(lists, w, InsertAt(list, k, q));
        busyQueues := busyQueues + 1;
      }
      queues := queues[q := c];
    }

    // cfq_add_crq_rb.
    method AddRb(q: Qid, id: Id, rq: Crq, tail: nat)
      requires Good(State(), {q}) && q in queues && Loose(queues[q], id)
      modifies this`queues, this`lists, this`busyQueues, this`head, this`out
      ensures Good(old(State()), {q}) && q in old(queues) && Loose(old(queues)[q], id)
      ensures State() == Relinked(old(State()), q, id, rq, tail) && Good(State(), {})
      ensures queues.Keys == old(queues.Keys) && |lists.rr| == |old(lists.rr)|
    {
      RelinkedGood(State(), q, id, rq, tail);
      RoomMadeGood(State(), q, id, rq.sector, tail);
      MakeRoom(q, rq.sector, tail, id);
      LinkedInGood(State(), q, id, rq);
      Link(q, id, rq);
    }

    // cfq_insert_request.
    method InsertRequest(q: Qid, id: Id, rq: Crq, tail: nat)
      requires Valid() && q in queues && id !in queues[q].rqs
      modifies this`queues, this`lists, this`busyQueues, this`head, this`out
      ensures Valid() && Good(old(State()), {}) && State() == AddedIn(old(State()), q, id, rq, tail)
      ensures queues.Keys == old(queues.Keys) && active == old(active)
      ensures NextOnAdding(old(head), old(queues)[q], id, rq, queues[q])
      ensures !old(queues)[q].onRr ==> Placed(lists, q, queues[q])
    {
      ghost var s := State();
      Insert(q, id, rq, tail);
      AddedNext(s, q, id, rq, tail);
      if !s.queues[q].onRr { AddedPlace(s, q, id, rq, tail); }
    }

    // To the tail of the FIFO and into the tree.
    method Insert(q: Qid, id: Id, rq: Crq, tail: nat)
      requires Valid() && q in queues && id !in queues[q].rqs
      modifies this`queues, this`lists, this`busyQueues, this`head, this`out
      ensures Valid() && Good(old(State()), {}) && State() == AddedIn(old(State()), q, id, rq, tail)
      ensures queues.Keys == old(queues.Keys)
    {
      NewIsLoose(State(), q, id);
      queues := queues[q := queues[q].(fifo := queues[q].fifo + [id])];
      AddRb(q, id, rq, tail);
    }

    // cfq_reposition_crq_rb.
    method Reposition(q: Qid, id: Id, rq: Crq, tail: nat)
      requires Valid() && q in queues && id in queues[q].rqs
      modifies this`queues, this`lists, this`busyQueues, this`head, this`out
      ensures Valid() && Good(old(State()), {}) && State() == RepositionedIn(old(State()), q, id, rq, tail)
      ensures queues.Keys == old(queues.Keys) && active == old(active)
    {
      TakenIsLoose(State(), q, id);
      queues := queues[q := TakenOut(queues[q], id)];
      AddRb(q, id, rq, tail);
    }

    // The inner loop of cfq_forced_dispatch_cfqqs: one queue, to the last request.
    method DrainQueue(q: Qid, tails: nat -> nat) returns (n: nat)
      requires Good(State(), {}) && q in queues && queues[q].onRr
      modifies this`queues, this`lists, this`busyQueues, this`head, this`out
      ensures Good(State(), {}) && DrainedQueue(old(State()), q, n, State()) && |lists.rr| == |old(lists.rr)|
    {
      n := 0;
      ghost var s0 := State();
      while queues[q].next.Some?
        invariant q in queues && Good(State(), {}) && Draining(s0, q, n, State()) && |lists.rr| == |s0.lists.rr|
        decreases |queues[q].rqs|
      {
        DrainStep(s0, q, n, State(), tails(|out|));
        DispatchInsert(q, queues[q].next.value, tails(|out|));
        n := n + 1;
      }
      DrainEnds(s0, q, n, State());
    }

    method DrainNext(w: Where, q: Qid, ghost j: nat, n: nat, tails: nat -> nat, ghost s0: Cfq) returns (n': nat)
      requires Good(s0, {}) && Good(State(), {}) && DrainingList(s0, w, j, n, State()) && |lists.rr| == |s0.lists.rr|
      requires j < |Get(s0.lists, w)| && q == Get(s0.lists, w)[j]
      modifies this`queues, this`lists, this`busyQueues, this`head, this`out
      ensures Good(State(), {}) && DrainingList(s0, w, j + 1, n', State()) && |lists.rr| == |s0.lists.rr|
    {
      ghost var s := State();
      StillListed(s0, s, w, j, n);
      var m := DrainQueue(q, tails);
      ListStep(s0, w, j, n, s, m, State());
      n' := n + m;
    }

    // cfq_forced_dispatch_cfqqs: every queue of one list.
    method DrainList(w: Where, tails: nat -> nat) returns (n: nat)
      requires Good(State(), {}) && Exists(lists, w)
      modifies this`queues, this`lists, this`busyQueues, this`head, this`out
      ensures Good(State(), {}) && DrainedList(old(State()), w, n, State()) && |lists.rr| == |old(lists.rr)|
    {
      n := 0;
      ghost var s0 := State();
      var list := Get(lists, w);
      assert Kept(s0, {}, Listed);
      assert list[..0] == [] && list[0..] == list;
      for j := 0 to |list|
        invariant Good(State(), {}) && DrainingList(s0, w, j, n, State()) && |lists.rr| == |s0.lists.rr|
      {
        n := DrainNext(w, list[j], j, n, tails, s0);
      }
      assert list[..|list|] == list && list[|list|..] == [];
    }

    // cfq_forced_dispatch: every queue is emptied, everything queued goes out and is
    // counted, and no queue is busy any more.
    method ForcedDispatch(tails: nat -> nat, now: nat) returns (n: nat)
      requires Valid()
      modifies this
      ensures Valid() && busyQueues == 0
      ensures n == Total(old(queues), All(old(lists))) && |out| == |old(out)| + n && old(out) <= out
      ensures queues.Keys == old(queues.Keys) && forall q :: q in queues ==> queues[q].rqs == map[] && !queues[q].onRr
      ensures forall q, id :: q in old(queues) && id in old(queues)[q].rqs ==> id in out
    {
      n := DrainAll(tails);
      SliceExpired(false, now);
    }

    method DrainAll(tails: nat -> nat) returns (n: nat)
      requires Good(State(), {})
      modifies this`queues, this`lists, this`busyQueues, this`head, this`out
      ensures Good(State(), {}) && busyQueues == 0 && |lists.rr| == |old(lists.rr)|
      ensures n == Total(old(queues), All(old(lists))) && |out| == |old(out)| + n && old(out) <= out
      ensures queues.Keys == old(queues.Keys) && forall q :: q in queues ==> queues[q].rqs == map[] && !queues[q].onRr
      ensures forall q, id :: q in old(queues) && id in old(queues)[q].rqs ==> id in out
    {
      ghost var s0 := State();
      n := DrainLevels(tails, s0);
      n := DrainOne(Busy, n, tails, s0);
      n := DrainOne(Cur, n, tails, s0);
      n := DrainOne(Where.Idle, n, tails, s0);
      RemainingEnds(s0, n, State());
    }

    method DrainOne(w: Where, n: nat, tails: nat -> nat, ghost s0: Cfq) returns (n': nat)
      requires Good(State(), {}) && Remaining(s0, n, State()) && Exists(lists, w)
      modifies this`queues, this`lists, this`busyQueues, this`head, this`out
      ensures Good(State(), {}) && Remaining(s0, n', State()) && lists == Put(old(lists), w, [])
    {
      ghost var s := State();
      assert Kept(s, {}, Listed);
      var m := DrainList(w, tails);
      RemainingStep(s0, n, s, w, m, State());
      n' := n + m;
    }

    method DrainLevels(tails: nat -> nat, ghost s0: Cfq) returns (n: nat)
      requires Good(State(), {}) && s0 == State()
      modifies this`queues, this`lists, this`busyQueues, this`head, this`out
      ensures Good(State(), {}) && Remaining(s0, n, State())
      ensures forall i :: 0 <= i < |lists.rr| ==> lists.rr[i] == []
    {
      n := 0;
      RemainingStarts(s0);
      for i := 0 to |lists.rr|
        invariant Good(State(), {}) && Remaining(s0, n, State())
        invariant forall k :: 0 <= k < i <= |lists.rr| ==> lists.rr[k] == []
      {
        n := DrainOne(Level(i), n, tails, s0);
      }
    }

    // cfq_get_queue: the queue of a process, made when there is none.
    method GetQueue(q: Qid, class_: Class, prio: nat, sliceLeft: nat)
      requires Valid() && prio < |lists.rr|
      modifies this`queues
      ensures Valid()
      ensures queues == if q in old(queues) then old(queues) else old(queues)[q := NewQueue(class_, prio, sliceLeft)]
    {
      if q !in queues {
        NewQueueGood(State(), q, NewQueue(class_, prio, sliceLeft));
        queues := queues[q := NewQueue(class_, prio, sliceLeft)];
      }
    }

    // cfq_set_active_queue: the head of the current list, refilled from the next level;
    // else a queue with requests in flight; else an idle one once the grace period is over.
    method SetActive(graceOver: bool) returns (r: Option<Qid>)
      requires Valid()
      modifies this`queues, this`lists, this`curPrio, this`curEndPrio, this`active
      ensures Valid() && active == r && queues.Keys == old(queues.Keys)
      ensures forall q :: q in queues ==> queues[q].rqs == old(queues)[q].rqs && queues[q].onRr == old(queues)[q].onRr
      ensures r.Some? ==> r.value in queues && queues[r.value].next.Some? && queues[r.value].sliceEnd == 0
      ensures r.None? <==> OnlyIdle(old(lists)) && (old(lists.idle) == [] || !graceOver)
      ensures old(lists.cur) != [] ==> r == Some(old(lists.cur)[0])
      ensures old(lists.cur) == [] && BusyLevels(old(lists.rr)) != {} && InRange(|old(lists.rr)|, BusyLevels(old(lists.rr))) ==>
                r == Some(old(lists.rr)[Search(|old(lists.rr)|, old(Slot(curEndPrio, curPrio)), BusyLevels(old(lists.rr))).prio][0])
      ensures old(lists.cur) == [] && BusyLevels(old(lists.rr)) == {} ==>
                r == if old(lists.busy) != [] then Some(old(lists.busy)[0])
                     else if old(lists.idle) != [] && graceOver then Some(old(lists.idle)[0]) else None
    {
      if lists.cur == [] {
        var prio := NextPrioLevel();
      }
      r := None;
      ghost var w := Cur;
      if lists.cur != [] {
        r := Some(lists.cur[0]);
      } else if lists.busy != [] {
        r, w := Some(lists.busy[0]), Busy;
      } else if lists.idle != [] && graceOver {
        r, w := Some(lists.idle[0]), Where.Idle;
      }
      if r.Some? {
        ListedBusy(State(), w, r.value);
        var c := queues[r.value].(sliceEnd := 0, sliceLeft := 0);
        TimedGood(State(), r.value, c);
        queues := queues[r.value := c];
      }
      active := r;
    }

    // cfq_completed_request: one request fewer at the driver; a queue with none left there
    // goes back to the list its priority calls for, and a slice that is over ends.
    method CompletedRequest(q: Qid, sync: bool, now: nat)
      requires Valid() && q in queues && queues[q].inFlight.At(sync) > 0
      modifies this`queues, this`lists, this`active
      ensures Valid() && busyQueues == old(busyQueues) && |lists.rr| == |old(lists.rr)|
      ensures queues.Keys == old(queues.Keys) && queues[q].inFlight == old(queues)[q].inFlight.Add(sync, -1)
      ensures forall p :: p in queues ==> queues[p].rqs == old(queues)[p].rqs && queues[p].onRr == old(queues)[p].onRr
      ensures queues[q].onRr && queues[q].inFlight.sync + queues[q].inFlight.async == 0 ==>
                Placed(lists, q, queues[q]) && queues[q].served == now
      ensures active == if old(active) == Some(q) && now > old(queues)[q].sliceEnd then None else old(active)
    {
      LowerInFlight(q, sync, now);
      if active == Some(q) && now > queues[q].sliceEnd {
        SliceExpired(false, now);
      }
    }

    // One request fewer at the driver, and the place of the queue once there is none.
    method LowerInFlight(q: Qid, sync: bool, now: nat)
      requires Valid() && q in queues
      modifies this`queues, this`lists
      ensures Valid() && |lists.rr| == |old(lists.rr)|
      ensures var c := old(queues)[q].(inFlight := old(queues)[q].inFlight.Add(sync, -1));
              var drained := c.onRr && c.inFlight.sync + c.inFlight.async == 0;
              && queues == old(queues)[q := if drained then c.(served := now) else c]
              && (drained ==> Placed(lists, q, queues[q]))
    {
      var c := queues[q].(inFlight := queues[q].inFlight.Add(sync, -1));
      var drained := c.inFlight.sync + c.inFlight.async == 0 && c.onRr;
      if drained {
        c := c.(served := now);
      }
      TimedGood(State(), q, c);
      queues := queues[q := c];
      if drained {
        Resort(q, false);
      }
    }

    // __cfq_slice_expired of the active queue.
    method SliceExpired(preempted: bool, now: nat)
      requires Valid()
      modifies this`queues, this`lists, this`active
      ensures Valid() && active == None && |lists.rr| == |old(lists.rr)|
      ensures queues.Keys == old(queues.Keys)
      ensures forall q :: q in queues && old(active) != Some(q) ==> queues[q] == old(queues)[q]
      ensures old(active).None? ==> lists == old(lists)
      ensures old(active).Some? ==>
                var q, c := old(active).value, old(queues)[old(active).value];
                && queues[q] == c.(served := if preempted || c.inFlight.sync + c.inFlight.async != 0 then c.served else now,
                                   sliceLeft := if c.sliceEnd > now then c.sliceEnd - now else 0)
                && (c.onRr ==> Placed(lists, q, queues[q]) && OthersStay(old(lists), lists, q))
    {
      if active.Some? {
        var q := active.value;
        var c := queues[q];
        if !preempted && c.inFlight.sync + c.inFlight.async == 0 {
          c := c.(served := now);
        }
        c := c.(sliceLeft := if c.sliceEnd > now then c.sliceEnd - now else 0);
        TimedGood(State(), q, c);
        queues := queues[q := c];
        if queues[q].onRr {
          Resort(q, preempted);
        }
      }
      active := None;
    }

    // The end of cfq_select_queue: the active queue's slice is over and another is chosen.
    // A best-effort queue with requests in flight is chosen again only when no other is on
    // the current list or on any level.
    method ExpireAndSelect(now: nat, graceOver: bool) returns (r: Option<Qid>)
      requires Valid() && active.Some? && queues[active.value].onRr
      modifies this
      ensures Valid() && active == r
      ensures var q := old(active).value;
              Delayed(old(queues)[q]) && r == Some(q) ==>
                forall p :: p != q ==> p !in old(lists.cur) && forall i :: 0 <= i < |old(lists.rr)| ==> p !in old(lists.rr)[i]
    {
      ghost var q, l := active.value, lists;
      SliceExpired(false, now);
      ghost var l1 := lists;
      r := SetActive(graceOver);
      if Delayed(old(queues)[q]) && r == Some(q) { OnlyDelayed(l, l1, q); }
    }

    // cfq_resort_rr_list.
    method Resort(q: Qid, preempted: bool)
      requires Good(State(), {}) && q in queues && queues[q].onRr
      modifies this`lists
      ensures Good(State(), {}) && queues[q].prio < |old(lists).rr|
      ensures State() == Resorted(old(State()), q, preempted)
      ensures |lists.rr| == |old(lists.rr)|
      ensures Placed(lists, q, queues[q]) && OthersStay(old(lists), lists, q)
    {
      ResortedGood(State(), q, preempted, {});
      ResortedPlace(State(), q, preempted);
      var c, l := queues[q], Drop(lists, q);
      var w := Target(c);
      var list := Get(l, w);
      var k := |list|;
      if preempted {
        k := if list == [] then 0 else |list| - 1;
      } else if w != Busy {
        k := Scan(list, c.served);
      }
      lists := Put(l, w, InsertAt(list, k, q));
    }

    method Scan(list: seq<Qid>, served: nat) returns (k: nat)
      ensures k == ScanBack(list, queues, served, |list|) && k <= |list|
    {
      k := |list|;
      while k > 0
        invariant k <= |list| && ScanBack(list, queues, served, k) == ScanBack(list, queues, served, |list|)
      {
        if list[k - 1] !in queues || queues[list[k - 1]].served == 0 || queues[list[k - 1]].served < served {
          break;
        }
        k := k - 1;
      }
    }
  }

  // ----- priority levels

  function BusyLevels(rr: seq<seq<Qid>>): set<nat> { set p: nat | p < |rr| && HasQueues(rr, p) }

  predicate HasQueues(rr: seq<seq<Qid>>, p: nat) { p < |rr| && rr[p] != [] }

  // No queue but idle ones is waiting.
  predicate OnlyIdle(l: RrLists) { l.cur == [] && l.busy == [] && BusyLevels(l.rr) == {} }

  // list_splice_init of a level onto the current list.
  function Spliced(l: RrLists, p: nat): RrLists
    requires p < |l.rr|
  {
    l.(rr := l.rr[p := []], cur := l.rr[p] + l.cur)
  }

  // The search loops of cfq_get_next_prio_level.
  method FindLevel(rr: seq<seq<Qid>>, cur0: nat, end0: nat) returns (prio: int, cur: nat, end: nat)
    requires IsSlot(|rr|, Slot(end0, cur0))
    ensures prio == -1 <==> BusyLevels(rr) == {}
    ensures prio == -1 ==> cur == 0 && end == 0
    ensures prio != -1 ==>
              && BusyLevels(rr) != {} && InRange(|rr|, BusyLevels(rr)) && prio >= 0
              && Search(|rr|, Slot(end0, cur0), BusyLevels(rr)) == Slot(end, prio)
  {
    var n := |rr|;
    ghost var busy, start := BusyLevels(rr), Slot(end0, cur0);
    prio, cur, end := -1, cur0, end0;
    var wrap := false;
    while true
      invariant prio == -1 && IsSlot(n, Slot(end, cur)) && (wrap ==> cur == 0)
      invariant Leads(n, start, Slot(end, cur), busy)
      decreases !wrap, n - end
    {
      var p := cur;
      while p <= end
        invariant cur <= p <= end + 1 && prio == -1
        invariant Leads(n, start, if p <= end then Slot(end, p) else NextSlot(n, Slot(end, end)), busy)
        invariant forall j :: cur <= j < p ==> !HasQueues(rr, j)
      {
        if rr[p] != [] {
          assert HasQueues(rr, p) && p in busy;
          prio := p;
          break;
        }
        assert p !in busy;
        LeadsOn(n, start, Slot(end, p), busy);
        p := p + 1;
      }
      if prio != -1 {
        break;
      }
      cur := 0;
      end := end + 1;
      if end == n {
        end := 0;
        if wrap {
          assert forall j: nat :: j < n ==> !HasQueues(rr, j);
          break;
        }
        wrap := true;
      }
    }
  }

  // The search from either slot ends in the same place.
  ghost predicate Leads(n: nat, from: Slot, to: Slot, busy: set<nat>) {
    && IsSlot(n, from) && IsSlot(n, to)
    && InRange(n, busy) && (busy != {} ==> Search(n, from, busy) == Search(n, to, busy))
  }

  lemma LeadsOn(n: nat, from: Slot, to: Slot, busy: set<nat>)
    requires Leads(n, from, to, busy) && to.prio !in busy
    ensures Leads(n, from, NextSlot(n, to), busy)
  {
  }

  lemma NoneListed(s: Cfq)
    requires s.queues == map[] && s.busyQueues == 0 && s.lists.busy == s.lists.cur == s.lists.idle == []
    requires forall i :: 0 <= i < |s.lists.rr| ==> s.lists.rr[i] == []
    ensures Good(s, {})
  {
    ConcatNone(s.lists.rr);
    assert All(s.lists) == [];
  }

  lemma {:induction false} ConcatNone(ss: seq<seq<Qid>>)
    requires forall i :: 0 <= i < |ss| ==> ss[i] == []
    ensures Concat(ss) == []
  {
    if ss != [] { ConcatNone(ss[1..]); }
  }

  lemma SplicedGood(s: Cfq, p: nat)
    requires Good(s, {}) && p < |s.lists.rr|
    ensures Good(s.(lists := Spliced(s.lists, p)), {})
  {
    var l, l' := s.lists, Spliced(s.lists, p);
    SplicedAll(l, p);
    assert Kept(s, {}, Listed);
    BlockMoved(Concat(l.rr[..p]), l.rr[p], Concat(l.rr[p + 1..]) + l.busy, l.cur + l.idle);
    forall v ensures Kept(s.(lists := l'), {}, v) {
      assert Kept(s, {}, v);
    }
  }

  lemma SplicedAll(l: RrLists, p: nat)
    requires p < |l.rr|
    ensures var a, x, b, c := Concat(l.rr[..p]), l.rr[p], Concat(l.rr[p + 1..]) + l.busy, l.cur + l.idle;
            All(l) == a + x + b + c && All(Spliced(l, p)) == a + b + x + c
  {
    var rr := l.rr[p := []];
    ConcatSplit(l.rr, p);
    ConcatSplit(rr, p);
    assert rr[..p] == l.rr[..p] && rr[p + 1..] == l.rr[p + 1..];
  }

  lemma BlockMoved(a: seq<Qid>, x: seq<Qid>, b: seq<Qid>, c: seq<Qid>)
    requires NoDup(a + x + b + c)
    ensures NoDup(a + b + x + c) && forall q :: q in a + b + x + c <==> q in a + x + b + c
  {
    var s, t := a + x + b + c, a + b + x + c;
    forall i, j | 0 <= i < j < |t| ensures t[i] != t[j] {
      assert t[i] == s[WasAt(|a|, |x|, |b|, i)] && t[j] == s[WasAt(|a|, |x|, |b|, j)];
    }
    assert forall q :: q in t <==> q in a || q in b || q in x || q in c;
    assert forall q :: q in s <==> q in a || q in x || q in b || q in c;
  }

  function WasAt(a: nat, x: nat, b: nat, i: nat): nat {
    if i < a then i else if i < a + b then i + x else if i < a + b + x then i - b else i
  }
}
