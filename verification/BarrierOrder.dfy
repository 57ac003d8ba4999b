/**
  The ordering guarantee of the barrier protocol, over whole runs.  The log of
  every run is ordered: no proxy of a barrier is handed to the driver before
  every request added earlier is finished, and no request is handed out before
  every barrier added earlier has ended.
 */
module BarrierOrder {
  import opened Barrier
  import opened BarrierInvariant

  // ----- the property

  ghost predicate Finished(log: seq<Event>, id: nat) {
    Completed(id) in log || Ended(id) in log || Rejected(id) in log
  }

  ghost predicate WasAdded(log: seq<Event>, id: nat) {
    Added(id, false) in log || Added(id, true) in log
  }

  ghost predicate Closed(log: seq<Event>, id: nat, phase: nat) {
    PhaseDone(id, phase) in log || PhaseSkipped(id, phase) in log
  }

  // What must already have happened when an event happens.
  ghost predicate SafeEvent(log: seq<Event>, e: Event) {
    match e
    case Added(id, _) => forall j: nat, b :: Added(j, b) in log ==> j < id
    case Issued(id) =>
      && !Finished(log, id)
      && (forall j: nat :: j <= id ==> WasAdded(log, j))
      && (forall b: nat :: b < id && Added(b, true) in log ==> Ended(b) in log || Rejected(b) in log)
    case Completed(id) => !Finished(log, id) && Issued(id) in log
    case ProxyIssued(id, phase) =>
      && !Finished(log, id) && Added(id, true) in log
      && DRAIN < phase < DONE && !Closed(log, id, phase)
      && (forall p: nat :: DRAIN <= p < phase ==> Closed(log, id, p))
      && (forall r: nat :: r < id ==> Finished(log, r))
    case Absorbed(id) =>
      && !Finished(log, id)
      && (forall p: nat :: DRAIN <= p < BAR ==> Closed(log, id, p))
      && (forall r: nat :: r < id ==> Finished(log, r))
    // a flush may be skipped only before any phase of the barrier is done
    case PhaseSkipped(id, phase) =>
      && !Finished(log, id)
      && (phase == PREFLUSH || phase == POSTFLUSH) && !Closed(log, id, phase)
      && (forall p: nat :: PhaseDone(id, p) !in log)
    // the drain is done when all is finished, any other phase after its proxy was handed out
    case PhaseDone(id, phase) =>
      && !Finished(log, id)
      && DRAIN <= phase < DONE && !Closed(log, id, phase)
      && (if phase == DRAIN then forall r: nat :: r < id ==> Finished(log, r)
          else ProxyIssued(id, phase) in log || (phase == BAR && Absorbed(id) in log))
    case Ended(id) =>
      && !Finished(log, id)
      && (forall p: nat :: DRAIN <= p < DONE ==> Closed(log, id, p))
      && (forall r: nat :: r < id ==> Finished(log, r))
    // a barrier may be turned away only before its sequence has begun
    case Rejected(id) => !Finished(log, id) && (forall p: nat :: !Closed(log, id, p))
  }

  ghost predicate LogOrdered(log: seq<Event>) {
    forall i :: 0 <= i < |log| ==> SafeEvent(log[..i], log[i])
  }

  lemma LogAppend(log: seq<Event>, e: Event)
    requires LogOrdered(log) && SafeEvent(log, e)
    ensures LogOrdered(log + [e])
  {
    var log' := log + [e];
    forall i | 0 <= i < |log'| ensures SafeEvent(log'[..i], log'[i]) {
      if i < |log| {
        assert log'[..i] == log[..i];
      } else {
        assert log'[..i] == log;
      }
    }
  }

  // ----- generations and identities

  // The number of barriers added before request i.
  function GenOf(added: seq<bool>, i: nat): nat
    requires i <= |added|
  {
    if i == 0 then 0 else GenOf(added, i - 1) + if added[i - 1] then 1 else 0
  }

  lemma {:induction false} GenMonotone(added: seq<bool>, i: nat, j: nat)
    requires i <= j <= |added|
    ensures GenOf(added, i) <= GenOf(added, j)
    ensures i < j && added[i] ==> GenOf(added, i) < GenOf(added, j)
    decreases j
  {
    if i < j { GenMonotone(added, i, j - 1); }
  }

  lemma {:induction false} GenExtend(added: seq<bool>, b: bool, i: nat)
    requires i <= |added|
    ensures GenOf(added + [b], i) == GenOf(added, i)
  {
    if i > 0 { GenExtend(added, b, i - 1); }
  }

  ghost predicate Tagged(added: seq<bool>, r: Request) {
    r.id < |added| && added[r.id] == r.barrier && GenOf(added, r.id) == r.gen
  }

  ghost predicate AllTagged(added: seq<bool>, s: seq<Request>) {
    forall r :: r in s && r.kind == Fs ==> Tagged(added, r)
  }

  ghost predicate TagInv(q: Queue) {
    && AllTagged(q.added, q.head) && AllTagged(q.added, q.sched) && AllTagged(q.added, q.driver)
    && (Sequencing(q) ==> Tagged(q.added, q.orig))
    && GenOf(q.added, |q.added|) == q.epochs
  }

  // ----- conservation: every added request is in one place until it is finished

  function Ids(s: seq<Request>): multiset<nat> {
    if s == [] then multiset{}
    else (if s[0].kind == Fs then multiset{s[0].id} else multiset{}) + Ids(s[1..])
  }

  function Pending(q: Queue): multiset<nat> {
    Ids(q.head) + Ids(q.sched) + Ids(q.driver)
    + if Sequencing(q) then multiset{q.orig.id} else multiset{}
  }

  ghost predicate ConserveInv(q: Queue) {
    forall id: nat :: Pending(q)[id] == if id < |q.added| && !Finished(q.log, id) then 1 else 0
  }

  function IdOf(r: Request): multiset<nat> {
    if r.kind == Fs then multiset{r.id} else multiset{}
  }

  lemma {:induction false} IdsConcat(a: seq<Request>, b: seq<Request>)
    ensures Ids(a + b) == Ids(a) + Ids(b)
  {
    if a == [] {
      assert a + b == b;
    } else {
      var t := a[1..];
      IdsConcat(t, b);
      assert a + b == [a[0]] + (t + b);
      IdsHead(a + b);
      IdsHead(a);
    }
  }

  lemma IdsOne(r: Request)
    ensures Ids([r]) == IdOf(r)
  {
    assert [r][1..] == [];
  }

  lemma IdsInsert(s: seq<Request>, k: nat, r: Request)
    requires k <= |s|
    ensures Ids(InsertAt(s, k, r)) == Ids(s) + IdOf(r)
  {
    assert s == s[..k] + s[k..];
    IdsConcat(s[..k], s[k..]);
    IdsConcat(s[..k], [r]);
    IdsConcat(s[..k] + [r], s[k..]);
    IdsOne(r);
  }

  lemma {:induction false} IdsRemove(s: seq<Request>, i: nat)
    requires i < |s|
    ensures Ids(s) == Ids(RemoveAt(s, i)) + IdOf(s[i])
    decreases i
  {
    if i == 0 {
      assert RemoveAt(s, 0) == s[1..];
      IdsHead(s);
    } else {
      var t := s[1..];
      IdsRemove(t, i - 1);
      var u := RemoveAt(s, i);
      assert u[0] == s[0] && u[1..] == RemoveAt(t, i - 1);
      IdsHead(s);
      IdsHead(u);
    }
  }

  lemma IdsHead(s: seq<Request>)
    requires s != []
    ensures Ids(s) == IdOf(s[0]) + Ids(s[1..])
  {
  }

  lemma {:induction false} IdsMember(s: seq<Request>, id: nat) returns (r: Request)
    requires Ids(s)[id] > 0
    ensures r in s && r.kind == Fs && r.id == id
  {
    if s[0].kind == Fs && s[0].id == id {
      r := s[0];
    } else {
      r := IdsMember(s[1..], id);
    }
  }

  lemma {:induction false} MemberIds(s: seq<Request>, r: Request)
    requires r in s && r.kind == Fs
    ensures Ids(s)[r.id] > 0
  {
    if s[0] != r {
      MemberIds(s[1..], r);
    }
  }

  // ----- what the log says about the state

  ghost predicate LogInv(q: Queue) {
    && (forall id: nat, b :: Added(id, b) in q.log <==> id < |q.added| && q.added[id] == b)
    && (forall id: nat :: Completed(id) in q.log ==> id < |q.added| && !q.added[id])
    && (forall id: nat :: Ended(id) in q.log || Rejected(id) in q.log ==> id < |q.added| && q.added[id])
    && (forall id: nat, p: nat :: Closed(q.log, id, p) ==>
          Finished(q.log, id) || (Sequencing(q) && id == q.orig.id && p in q.ordseq))
    && (Sequencing(q) ==>
          forall p :: p in q.ordseq && DRAIN <= p < DONE ==> Closed(q.log, q.orig.id, p))
    && HandedLogged(q, q.head) && HandedLogged(q, q.driver)
  }

  ghost predicate HandedLogged(q: Queue, s: seq<Request>) {
    forall r :: r in s && r.started ==>
      && (r.kind == Fs ==> Issued(r.id) in q.log)
      && (r.kind != Fs ==> ProxyIssued(q.orig.id, PhaseOf(r.kind)) in q.log)
  }

  ghost predicate HistoryInv(q: Queue) {
    TagInv(q) && ConserveInv(q) && LogInv(q) && LogOrdered(q.log)
  }

  lemma InAppended(log: seq<Event>, e: Event)
    ensures forall x :: x in log + [e] <==> x in log || x == e
    ensures forall id: nat :: Finished(log + [e], id) <==>
              Finished(log, id) || e == Completed(id) || e == Ended(id) || e == Rejected(id)
  {
    assert forall x :: x in log + [e] <==> x in log || x == e;
  }

  lemma ClosedAppended(log: seq<Event>, e: Event)
    ensures forall id: nat, p: nat :: Closed(log + [e], id, p) <==>
              Closed(log, id, p) || e == PhaseDone(id, p) || e == PhaseSkipped(id, p)
  {
    assert forall x :: x in log + [e] <==> x in log || x == e;
  }

  ghost predicate OnlyAddedFinish(q: Queue) {
    forall id: nat :: Finished(q.log, id) ==> id < |q.added|
  }

  // ----- consequences used at the moments that matter

  // A request pending somewhere has its generation bounded below by the epoch.
  lemma PendingGen(q: Queue, id: nat)
    requires ShapeInv(q) && TagInv(q) && Pending(q)[id] > 0
    ensures id < |q.added| && GenOf(q.added, id) >= q.epoch
    ensures q.added[id] && id != q.orig.id ==> GenOf(q.added, id) >= FirstGen(q)
  {
    if Ids(q.head)[id] > 0 {
      var r := IdsMember(q.head, id);
      assert HeadShape(q, r);
    } else if Ids(q.sched)[id] > 0 {
      var r := IdsMember(q.sched, id);
      assert SchedShape(q, r);
    } else if Ids(q.driver)[id] > 0 {
      var r := IdsMember(q.driver, id);
      assert DriverShape(q, r);
    }
  }

  // When an fs request of the current epoch is handed out, every barrier added
  // before it has ended.
  lemma EarlierBarriersEnded(q: Queue, r: Request)
    requires ProtocolInv(q) && HistoryInv(q)
    requires Tagged(q.added, r) && r.gen == q.epoch
    ensures forall b: nat :: b < r.id && Added(b, true) in q.log ==> Ended(b) in q.log || Rejected(b) in q.log
  {
    forall b: nat | b < r.id && Added(b, true) in q.log
      ensures Ended(b) in q.log || Rejected(b) in q.log
    {
      GenMonotone(q.added, b, r.id);
      if Pending(q)[b] > 0 { PendingGen(q, b); }
    }
  }

  // When nothing of the barrier's generation is left in the queue or with the
  // driver, everything added before the barrier is finished.
  lemma EarlierFinished(q: Queue)
    requires TagInv(q) && ConserveInv(q) && Sequencing(q)
    requires forall r :: (r in q.head && r.kind == Fs) || r in q.sched ==> r.gen > q.orig.gen
    requires forall r :: r in q.driver ==> r.kind != Fs
    ensures forall r: nat :: r < q.orig.id ==> Finished(q.log, r)
  {
    forall r: nat | r < q.orig.id ensures Finished(q.log, r) {
      GenMonotone(q.added, r, q.orig.id);
      if Ids(q.head)[r] > 0 {
        var x := IdsMember(q.head, r);
      } else if Ids(q.sched)[r] > 0 {
        var x := IdsMember(q.sched, r);
      } else if Ids(q.driver)[r] > 0 {
        var x := IdsMember(q.driver, r);
      } else {
        assert Pending(q)[r] == 0;
      }
    }
  }

  lemma LaterSched(q: Queue)
    requires ShapeInv(q) && Sequencing(q)
    ensures q.orig.gen == q.epoch && forall r :: r in q.sched ==> r.gen > q.orig.gen
  {
    assert forall r :: r in q.sched ==> SchedShape(q, r);
  }

  // ----- each step keeps the history

  // `q2` is `q` with request r added.
  ghost predicate AddedTo(q: Queue, q2: Queue, r: Request) {
    && r == NewRequest(q, r.barrier, r.empty, r.soft, r.sector)
    && q2.added == q.added + [r.barrier] && q2.log == q.log + [Added(|q.added|, r.barrier)]
    && q2.epochs == q.epochs + (if r.barrier then 1 else 0)
    && q2.ordseq == q.ordseq && q2.orig == q.orig && q2.driver == q.driver
    && ((q2.head == q.head + [r] && q2.sched == q.sched) ||
        (q2.head == q.head && q2.sched == q.sched + [r]))
  }

  lemma TaggedExtend(added: seq<bool>, b: bool, s: seq<Request>)
    requires AllTagged(added, s)
    ensures AllTagged(added + [b], s)
  {
    forall r | r in s && r.kind == Fs ensures Tagged(added + [b], r) {
      GenExtend(added, b, r.id);
    }
  }

  lemma AddTags(q: Queue, q2: Queue, r: Request)
    requires ProtocolInv(q) && TagInv(q) && AddedTo(q, q2, r)
    ensures TagInv(q2)
  {
    TaggedExtend(q.added, r.barrier, q.head);
    TaggedExtend(q.added, r.barrier, q.sched);
    TaggedExtend(q.added, r.barrier, q.driver);
    GenExtend(q.added, r.barrier, |q.added|);
    if Sequencing(q) { GenExtend(q.added, r.barrier, q.orig.id); }
    assert Tagged(q2.added, r);
    assert forall x :: x in q2.head ==> x in q.head || x == r;
    assert forall x :: x in q2.sched ==> x in q.sched || x == r;
  }

  lemma AddPending(q: Queue, q2: Queue, r: Request)
    requires AddedTo(q, q2, r)
    ensures Pending(q2) == Pending(q) + multiset{|q.added|}
  {
    IdsConcat(q.head, [r]);
    IdsConcat(q.sched, [r]);
    IdsOne(r);
  }

  lemma AddConserves(q: Queue, q2: Queue, r: Request)
    requires ConserveInv(q) && OnlyAddedFinish(q) && AddedTo(q, q2, r)
    ensures ConserveInv(q2)
  {
    AddPending(q, q2, r);
    InAppended(q.log, Added(|q.added|, r.barrier));
    ConserveMore(q, q2);
  }

  lemma ConserveMore(q: Queue, q2: Queue)
    requires ConserveInv(q) && OnlyAddedFinish(q) && Pending(q2) == Pending(q) + multiset{|q.added|}
    requires |q2.added| == |q.added| + 1 && forall id: nat :: Finished(q2.log, id) <==> Finished(q.log, id)
    ensures ConserveInv(q2)
  {
    forall id: nat
      ensures Pending(q2)[id] == if id < |q2.added| && !Finished(q2.log, id) then 1 else 0
    {
      assert Pending(q)[id] == if id < |q.added| && !Finished(q.log, id) then 1 else 0;
    }
  }

  lemma AddHanded(q: Queue, q2: Queue, r: Request)
    requires HandedLogged(q, q.head) && HandedLogged(q, q.driver) && AddedTo(q, q2, r) && !r.started
    ensures HandedLogged(q2, q2.head) && HandedLogged(q2, q2.driver)
  {
    assert forall x :: x in q2.head ==> x in q.head || x == r;
    assert forall e :: e in q.log ==> e in q2.log;
  }

  lemma AddLogs(q: Queue, q2: Queue, r: Request)
    requires LogInv(q) && AddedTo(q, q2, r) && !r.started
    ensures LogInv(q2)
  {
    InAppended(q.log, Added(|q.added|, r.barrier));
    ClosedAppended(q.log, Added(|q.added|, r.barrier));
    AddHanded(q, q2, r);
  }

  lemma AddKeeps(q: Queue, q2: Queue, r: Request)
    requires ProtocolInv(q) && HistoryInv(q) && AddedTo(q, q2, r)
    ensures HistoryInv(q2)
  {
    AddTags(q, q2, r);
    AddConserves(q, q2, r);
    AddLogs(q, q2, r);
    LogAppend(q.log, Added(|q.added|, r.barrier));
  }

  // Moving requests between the lists changes neither the log nor what is pending.
  ghost predicate Moved(q: Queue, q2: Queue) {
    && q2.added == q.added && q2.log == q.log && q2.epochs == q.epochs
    && q2.ordseq == q.ordseq && q2.orig == q.orig
    && Pending(q2) == Pending(q)
    && AllTagged(q.added, q2.head) && AllTagged(q.added, q2.sched) && AllTagged(q.added, q2.driver)
    && HandedLogged(q, q2.head) && HandedLogged(q, q2.driver)
  }

  lemma MoveKeeps(q: Queue, q2: Queue)
    requires HistoryInv(q) && Moved(q, q2)
    ensures HistoryInv(q2)
  {
  }

  lemma DispatchPending(q: Queue, i: nat, k: nat)
    requires i < |q.sched| && k <= |q.head|
    ensures Pending(Dispatch(q, i, k)) == Pending(q)
  {
    IdsInsert(q.head, k, q.sched[i]);
    IdsRemove(q.sched, i);
  }

  lemma DispatchHistory(q: Queue, i: nat, k: nat)
    requires HistoryInv(q) && i < |q.sched| && k <= |q.head| && !q.sched[i].started
    ensures HistoryInv(Dispatch(q, i, k))
  {
    DispatchPending(q, i, k);
    InsertMembers(q.head, k, q.sched[i]);
    RemoveMembers(q.sched, i);
    MoveKeeps(q, Dispatch(q, i, k));
  }

  lemma DequeuePending(q: Queue, i: nat)
    requires i < |q.head|
    ensures Pending(Dequeue(q, i)) == Pending(q)
  {
    IdsRemove(q.head, i);
    IdsConcat(q.driver, [q.head[i]]);
    IdsOne(q.head[i]);
  }

  lemma DequeueHistory(q: Queue, i: nat)
    requires HistoryInv(q) && i < |q.head|
    ensures HistoryInv(Dequeue(q, i))
  {
    var q2, r := Dequeue(q, i), q.head[i];
    DequeuePending(q, i);
    RemoveMembers(q.head, i);
    assert forall x :: x in q2.driver ==> x in q.driver || x == r;
    MoveKeeps(q, q2);
  }

  lemma RequeuePending(q: Queue, i: nat)
    requires i < |q.driver| && (Accounted(q.driver[i]) ==> q.inFlight > 0)
    ensures Pending(Requeue(q, i)) == Pending(q)
  {
    var x := q.driver[i].(started := false, soft := true);
    var k := if Sequencing(q) then FirstAtLeast(q, q.head, ReqSeq(q, x)) else 0;
    IdsInsert(q.head, k, x);
    IdsRemove(q.driver, i);
  }

  lemma RequeueHistory(q: Queue, i: nat)
    requires HistoryInv(q) && i < |q.driver| && (Accounted(q.driver[i]) ==> q.inFlight > 0)
    ensures HistoryInv(Requeue(q, i))
  {
    var q2, r := Requeue(q, i), q.driver[i];
    var x := r.(started := false, soft := true);
    var k := if Sequencing(q) then FirstAtLeast(q, q.head, ReqSeq(q, x)) else 0;
    RequeuePending(q, i);
    InsertMembers(q.head, k, x);
    RemoveMembers(q.driver, i);
    assert r.kind == Fs ==> Tagged(q.added, x);
    MoveKeeps(q, q2);
  }

  // An event that finishes nothing leaves conservation alone.
  lemma ConserveSame(q: Queue, q2: Queue)
    requires ConserveInv(q) && Pending(q2) == Pending(q) && q2.added == q.added
    requires forall id: nat :: Finished(q2.log, id) <==> Finished(q.log, id)
    ensures ConserveInv(q2)
  {
    forall id: nat
      ensures Pending(q2)[id] == if id < |q2.added| && !Finished(q2.log, id) then 1 else 0
    {
      assert Pending(q)[id] == if id < |q.added| && !Finished(q.log, id) then 1 else 0;
    }
  }

  // An event that finishes one pending request takes it out of what is pending.
  lemma ConserveFinish(q: Queue, q2: Queue, done: nat)
    requires ConserveInv(q) && Pending(q) == Pending(q2) + multiset{done} && q2.added == q.added
    requires forall id: nat :: Finished(q2.log, id) <==> Finished(q.log, id) || id == done
    ensures ConserveInv(q2)
    ensures !Finished(q.log, done) && done < |q.added|
  {
    assert Pending(q)[done] > 0;
    forall id: nat
      ensures Pending(q2)[id] == if id < |q2.added| && !Finished(q2.log, id) then 1 else 0
    {
      assert Pending(q)[id] == if id < |q.added| && !Finished(q.log, id) then 1 else 0;
    }
  }

  // Handing out the head.

  function HandOutEvent(r: Request): Event {
    if r.kind == Fs then Issued(r.id) else ProxyIssued(r.id, PhaseOf(r.kind))
  }

  lemma IssueIsSafe(q: Queue)
    requires ProtocolInv(q) && HistoryInv(q) && Ready(q) && q.head[0].kind == Fs
    ensures SafeEvent(q.log, Issued(q.head[0].id))
  {
    var r := q.head[0];
    HandedIsCurrent(q);
    MemberIds(q.head, r);
    assert Pending(q)[r.id] > 0;
    EarlierBarriersEnded(q, r);
  }

  // While a sequence runs past its drain phase, all that came before the barrier is finished.
  lemma DrainedFinished(q: Queue)
    requires ProtocolInv(q) && TagInv(q) && ConserveInv(q) && Sequencing(q) && CurSeq(q.ordseq) != DRAIN
    ensures forall r: nat :: r < q.orig.id ==> Finished(q.log, r)
    ensures !Finished(q.log, q.orig.id)
  {
    assert forall r :: r in q.driver ==> r.kind != Fs;
    LaterSched(q);
    EarlierFinished(q);
    assert Pending(q)[q.orig.id] > 0;
  }

  lemma ProxyIsSafe(q: Queue)
    requires ProtocolInv(q) && HistoryInv(q) && Ready(q) && q.head[0].kind != Fs
    ensures SafeEvent(q.log, HandOutEvent(q.head[0]))
    ensures q.head[0].id == q.orig.id && Sequencing(q)
    ensures forall p: nat :: DRAIN <= p < PhaseOf(q.head[0].kind) ==> Closed(q.log, q.orig.id, p)
  {
    var r := q.head[0];
    HandedIsCurrent(q);
    assert HeadShape(q, r);
    DrainedFinished(q);
    ClosedPhases(q);
  }

  // The bits below the current one are set, and each was logged.
  lemma ClosedPhases(q: Queue)
    requires LogInv(q) && Sequencing(q)
    ensures forall p: nat :: DRAIN <= p < CurSeq(q.ordseq) ==> Closed(q.log, q.orig.id, p)
    ensures !Finished(q.log, q.orig.id) && CurSeq(q.ordseq) != DONE ==>
              !Closed(q.log, q.orig.id, CurSeq(q.ordseq))
  {
    forall p: nat | DRAIN <= p < CurSeq(q.ordseq) ensures Closed(q.log, q.orig.id, p) {
      assert p in q.ordseq;
    }
  }

  lemma HandOutPending(q: Queue)
    requires q.head != []
    ensures Pending(HandOut(q)) == Pending(q)
  {
    IdsHead(q.head);
    IdsHead(HandOut(q).head);
    assert HandOut(q).head[1..] == q.head[1..];
  }

  lemma HandOutLog(q: Queue)
    requires LogInv(q) && q.head != [] && (q.head[0].kind != Fs ==> q.head[0].id == q.orig.id)
    ensures LogInv(HandOut(q))
    ensures forall id: nat :: Finished(HandOut(q).log, id) <==> Finished(q.log, id)
  {
    InAppended(q.log, HandOutEvent(q.head[0]));
    ClosedAppended(q.log, HandOutEvent(q.head[0]));
    assert forall x :: x in HandOut(q).head ==> x in q.head || x == q.head[0].(started := true);
  }

  lemma HandOutTags(q: Queue)
    requires TagInv(q) && q.head != []
    ensures TagInv(HandOut(q))
  {
    assert q.head[0] in q.head;
    assert forall x :: x in HandOut(q).head ==> x in q.head || x == q.head[0].(started := true);
  }

  lemma HandOutHistory(q: Queue)
    requires ProtocolInv(q) && HistoryInv(q) && Ready(q)
    ensures HistoryInv(HandOut(q))
  {
    if q.head[0].kind == Fs { IssueIsSafe(q); } else { ProxyIsSafe(q); }
    LogAppend(q.log, HandOutEvent(q.head[0]));
    HandOutTags(q);
    HandOutLog(q);
    HandOutPending(q);
    ConserveSame(q, HandOut(q));
  }

  // Completing a request.

  function Logged(q: Queue, e: Event): Queue { q.(log := q.log + [e]) }

  lemma UndrivenPending(q: Queue, i: nat)
    requires i < |q.driver| && CompletionSafe(q, i)
    ensures Pending(q) == Pending(Undriven(q, i)) + IdOf(q.driver[i])
  {
    IdsRemove(q.driver, i);
  }

  lemma UndrivenLog(q: Queue, i: nat)
    requires LogInv(q) && TagInv(q) && i < |q.driver| && CompletionSafe(q, i)
    ensures LogInv(Undriven(q, i)) && TagInv(Undriven(q, i))
  {
    RemoveMembers(q.driver, i);
  }

  lemma CompletedLog(q: Queue, id: nat)
    requires LogInv(q) && id < |q.added| && !q.added[id]
    ensures LogInv(Logged(q, Completed(id)))
  {
    InAppended(q.log, Completed(id));
    ClosedAppended(q.log, Completed(id));
  }

  lemma CompletedHistory(q: Queue, i: nat)
    requires HistoryInv(q) && i < |q.driver| && CompletionSafe(q, i)
    requires Ordinary(q.driver[i]) && q.driver[i].started
    ensures HistoryInv(Logged(Undriven(q, i), Completed(q.driver[i].id)))
  {
    var r, q1 := q.driver[i], Undriven(q, i);
    IssuedBefore(q, r);
    UndrivenLog(q, i);
    CompletedLog(q1, r.id);
    CompletedConserves(q, i);
    CompletedEvent(q.log, r.id);
  }

  lemma CompletedConserves(q: Queue, i: nat)
    requires ConserveInv(q) && i < |q.driver| && CompletionSafe(q, i) && q.driver[i].kind == Fs
    ensures ConserveInv(Logged(Undriven(q, i), Completed(q.driver[i].id))) && !Finished(q.log, q.driver[i].id)
  {
    UndrivenPending(q, i);
    InAppended(q.log, Completed(q.driver[i].id));
    ConserveFinish(q, Logged(Undriven(q, i), Completed(q.driver[i].id)), q.driver[i].id);
  }

  lemma IssuedBefore(q: Queue, r: Request)
    requires LogInv(q) && TagInv(q) && r in q.driver && r.started && Ordinary(r)
    ensures Issued(r.id) in q.log
    ensures r.id < |q.added| && !q.added[r.id]
  {
  }

  lemma CompletedEvent(log: seq<Event>, id: nat)
    requires LogOrdered(log) && !Finished(log, id) && Issued(id) in log
    ensures LogOrdered(log + [Completed(id)])
  {
    LogAppend(log, Completed(id));
  }

  lemma UndrivenHistory(q: Queue, i: nat)
    requires HistoryInv(q) && i < |q.driver| && CompletionSafe(q, i) && q.driver[i].kind != Fs
    ensures HistoryInv(Undriven(q, i))
  {
    RemoveMembers(q.driver, i);
    UndrivenPending(q, i);
    MoveKeeps(q, Undriven(q, i));
  }

  // Ending a phase, and with the last phase the barrier.

  // What a phase waits for.
  ghost predicate PhaseDue(q: Queue, phase: nat) {
    if phase == DRAIN then forall r: nat :: r < q.orig.id ==> Finished(q.log, r)
    else ProxyIssued(q.orig.id, phase) in q.log || (phase == BAR && Absorbed(q.orig.id) in q.log)
  }

  lemma PhaseLog(q: Queue, phase: nat)
    requires LogInv(q) && Sequencing(q)
    ensures LogInv(PhaseSet(q, phase))
    ensures forall id: nat :: Finished(PhaseSet(q, phase).log, id) <==> Finished(q.log, id)
  {
    InAppended(q.log, PhaseDone(q.orig.id, phase));
    ClosedAppended(q.log, PhaseDone(q.orig.id, phase));
  }

  lemma PhaseHistory(q: Queue, phase: nat)
    requires HistoryInv(q) && Sequencing(q) && PhaseDue(q, phase)
    requires phase !in q.ordseq && DRAIN <= phase < DONE
    ensures HistoryInv(PhaseSet(q, phase))
  {
    assert Pending(q)[q.orig.id] > 0;
    LogAppend(q.log, PhaseDone(q.orig.id, phase));
    PhaseLog(q, phase);
    ConserveSame(q, PhaseSet(q, phase));
  }

  lemma EndLog(q: Queue)
    requires LogInv(q) && Sequencing(q) && Tagged(q.added, q.orig) && q.orig.barrier
    requires q.driver == [] && forall r :: r in q.head ==> !r.started
    ensures LogInv(SequenceOver(q))
  {
    InAppended(q.log, Ended(q.orig.id));
    ClosedAppended(q.log, Ended(q.orig.id));
  }

  lemma EndHistory(q: Queue)
    requires HistoryInv(q) && Sequencing(q) && ShapeInv(q) && CurSeq(q.ordseq) == DONE
    requires q.driver == [] && forall r :: r in q.head ==> !r.started
    requires forall r :: r in q.head && r.kind == Fs ==> r.gen > q.epoch
    ensures HistoryInv(SequenceOver(q))
  {
    var q2, b := SequenceOver(q), q.orig.id;
    EndLog(q);
    InAppended(q.log, Ended(b));
    ConserveFinish(q, q2, b);
    LaterSched(q);
    EarlierFinished(q);
    ClosedPhases(q);
    LogAppend(q.log, Ended(b));
  }

  lemma EndAfterPhase(q: Queue, phase: nat)
    requires PhaseEmpty(q, phase) && HistoryInv(PhaseSet(q, phase))
    requires CurSeq(q.ordseq + {phase}) == DONE
    ensures HistoryInv(SequenceOver(PhaseSet(q, phase)))
  {
    PhaseShape(q, phase);
    EndHistory(PhaseSet(q, phase));
  }

  lemma CompleteSeqHistory(q: Queue, phase: nat)
    requires HistoryInv(q) && PhaseEmpty(q, phase) && PhaseDue(q, phase)
    ensures HistoryInv(CompleteSeq(q, phase))
  {
    PhaseHistory(q, phase);
    if CurSeq(q.ordseq + {phase}) == DONE { EndAfterPhase(q, phase); }
  }

  lemma PhaseShape(q: Queue, phase: nat)
    requires PhaseEmpty(q, phase)
    ensures ShapeInv(PhaseSet(q, phase)) && Sequencing(PhaseSet(q, phase))
  {
    var q1 := PhaseSet(q, phase);
    assert forall r :: HeadShape(q, r) <==> HeadShape(q1, r);
    assert forall r :: SchedShape(q, r) <==> SchedShape(q1, r);
  }

  // Starting a sequence: the skipped phases are logged at once.
  lemma StartPending(q: Queue)
    requires !Sequencing(q) && q.head != [] && q.head[0].kind == Fs && q.nextOrdered.Draining?
    ensures Pending(StartOrdered(q)) == Pending(q)
  {
    var p := Proxies(q.head[0], q.nextOrdered);
    IdsHead(q.head);
    IdsConcat(p, q.head[1..]);
    ProxyIds(p);
  }

  lemma {:induction false} ProxyIds(s: seq<Request>)
    requires forall r :: r in s ==> r.kind != Fs
    ensures Ids(s) == multiset{}
  {
    if s != [] {
      ProxyIds(s[1..]);
    }
  }

  // The sequence as started, before any phase is marked as skipped.
  function StartBare(q: Queue): Queue
    requires q.head != [] && q.nextOrdered.Draining?
  {
    q.(orig := q.head[0], head := Proxies(q.head[0], q.nextOrdered) + q.head[1..], ordseq := {STARTED})
  }

  function Skip(q: Queue, phase: nat): Queue {
    q.(ordseq := q.ordseq + {phase}, log := q.log + [PhaseSkipped(q.orig.id, phase)])
  }

  function SkipIf(q: Queue, phase: nat, skip: bool): Queue {
    if skip then Skip(q, phase) else q
  }

  // The sequence with the flushes that the queue does not need skipped.
  function StartFlushes(q: Queue): Queue
    requires q.head != [] && q.nextOrdered.Draining?
  {
    var mode, orig := q.nextOrdered, q.head[0];
    SkipIf(SkipIf(StartBare(q), POSTFLUSH, !(mode.postflush && !orig.empty)), PREFLUSH, !mode.preflush)
  }

  lemma StartInSteps(q: Queue)
    requires q.head != [] && q.nextOrdered.Draining?
    ensures StartOrdered(q) == if q.inFlight == 0 then PhaseSet(StartFlushes(q), DRAIN) else StartFlushes(q)
  {
    var q1 := if q.inFlight == 0 then PhaseSet(StartFlushes(q), DRAIN) else StartFlushes(q);
    assert q1.ordseq == StartOrdered(q).ordseq;
    assert q1.log == StartOrdered(q).log;
  }

  lemma StartBareHistory(q: Queue)
    requires HistoryInv(q) && !Sequencing(q) && q.head != [] && q.nextOrdered.Draining?
    requires q.head[0].kind == Fs && q.head[0].barrier
    requires forall r :: r in q.head || r in q.driver ==> r.kind == Fs
    ensures HistoryInv(StartBare(q))
  {
    var q2, orig := StartBare(q), q.head[0];
    assert q2.head == StartOrdered(q).head && q2.orig == StartOrdered(q).orig;
    StartPending(q);
    ProxiesShape(orig, q.nextOrdered);
    assert Pending(q2) == Pending(q);
    assert Tagged(q.added, orig);
    assert forall r :: r in q2.head && r.kind == Fs ==> r in q.head;
    assert forall r :: r in q2.head && r.started ==> r in q.head;
    StartBareLog(q);
    ConserveSame(q, q2);
  }

  lemma StartBareLog(q: Queue)
    requires LogInv(q) && !Sequencing(q) && q.head != [] && q.nextOrdered.Draining?
    requires forall r :: r in q.head || r in q.driver ==> r.kind == Fs
    requires forall r :: r in StartBare(q).head && r.started ==> r in q.head
    ensures LogInv(StartBare(q))
  {
  }

  lemma StartHistory(q: Queue)
    requires ProtocolInv(q) && HistoryInv(q) && !Sequencing(q)
    requires q.head != [] && q.head[0].barrier && q.nextOrdered.Draining?
    ensures HistoryInv(StartOrdered(q))
  {
    IdleKinds(q);
    StartBareHistory(q);
    NotBegun(q);
    SkipHistory(q);
    StartInSteps(q);
    if q.inFlight == 0 {
      StartDrained(q);
      PhaseHistory(StartFlushes(q), DRAIN);
    }
  }

  lemma NotBegun(q: Queue)
    requires HistoryInv(q) && !Sequencing(q) && q.head != [] && q.head[0].kind == Fs
    ensures !Finished(q.log, q.head[0].id)
    ensures forall p: nat :: !Closed(q.log, q.head[0].id, p) && PhaseDone(q.head[0].id, p) !in q.log
  {
    MemberIds(q.head, q.head[0]);
    assert Pending(q)[q.head[0].id] > 0;
    forall p: nat ensures !Closed(q.log, q.head[0].id, p) && PhaseDone(q.head[0].id, p) !in q.log {
      assert !Closed(q.log, q.head[0].id, p);
    }
  }

  // With nothing in flight, all that came before the barrier is finished when it starts.
  lemma StartDrained(q: Queue)
    requires ProtocolInv(q) && !Sequencing(q) && q.inFlight == 0
    requires q.head != [] && q.head[0].barrier && q.nextOrdered.Draining? && HistoryInv(StartFlushes(q))
    ensures PhaseDue(StartFlushes(q), DRAIN)
  {
    var q1 := StartFlushes(q);
    BehindBarrier(q);
    IdleDriver(q);
    ProxiesShape(q.head[0], q.nextOrdered);
    assert q1.head == Proxies(q.head[0], q.nextOrdered) + q.head[1..] && q1.orig == q.head[0];
    assert forall r :: r in q.sched ==> SchedShape(q, r);
    EarlierFinished(q1);
  }

  lemma IdleKinds(q: Queue)
    requires ShapeInv(q) && !Sequencing(q)
    ensures forall r :: r in q.head || r in q.driver ==> r.kind == Fs
    ensures q.head != [] ==> q.head[0].kind == Fs
  {
    assert forall r :: r in q.head ==> HeadShape(q, r);
    assert forall r :: r in q.driver ==> DriverShape(q, r);
    FirstIn(q.head);
  }

  lemma SkipHistory(q: Queue)
    requires q.head != [] && q.nextOrdered.Draining? && HistoryInv(StartBare(q))
    requires forall p: nat :: PhaseDone(q.head[0].id, p) !in q.log
    ensures HistoryInv(StartFlushes(q))
    ensures Sequencing(StartFlushes(q)) && DRAIN !in StartFlushes(q).ordseq
  {
    var mode, orig := q.nextOrdered, q.head[0];
    var post := !(mode.postflush && !orig.empty);
    SkipIfHistory(StartBare(q), POSTFLUSH, post);
    SkipIfHistory(SkipIf(StartBare(q), POSTFLUSH, post), PREFLUSH, !mode.preflush);
  }

  lemma SkipIfHistory(q: Queue, phase: nat, skip: bool)
    requires HistoryInv(q) && Sequencing(q) && phase !in q.ordseq && (phase == PREFLUSH || phase == POSTFLUSH)
    requires forall p: nat :: PhaseDone(q.orig.id, p) !in q.log
    ensures HistoryInv(SkipIf(q, phase, skip)) && Sequencing(SkipIf(q, phase, skip))
    ensures SkipIf(q, phase, skip).ordseq <= q.ordseq + {phase} && SkipIf(q, phase, skip).orig == q.orig
    ensures forall p: nat :: PhaseDone(q.orig.id, p) !in SkipIf(q, phase, skip).log
  {
    if skip {
      assert Pending(q)[q.orig.id] > 0;
      LogAppend(q.log, PhaseSkipped(q.orig.id, phase));
      SkipLog(q, phase);
      ConserveSame(q, Skip(q, phase));
    }
  }

  lemma SkipLog(q: Queue, phase: nat)
    requires LogInv(q) && Sequencing(q)
    ensures LogInv(Skip(q, phase))
    ensures forall id: nat :: Finished(Skip(q, phase).log, id) <==> Finished(q.log, id)
    ensures forall id: nat, p: nat :: PhaseDone(id, p) in Skip(q, phase).log <==> PhaseDone(id, p) in q.log
  {
    InAppended(q.log, PhaseSkipped(q.orig.id, phase));
    ClosedAppended(q.log, PhaseSkipped(q.orig.id, phase));
  }

  // Turning a barrier away.

  function DropHead(q: Queue): Queue
    requires q.head != []
  {
    q.(head := q.head[1..])
  }

  lemma DropHeadLog(q: Queue)
    requires LogInv(q) && TagInv(q) && q.head != []
    ensures LogInv(DropHead(q)) && TagInv(DropHead(q))
  {
    assert forall r :: r in q.head[1..] ==> r in q.head;
  }

  lemma RejectedLog(q: Queue, id: nat)
    requires LogInv(q) && id < |q.added| && q.added[id]
    ensures LogInv(Logged(q, Rejected(id)))
  {
    InAppended(q.log, Rejected(id));
    ClosedAppended(q.log, Rejected(id));
  }

  lemma RejectLogs(q: Queue)
    requires LogInv(q) && TagInv(q) && q.head != [] && q.head[0].kind == Fs && q.head[0].barrier
    ensures LogInv(RejectBarrier(q)) && TagInv(RejectBarrier(q))
  {
    var id := q.head[0].id;
    assert q.head[0] in q.head;
    DropHeadLog(q);
    RejectedLog(DropHead(q), id);
  }

  lemma RejectHistory(q: Queue)
    requires HistoryInv(q) && !Sequencing(q) && q.head != [] && q.head[0].kind == Fs && q.head[0].barrier
    ensures HistoryInv(RejectBarrier(q))
  {
    var id := q.head[0].id;
    RejectLogs(q);
    RejectPending(q);
    NotBegun(q);
    RejectedEvent(q.log, id);
  }

  lemma RejectPending(q: Queue)
    requires ConserveInv(q) && !Sequencing(q) && q.head != [] && q.head[0].kind == Fs
    ensures ConserveInv(RejectBarrier(q)) && !Finished(q.log, q.head[0].id)
  {
    InAppended(q.log, Rejected(q.head[0].id));
    IdsHead(q.head);
    ConserveFinish(q, RejectBarrier(q), q.head[0].id);
  }

  lemma RejectedEvent(log: seq<Event>, id: nat)
    requires LogOrdered(log) && !Finished(log, id) && forall p: nat :: !Closed(log, id, p)
    ensures LogOrdered(log + [Rejected(id)])
  {
    LogAppend(log, Rejected(id));
  }

  // Absorbing the placeholder of an empty barrier.

  lemma AbsorbedLog(q: Queue, id: nat)
    requires LogInv(q)
    ensures LogInv(Logged(q, Absorbed(id)))
    ensures forall x: nat :: Finished(Logged(q, Absorbed(id)).log, x) <==> Finished(q.log, x)
  {
    InAppended(q.log, Absorbed(id));
    ClosedAppended(q.log, Absorbed(id));
  }

  lemma AbsorbedEvent(q: Queue)
    requires ProtocolInv(q) && HistoryInv(q) && Sequencing(q) && CurSeq(q.ordseq) == BAR
    ensures LogOrdered(q.log + [Absorbed(q.orig.id)])
  {
    DrainedFinished(q);
    ClosedPhases(q);
    LogAppend(q.log, Absorbed(q.orig.id));
  }

  lemma AbsorbHistory(q: Queue)
    requires HistoryInv(q) && q.head != [] && q.head[0].kind == Bar
    requires LogOrdered(q.log + [Absorbed(q.head[0].id)])
    ensures HistoryInv(Logged(DropHead(q), Absorbed(q.head[0].id)))
  {
    var id := q.head[0].id;
    DropHeadLog(q);
    AbsorbedLog(DropHead(q), id);
    IdsHead(q.head);
    assert Pending(Logged(DropHead(q), Absorbed(id))) == Pending(q);
    ConserveSame(q, Logged(DropHead(q), Absorbed(id)));
  }

  lemma KillHistory(q: Queue)
    requires ProtocolInv(q) && HistoryInv(q) && Ready(q) && EmptyBarrier(q.head[0])
    requires BAR !in q.ordseq
    ensures HistoryInv(KillEmpty(q))
  {
    var q1 := Logged(DropHead(q), Absorbed(q.head[0].id));
    KillTarget(q);
    assert HeadShape(q, q.head[0]);
    AbsorbedEvent(q);
    AbsorbHistory(q);
    KillPhase(q);
    assert PhaseDue(q1, BAR);
    CompleteSeqHistory(q1, BAR);
  }

  lemma DeliverHistory(q: Queue)
    requires ProtocolInv(q) && HistoryInv(q) && Ready(q)
    requires EmptyBarrier(q.head[0]) ==> BAR !in q.ordseq
    ensures HistoryInv(Deliver(q))
  {
    if EmptyBarrier(q.head[0]) { KillHistory(q); } else { HandOutHistory(q); }
  }

  lemma NextHistory(q: Queue)
    requires ProtocolInv(q) && HistoryInv(q) && NextSafe(q)
    ensures HistoryInv(Next(q))
  {
    if q.head != [] {
      assert HeadShape(q, q.head[0]);
      if Ready(q) {
        DeliverHistory(q);
      } else if !Sequencing(q) {
        if q.nextOrdered == Unordered {
          RejectHistory(q);
        } else {
          StartHistory(q);
          if q.inFlight == 0 {
            StartKeeps(q);
            DeliverKeeps(StartOrdered(q));
            DeliverHistory(StartOrdered(q));
          }
        }
      }
    }
  }

  lemma DrainHistory(q: Queue, i: nat)
    requires ProtocolInv(q) && i < |q.driver| && CompletionSafe(q, i) && q.driver[i].kind == Fs
    requires HistoryInv(Logged(Undriven(q, i), Completed(q.driver[i].id)))
    ensures HistoryInv(Complete(q, i))
  {
    var q0 := Undriven(q, i);
    var q1 := Logged(q0, Completed(q.driver[i].id));
    if Sequencing(q1) && q1.inFlight == 0 && CurSeq(q1.ordseq) == DRAIN && ReqSeq(q1, q1.head[0]) > DRAIN {
      UndrivenKeeps(q, i);
      ShapesKept(q0, q1);
      RemoveMembers(q.driver, i);
      DrainedEmpty(q, q1);
      LaterSched(q1);
      EarlierFinished(q1);
      CompleteSeqHistory(q1, DRAIN);
    }
  }

  lemma CompleteHistory(q: Queue, i: nat)
    requires ProtocolInv(q) && HistoryInv(q) && i < |q.driver| && CompletionSafe(q, i)
    ensures HistoryInv(Complete(q, i))
  {
    var r := q.driver[i];
    assert DriverShape(q, r);
    if r.kind == Fs {
      CompletedHistory(q, i);
      DrainHistory(q, i);
    } else {
      UndrivenHistory(q, i);
      ProxyPhaseEmpty(q, i);
      assert PhaseDue(Undriven(q, i), PhaseOf(r.kind));
      CompleteSeqHistory(Undriven(q, i), PhaseOf(r.kind));
    }
  }

  lemma StepHistory(q: Queue, a: Action)
    requires ProtocolInv(q) && HistoryInv(q) && Enabled(q, a) && NoFault(q, a)
    ensures HistoryInv(Apply(q, a))
  {
    match a
    case DoAddSorted(sector) =>
      AddKeeps(q, AddSorted(q, sector), NewRequest(q, false, false, false, sector));
    case DoAddBack(barrier, empty, sector) =>
      AddKeeps(q, AddBack(q, barrier, empty, sector), NewRequest(q, barrier, empty, true, sector));
    case DoDispatch(i, k) =>
      assert SchedShape(q, q.sched[i]);
      DispatchHistory(q, i, k);
    case DoNext => NextHistory(q);
    case DoDequeue(i) => DequeueHistory(q, i);
    case DoComplete(i) => CompleteHistory(q, i);
    case DoRequeue(i) => RequeueHistory(q, i);
    case DoSetOrdered(mode) => MoveKeeps(q, q.(nextOrdered := mode));
  }

  // ----- whole runs

  ghost predicate Initial(q: Queue) {
    && q.head == [] && q.sched == [] && q.driver == [] && q.inFlight == 0
    && q.ordseq == {} && !q.ordcolor && q.added == [] && q.epoch == 0 && q.epochs == 0 && q.log == []
  }

  // The actions lead from q to q', none of them faulting.
  ghost predicate RunsTo(q: Queue, actions: seq<Action>, q': Queue)
    decreases |actions|
  {
    if actions == [] then q' == q
    else
      && Enabled(q, actions[0]) && NoFault(q, actions[0])
      && RunsTo(Apply(q, actions[0]), actions[1..], q')
  }

  // No barrier is turned away while requests are with the driver.
  ghost predicate OrderedRun(q: Queue, actions: seq<Action>)
    decreases |actions|
  {
    actions != [] && Enabled(q, actions[0]) && NoFault(q, actions[0]) ==>
      && !RejectsBusy(q, actions[0])
      && OrderedRun(Apply(q, actions[0]), actions[1..])
  }

  lemma {:induction false} RunKeeps(q: Queue, actions: seq<Action>, q': Queue)
    requires ProtocolInv(q) && HistoryInv(q)
    requires RunsTo(q, actions, q') && OrderedRun(q, actions)
    ensures ProtocolInv(q') && HistoryInv(q')
    decreases |actions|
  {
    if actions != [] {
      StepKeeps(q, actions[0]);
      StepHistory(q, actions[0]);
      RunKeeps(Apply(q, actions[0]), actions[1..], q');
    }
  }

  lemma InitialHolds(q: Queue)
    requires Initial(q)
    ensures ProtocolInv(q) && HistoryInv(q)
  {
  }

  // In every run the log is ordered, and no step that the driver, the scheduler or
  // a submitter may take next faults.
  lemma RunsAreOrdered(q: Queue, actions: seq<Action>, q': Queue)
    requires Initial(q) && RunsTo(q, actions, q') && OrderedRun(q, actions)
    ensures LogOrdered(q'.log)
    ensures forall a :: Enabled(q', a) ==> NoFault(q', a)
  {
    InitialHolds(q);
    RunKeeps(q, actions, q');
    forall a | Enabled(q', a) ensures NoFault(q', a) {
      StepIsSafe(q', a);
    }
  }

  lemma FinishedMonotone(log: seq<Event>, i: nat, j: nat, id: nat)
    requires i <= j <= |log| && Finished(log[..i], id)
    ensures Finished(log[..j], id)
  {
    assert forall e :: e in log[..i] ==> e in log[..j];
  }

  // Requests are added once.
  lemma AddedOnce(log: seq<Event>, id: nat, i: nat, j: nat, b: bool, c: bool)
    requires LogOrdered(log) && i < |log| && j < |log| && log[i] == Added(id, b) && log[j] == Added(id, c)
    ensures i == j && b == c
  {
    assert SafeEvent(log[..i], log[i]) && SafeEvent(log[..j], log[j]);
    assert Added(id, b) !in log[..j] && Added(id, c) !in log[..i];
    assert forall x :: 0 <= x < j ==> log[..j][x] == log[x];
    assert forall x :: 0 <= x < i ==> log[..i][x] == log[x];
  }

  // A barrier that was added at all was added as one before anything added later was
  // handed out.
  lemma BarrierWasAdded(log: seq<Event>, b: nat, m: nat)
    requires LogOrdered(log) && m <= |log| && Added(b, true) in log && WasAdded(log[..m], b)
    ensures Added(b, true) in log[..m]
  {
    var c := Added(b, true) in log[..m];
    var i :| 0 <= i < |log[..m]| && log[..m][i] == Added(b, c);
    var j :| 0 <= j < |log| && log[j] == Added(b, true);
    AddedOnce(log, b, i, j, c, true);
  }

  // Once a proxy of a barrier is out, the barrier can only be finished by ending.
  lemma BegunEnds(log: seq<Event>, b: nat, k: nat, m: nat)
    requires LogOrdered(log) && k < |log| && log[k].ProxyIssued? && log[k].id == b && m <= |log|
    requires Ended(b) in log[..m] || Rejected(b) in log[..m]
    ensures k < m && Ended(b) in log[..m]
  {
    assert SafeEvent(log[..k], log[k]);
    assert Closed(log[..k], b, DRAIN);
    var e := if Ended(b) in log[..m] then Ended(b) else Rejected(b);
    var i :| 0 <= i < |log[..m]| && log[..m][i] == e;
    assert SafeEvent(log[..i], log[i]) && log[i] == e;
    assert i < k ==> log[i] in log[..k];
    assert forall x :: x in log[..k] && k <= i ==> x in log[..i];
    assert k <= i ==> Closed(log[..i], b, DRAIN);
  }

  // In an ordered log: a request added before a barrier is finished when any part of the
  // barrier is handed out, and is not handed out afterwards; a request added after it is
  // only handed out after the barrier has ended.
  ghost predicate NotCrossed(log: seq<Event>, b: nat, k: nat) {
    && k < |log| && (forall r: nat :: r < b ==> Finished(log[..k], r))
    && (forall i: nat, r: nat :: i < |log| && log[i] == Issued(r) && r < b ==> i < k)
    && (forall m: nat, s: nat :: m < |log| && log[m] == Issued(s) && b < s ==> k < m && Ended(b) in log[..m])
  }

  lemma OrderedIsNotCrossed(log: seq<Event>, b: nat, k: nat)
    requires LogOrdered(log) && k < |log| && log[k].ProxyIssued? && log[k].id == b
    ensures NotCrossed(log, b, k)
  {
    assert SafeEvent(log[..k], log[k]);
    forall i: nat, r: nat | i < |log| && log[i] == Issued(r) && r < b ensures i < k {
      assert SafeEvent(log[..i], log[i]);
      if k <= i { FinishedMonotone(log, k, i, r); }
    }
    forall m: nat, s: nat | m < |log| && log[m] == Issued(s) && b < s ensures k < m && Ended(b) in log[..m] {
      assert SafeEvent(log[..m], log[m]);
      assert WasAdded(log[..m], b);
      assert Added(b, true) in log by { assert Added(b, true) in log[..k]; }
      BarrierWasAdded(log, b, m);
      BegunEnds(log, b, k, m);
    }
  }

  // No request crosses a barrier: over every interleaving of add, dispatch, next, dequeue,
  // complete and requeue steps from an empty queue.
  lemma NoRequestCrossesBarrier(q: Queue, actions: seq<Action>, q': Queue, b: nat, k: nat)
    requires Initial(q) && RunsTo(q, actions, q') && OrderedRun(q, actions)
    requires k < |q'.log| && q'.log[k].ProxyIssued? && q'.log[k].id == b
    ensures NotCrossed(q'.log, b, k)
  {
    RunsAreOrdered(q, actions, q');
    OrderedIsNotCrossed(q'.log, b, k);
  }

  // The phases of a barrier are closed in turn: when one is done, every earlier phase has
  // been closed, and the flush or the data it stands for has been handed out, except that
  // an empty barrier has no data.
  lemma PhasesInTurn(log: seq<Event>, k: nat)
    requires LogOrdered(log) && k < |log| && log[k].PhaseDone?
    ensures forall p: nat :: DRAIN <= p < log[k].phase ==> Closed(log[..k], log[k].id, p)
    ensures log[k].phase > DRAIN && !(log[k].phase == BAR && Absorbed(log[k].id) in log) ==>
              ProxyIssued(log[k].id, log[k].phase) in log[..k]
  {
    var id, phase := log[k].id, log[k].phase;
    assert SafeEvent(log[..k], log[k]);
    if phase > DRAIN {
      var e := if ProxyIssued(id, phase) in log[..k] then ProxyIssued(id, phase) else Absorbed(id);
      var i :| 0 <= i < |log[..k]| && log[..k][i] == e;
      assert SafeEvent(log[..i], log[i]) && log[i] == e;
      assert forall x :: x in log[..i] ==> x in log[..k];
      forall p: nat | DRAIN <= p < phase ensures Closed(log[..k], id, p) {
        assert Closed(log[..i], id, p);
      }
      assert e in log;
    }
  }

  // A running sequence never hangs: with nothing at the driver, the next request is
  // ready to be handed out.
  lemma NeverStuck(q: Queue)
    requires ProtocolInv(q) && Sequencing(q) && q.driver == []
    ensures Ready(q)
  {
    if DRAIN !in q.ordseq {
      HeadColour(q);
    } else {
      var k := if CurSeq(q.ordseq) == PREFLUSH then PreFlush
               else if CurSeq(q.ordseq) == BAR then Bar else PostFlush;
      assert ProxyPlace(q, k);
      assert HasKind(q.head, k);
      var r :| r in q.head && r.kind == k;
      var i :| 0 <= i < |q.head| && q.head[i] == r;
      var h := q.head[0];
      assert HeadShape(q, h) && HeadShape(q, r);
      assert i == 0 || Before(h, r);
      assert h.kind != Fs ==> HasKind(q.head, h.kind);
    }
  }
}
