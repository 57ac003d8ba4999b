/**
  Back insertion as an order of its own.  A request inserted at the back of the dispatch
  queue is first handed out after everything added before it and before everything added
  after it, although the requests around it may be sorted freely.
 */
module BarrierBack {
  import opened Barrier
  import opened BarrierInvariant
  import opened BarrierOrder

  // Which requests were inserted at the back, by order of addition.
  function Back(a: Action): seq<bool> {
    match a
    case DoAddSorted(_) => [false]
    case DoAddBack(_, _, _) => [true]
    case _ => []
  }

  function Backs(actions: seq<Action>): seq<bool> {
    if actions == [] then [] else Back(actions[0]) + Backs(actions[1..])
  }

  predicate IsBack(back: seq<bool>, id: nat) { id < |back| && back[id] }

  predicate IsPlain(added: seq<bool>, id: nat) { id < |added| && !added[id] }

  // ----- the property

  // When a request is handed out, every plain request inserted at the back before it has
  // been; and if it was itself inserted at the back, so has every plain request added
  // before it.
  ghost predicate InTurn(log: seq<Event>, e: Event, back: seq<bool>, added: seq<bool>) {
    e.Issued? && IsPlain(added, e.id) ==>
      forall r: nat :: r < e.id && IsPlain(added, r) && (IsBack(back, r) || IsBack(back, e.id)) ==> Issued(r) in log
  }

  ghost predicate AllInTurn(log: seq<Event>, back: seq<bool>, added: seq<bool>) {
    forall k :: 0 <= k < |log| ==> InTurn(log[..k], log[k], back, added)
  }

  lemma TurnAppend(log: seq<Event>, e: Event, back: seq<bool>, added: seq<bool>)
    requires AllInTurn(log, back, added) && InTurn(log, e, back, added)
    ensures AllInTurn(log + [e], back, added)
  {
    var log' := log + [e];
    forall k | 0 <= k < |log'| ensures InTurn(log'[..k], log'[k], back, added) {
      assert log'[..k] == log[..k];
      if k == |log| { assert log[..k] == log; }
    }
  }

  ghost predicate Quiet(s: seq<Event>) { forall e :: e in s ==> !e.Issued? }

  lemma {:induction false} TurnQuiet(log: seq<Event>, more: seq<Event>, back: seq<bool>, added: seq<bool>)
    requires AllInTurn(log, back, added) && Quiet(more)
    ensures AllInTurn(log + more, back, added)
    decreases |more|
  {
    if more == [] {
      assert log + more == log;
    } else {
      TurnAppend(log, more[0], back, added);
      TurnQuiet(log + [more[0]], more[1..], back, added);
      assert log + [more[0]] + more[1..] == log + more;
    }
  }

  ghost predicate IssuedAdded(log: seq<Event>, n: nat) { forall id: nat :: Issued(id) in log ==> id < n }

  lemma TurnMore(log: seq<Event>, back: seq<bool>, added: seq<bool>, b: bool, barrier: bool)
    requires AllInTurn(log, back, added) && |back| == |added| && IssuedAdded(log, |added|)
    ensures AllInTurn(log, back + [b], added + [barrier])
  {
    forall k | 0 <= k < |log| ensures InTurn(log[..k], log[k], back + [b], added + [barrier]) {
      assert log[k] in log;
      assert InTurn(log[..k], log[k], back, added);
    }
  }

  // ----- the queue

  ghost predicate Fresh(log: seq<Event>, r: Request) { r.kind == Fs && Issued(r.id) !in log }

  // x may stand before y.
  ghost predicate MayPrecede(log: seq<Event>, back: seq<bool>, x: Request, y: Request) {
    Fresh(log, x) && Fresh(log, y) && (IsBack(back, x.id) || IsBack(back, y.id)) ==> x.id < y.id
  }

  ghost predicate InLine(log: seq<Event>, back: seq<bool>, s: seq<Request>) {
    forall i, j :: 0 <= i < j < |s| ==> MayPrecede(log, back, s[i], s[j])
  }

  ghost predicate Ahead(log: seq<Event>, back: seq<bool>, s: seq<Request>, t: seq<Request>) {
    forall x, y :: x in s && y in t ==> MayPrecede(log, back, x, y)
  }

  // A request inserted at the back stays one that sorting may not pass.
  ghost predicate Marked(log: seq<Event>, back: seq<bool>, s: seq<Request>) {
    forall x :: x in s && Fresh(log, x) && IsBack(back, x.id) ==> x.soft
  }

  ghost predicate Sortable(back: seq<bool>, s: seq<Request>) { forall y :: y in s ==> !IsBack(back, y.id) }

  ghost predicate BackInv(q: Queue, back: seq<bool>) {
    && |back| == |q.added|
    && InLine(q.log, back, q.head) && Ahead(q.log, back, q.head, q.sched)
    && Marked(q.log, back, q.head) && Sortable(back, q.sched)
    && AllInTurn(q.log, back, q.added)
  }

  // ----- lists

  // Handing out and recording take nothing away.
  lemma LogGrows(log: seq<Event>, more: seq<Event>, back: seq<bool>, head: seq<Request>, sched: seq<Request>)
    requires InLine(log, back, head) && Ahead(log, back, head, sched) && Marked(log, back, head)
    ensures InLine(log + more, back, head) && Ahead(log + more, back, head, sched) && Marked(log + more, back, head)
  {
  }

  lemma LineJoin(log: seq<Event>, back: seq<bool>, s: seq<Request>, t: seq<Request>)
    requires InLine(log, back, s) && InLine(log, back, t) && Ahead(log, back, s, t)
    ensures InLine(log, back, s + t)
  {
    var u := s + t;
    forall i, j | 0 <= i < j < |u| ensures MayPrecede(log, back, u[i], u[j]) {
      if i < |s| <= j { assert u[i] in s && u[j] in t; }
    }
  }

  lemma LineSplit(log: seq<Event>, back: seq<bool>, s: seq<Request>, k: nat)
    requires InLine(log, back, s) && k <= |s|
    ensures InLine(log, back, s[..k]) && InLine(log, back, s[k..]) && Ahead(log, back, s[..k], s[k..])
    ensures forall x :: x in s <==> x in s[..k] || x in s[k..]
  {
    assert s == s[..k] + s[k..];
    forall x, y | x in s[..k] && y in s[k..] ensures MayPrecede(log, back, x, y) {
      var i :| 0 <= i < k && s[..k][i] == x;
      var j :| 0 <= j < |s| - k && s[k..][j] == y;
      assert MayPrecede(log, back, s[i], s[k + j]);
    }
  }

  // Requests that have been out before, and proxies, may stand anywhere.
  lemma LineInsert(log: seq<Event>, back: seq<bool>, s: seq<Request>, k: nat, r: Request)
    requires InLine(log, back, s) && k <= |s|
    requires forall x :: x in s[..k] ==> MayPrecede(log, back, x, r)
    requires forall y :: y in s[k..] ==> MayPrecede(log, back, r, y)
    ensures InLine(log, back, InsertAt(s, k, r))
  {
    LineSplit(log, back, s, k);
    LineJoin(log, back, s[..k], [r]);
    LineJoin(log, back, s[..k] + [r], s[k..]);
  }

  lemma LineRemove(log: seq<Event>, back: seq<bool>, s: seq<Request>, i: nat)
    requires InLine(log, back, s) && i < |s|
    ensures InLine(log, back, RemoveAt(s, i))
    ensures forall x :: x in RemoveAt(s, i) ==> x in s
  {
    LineSplit(log, back, s, i);
    LineSplit(log, back, s[i..], 1);
    assert s[i..][1..] == s[i + 1..];
    LineJoin(log, back, s[..i], s[i + 1..]);
  }

  // ----- each step

  lemma IssuedBelow(q: Queue)
    requires HistoryInv(q)
    ensures IssuedAdded(q.log, |q.added|)
  {
    forall id: nat | Issued(id) in q.log ensures id < |q.added| {
      var k :| 0 <= k < |q.log| && q.log[k] == Issued(id);
      assert SafeEvent(q.log[..k], q.log[k]) && WasAdded(q.log[..k], id);
      assert Added(id, false) in q.log || Added(id, true) in q.log;
    }
  }

  lemma IdsBelow(q: Queue)
    requires TagInv(q)
    ensures forall x :: (x in q.head || x in q.sched) && x.kind == Fs ==> x.id < |q.added|
  {
  }

  lemma AddBackInv(q: Queue, a: Action, back: seq<bool>)
    requires HistoryInv(q) && BackInv(q, back) && Enabled(q, a) && NoFault(q, a) && (a.DoAddSorted? || a.DoAddBack?)
    ensures BackInv(Apply(q, a), back + Back(a))
  {
    var q' := Apply(q, a);
    var back' := back + Back(a);
    var b, barrier := Back(a)[0], if a.DoAddBack? then a.barrier else false;
    IssuedBelow(q);
    IdsBelow(q);
    TurnMore(q.log, back, q.added, b, barrier);
    TurnAppend(q.log, Added(|q.added|, barrier), back', q'.added);
    WiderBack(q, back, b);
    LogGrows(q.log, [Added(|q.added|, barrier)], back', q.head, q.sched);
    var r := if a.DoAddSorted? then NewRequest(q, false, false, false, a.sector) else NewRequest(q, a.barrier, a.empty, true, a.sector);
    assert forall x :: x in q.head ==> MayPrecede(q'.log, back', x, r);
    if a.DoAddBack? { LineJoin(q'.log, back', q.head, [r]); }
  }

  lemma WiderBack(q: Queue, back: seq<bool>, b: bool)
    requires TagInv(q) && BackInv(q, back)
    ensures InLine(q.log, back + [b], q.head) && Ahead(q.log, back + [b], q.head, q.sched)
    ensures Marked(q.log, back + [b], q.head) && forall y :: y in q.sched && y.kind == Fs ==> !IsBack(back + [b], y.id)
  {
    IdsBelow(q);
    forall i, j | 0 <= i < j < |q.head| ensures MayPrecede(q.log, back + [b], q.head[i], q.head[j]) {
      assert q.head[i] in q.head && q.head[j] in q.head;
      assert MayPrecede(q.log, back, q.head[i], q.head[j]);
    }
  }

  lemma DispatchBackInv(q: Queue, i: nat, k: nat, back: seq<bool>)
    requires BackInv(q, back) && Enabled(q, DoDispatch(i, k))
    ensures BackInv(Dispatch(q, i, k), back)
  {
    var r, q' := q.sched[i], Dispatch(q, i, k);
    assert forall x :: x in RemoveAt(q.sched, i) ==> x in q.sched;
    assert r in q.sched;
    forall y | y in q.head[k..] ensures MayPrecede(q.log, back, r, y) {
      var j :| k <= j < |q.head| && q.head[j] == y;
      assert y in q.head;
    }
    assert forall x :: x in q.head[..k] ==> x in q.head;
    LineInsert(q.log, back, q.head, k, r);
    assert forall x :: x in q'.head ==> x in q.head || x == r;
  }

  lemma CompletedWasIssued(log: seq<Event>, id: nat)
    requires LogOrdered(log) && Completed(id) in log
    ensures Issued(id) in log
  {
    var k :| 0 <= k < |log| && log[k] == Completed(id);
    assert SafeEvent(log[..k], log[k]);
    assert Issued(id) in log[..k];
  }

  lemma DriverWasIssued(q: Queue, r: Request)
    requires ProtocolInv(q) && LogInv(q) && r in q.driver && r.kind == Fs
    ensures Issued(r.id) in q.log
  {
    assert DriverShape(q, r);
  }

  ghost predicate Waits(q: Queue, id: nat) { exists r :: (r in q.head || r in q.sched) && r.kind == Fs && r.id == id }

  // A plain request has been handed out, or is in the dispatch queue or with the I/O
  // scheduler.
  lemma IssuedOrWaits(q: Queue, id: nat)
    requires ProtocolInv(q) && HistoryInv(q) && IsPlain(q.added, id)
    ensures Issued(id) in q.log || Waits(q, id)
  {
    assert Sequencing(q) ==> q.orig.id != id;
    if Finished(q.log, id) {
      CompletedWasIssued(q.log, id);
    } else {
      assert Pending(q)[id] == Ids(q.head)[id] + Ids(q.sched)[id] + Ids(q.driver)[id];
      if Ids(q.head)[id] > 0 {
        var r := IdsMember(q.head, id);
      } else if Ids(q.sched)[id] > 0 {
        var r := IdsMember(q.sched, id);
      } else {
        var r := IdsMember(q.driver, id);
        DriverWasIssued(q, r);
      }
    }
  }

  // Nothing that should go before it is still behind a request at the head.
  lemma NotOvertaken(q: Queue, back: seq<bool>, r: nat)
    requires ProtocolInv(q) && HistoryInv(q) && BackInv(q, back) && q.head != [] && Fresh(q.log, q.head[0])
    requires IsPlain(q.added, r) && (IsBack(back, r) || IsBack(back, q.head[0].id))
    ensures Issued(r) in q.log || r >= q.head[0].id
  {
    IssuedOrWaits(q, r);
    if Waits(q, r) {
      var x :| (x in q.head || x in q.sched) && x.kind == Fs && x.id == r;
      assert q.head[0] in q.head;
      if x in q.head {
        var j :| 0 <= j < |q.head| && q.head[j] == x;
        assert j > 0 ==> MayPrecede(q.log, back, q.head[0], q.head[j]);
      } else {
        assert MayPrecede(q.log, back, q.head[0], x);
      }
    }
  }

  lemma HeadInTurn(q: Queue, back: seq<bool>)
    requires ProtocolInv(q) && HistoryInv(q) && BackInv(q, back) && q.head != [] && q.head[0].kind == Fs
    ensures InTurn(q.log, Issued(q.head[0].id), back, q.added)
  {
    var h := q.head[0];
    if Issued(h.id) in q.log {
      var k :| 0 <= k < |q.log| && q.log[k] == Issued(h.id);
      assert InTurn(q.log[..k], q.log[k], back, q.added);
      assert forall e :: e in q.log[..k] ==> e in q.log;
    } else {
      forall r: nat | r < h.id && IsPlain(q.added, r) && (IsBack(back, r) || IsBack(back, h.id)) ensures Issued(r) in q.log {
        NotOvertaken(q, back, r);
      }
    }
  }

  // The head is dropped, or is replaced by something that is not a request waiting for its
  // first turn, and other events are recorded.
  lemma HeadBackInv(q: Queue, q': Queue, back: seq<bool>, front: seq<Request>, more: seq<Event>)
    requires BackInv(q, back) && q.head != [] && q'.head == front + q.head[1..] && q'.sched == q.sched
    requires q'.log == q.log + more && q'.added == q.added
    requires forall x :: x in front ==> !Fresh(q'.log, x)
    requires AllInTurn(q'.log, back, q'.added)
    ensures BackInv(q', back)
  {
    LineSplit(q.log, back, q.head, 1);
    LogGrows(q.log, more, back, q.head[1..], q.sched);
    LineJoin(q'.log, back, front, q.head[1..]);
  }

  lemma HandOutBackInv(q: Queue, back: seq<bool>)
    requires ProtocolInv(q) && HistoryInv(q) && BackInv(q, back) && q.head != []
    ensures BackInv(HandOut(q), back)
  {
    var r := q.head[0];
    var e := if r.kind == Fs then Issued(r.id) else ProxyIssued(r.id, PhaseOf(r.kind));
    if r.kind == Fs { HeadInTurn(q, back); }
    TurnAppend(q.log, e, back, q.added);
    HeadBackInv(q, HandOut(q), back, [r.(started := true)], [e]);
  }

  // Steps that only record other events.
  lemma RecordBackInv(q: Queue, q': Queue, back: seq<bool>, more: seq<Event>)
    requires BackInv(q, back) && q'.head == q.head && q'.sched == q.sched && q'.added == q.added
    requires q'.log == q.log + more && Quiet(more)
    ensures BackInv(q', back)
  {
    LogGrows(q.log, more, back, q.head, q.sched);
    TurnQuiet(q.log, more, back, q.added);
  }

  function PhaseEvents(q: Queue, phase: nat): seq<Event> {
    [PhaseDone(q.orig.id, phase)] + (if CurSeq(q.ordseq + {phase}) == DONE then [Ended(q.orig.id)] else [])
  }

  lemma PhaseBackInv(q: Queue, phase: nat, back: seq<bool>)
    requires BackInv(q, back) && phase !in q.ordseq
    ensures BackInv(CompleteSeq(q, phase), back)
  {
    assert CompleteSeq(q, phase).log == q.log + PhaseEvents(q, phase);
    RecordBackInv(q, CompleteSeq(q, phase), back, PhaseEvents(q, phase));
  }

  lemma DropBackInv(q: Queue, q': Queue, back: seq<bool>, e: Event)
    requires BackInv(q, back) && q.head != [] && q'.head == q.head[1..] && q'.sched == q.sched
    requires q'.log == q.log + [e] && q'.added == q.added && !e.Issued?
    ensures BackInv(q', back)
  {
    TurnAppend(q.log, e, back, q.added);
    assert [] + q.head[1..] == q.head[1..];
    HeadBackInv(q, q', back, [], [e]);
  }

  lemma DeliverBackInv(q: Queue, back: seq<bool>)
    requires ProtocolInv(q) && HistoryInv(q) && BackInv(q, back) && q.head != [] && (EmptyBarrier(q.head[0]) ==> BAR !in q.ordseq)
    ensures BackInv(Deliver(q), back)
  {
    if EmptyBarrier(q.head[0]) {
      var q1 := q.(head := q.head[1..], log := q.log + [Absorbed(q.head[0].id)]);
      DropBackInv(q, q1, back, Absorbed(q.head[0].id));
      PhaseBackInv(q1, BAR, back);
    } else {
      HandOutBackInv(q, back);
    }
  }

  lemma StartBackInv(q: Queue, back: seq<bool>)
    requires BackInv(q, back) && q.head != [] && q.nextOrdered.Draining?
    ensures BackInv(StartOrdered(q), back)
  {
    var more := SkippedLog(q.head[0], q.nextOrdered, q.inFlight);
    TurnQuiet(q.log, more, back, q.added);
    HeadBackInv(q, StartOrdered(q), back, Proxies(q.head[0], q.nextOrdered), more);
  }

  lemma NextBackInv(q: Queue, back: seq<bool>)
    requires ProtocolInv(q) && HistoryInv(q) && BackInv(q, back) && NextSafe(q) && !RejectsBusy(q, DoNext)
    ensures BackInv(Next(q), back)
  {
    if q.head != [] {
      assert HeadShape(q, q.head[0]);
      if Ready(q) {
        DeliverBackInv(q, back);
      } else if !Sequencing(q) {
        if q.nextOrdered == Unordered {
          DropBackInv(q, RejectBarrier(q), back, Rejected(q.head[0].id));
        } else {
          StartBackInv(q, back);
          if q.inFlight == 0 {
            StartKeeps(q);
            StartHistory(q);
            DeliverBackInv(StartOrdered(q), back);
          }
        }
      }
    }
  }

  lemma DrainCheckBackInv(q: Queue, back: seq<bool>)
    requires BackInv(q, back) && (Sequencing(q) && q.inFlight == 0 && CurSeq(q.ordseq) == DRAIN ==> q.head != [])
    ensures BackInv(DrainCheck(q), back)
  {
    if Sequencing(q) && q.inFlight == 0 && CurSeq(q.ordseq) == DRAIN && ReqSeq(q, q.head[0]) > DRAIN {
      PhaseBackInv(q, DRAIN, back);
    }
  }

  lemma CompleteBackInv(q: Queue, i: nat, back: seq<bool>)
    requires BackInv(q, back) && i < |q.driver| && CompletionSafe(q, i)
    ensures BackInv(Complete(q, i), back)
  {
    var r, q1 := q.driver[i], Undriven(q, i);
    if r.kind == Fs {
      var q2 := q1.(log := q1.log + [Completed(r.id)]);
      RecordBackInv(q1, q2, back, [Completed(r.id)]);
      DrainCheckBackInv(q2, back);
    } else {
      PhaseBackInv(q1, PhaseOf(r.kind), back);
    }
  }

  // What comes back from the driver has been out before.
  lemma RequeueBackInv(q: Queue, i: nat, back: seq<bool>)
    requires ProtocolInv(q) && LogInv(q) && BackInv(q, back) && i < |q.driver| && (Accounted(q.driver[i]) ==> q.inFlight > 0)
    ensures BackInv(Requeue(q, i), back)
  {
    var r := q.driver[i].(started := false, soft := true);
    if r.kind == Fs { DriverWasIssued(q, q.driver[i]); }
    var k := if Sequencing(q) then FirstAtLeast(q, q.head, ReqSeq(q, r)) else 0;
    LineInsert(q.log, back, q.head, k, r);
    InsertMembers(q.head, k, r);
  }

  lemma DequeueBackInv(q: Queue, i: nat, back: seq<bool>)
    requires BackInv(q, back) && i < |q.head|
    ensures BackInv(Dequeue(q, i), back)
  {
    LineRemove(q.log, back, q.head, i);
  }

  lemma StepBackInv(q: Queue, a: Action, back: seq<bool>)
    requires ProtocolInv(q) && HistoryInv(q) && BackInv(q, back) && Enabled(q, a) && NoFault(q, a) && !RejectsBusy(q, a)
    ensures BackInv(Apply(q, a), back + Back(a))
  {
    if a.DoAddSorted? || a.DoAddBack? {
      AddBackInv(q, a, back);
    } else {
      assert back + Back(a) == back;
      if a.DoDispatch? {
        DispatchBackInv(q, a.i, a.k, back);
      } else if a.DoNext? {
        NextBackInv(q, back);
      } else if a.DoDequeue? {
        DequeueBackInv(q, a.i, back);
      } else if a.DoComplete? {
        CompleteBackInv(q, a.i, back);
      } else if a.DoRequeue? {
        RequeueBackInv(q, a.i, back);
      }
    }
  }

  // ----- whole runs

  lemma BacksSplit(back: seq<bool>, actions: seq<Action>)
    requires actions != []
    ensures back + Back(actions[0]) + Backs(actions[1..]) == back + Backs(actions)
  {
  }

  lemma {:induction false} RunBackInv(q: Queue, actions: seq<Action>, q': Queue, back: seq<bool>)
    requires ProtocolInv(q) && HistoryInv(q) && BackInv(q, back) && RunsTo(q, actions, q') && OrderedRun(q, actions)
    ensures BackInv(q', back + Backs(actions))
    decreases |actions|
  {
    if actions == [] {
      assert back + Backs(actions) == back;
    } else {
      var a := actions[0];
      StepKeeps(q, a);
      StepHistory(q, a);
      StepBackInv(q, a, back);
      RunBackInv(Apply(q, a), actions[1..], q', back + Back(a));
      BacksSplit(back, actions);
    }
  }

  // In every run, a plain request is first handed out only after every plain request that
  // was inserted at the back before it, and, if it was itself inserted at the back, only
  // after every plain request added before it.
  lemma BackInsertionOrders(q: Queue, actions: seq<Action>, q': Queue)
    requires Initial(q) && RunsTo(q, actions, q') && OrderedRun(q, actions)
    ensures |Backs(actions)| == |q'.added| && AllInTurn(q'.log, Backs(actions), q'.added)
  {
    InitialHolds(q);
    RunBackInv(q, actions, q', []);
    assert [] + Backs(actions) == Backs(actions);
  }
}
