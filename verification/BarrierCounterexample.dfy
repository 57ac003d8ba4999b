/**
  Why a barrier must not be turned away while requests are with the driver: the
  protocol orders requests by one-bit colours, and skipping a generation that is
  still in flight makes its requests look like later ones.  From every such state
  the order can be broken, and the queue can be made to hang.
 */
module BarrierCounterexample {
  import opened Barrier
  import opened BarrierInvariant
  import opened BarrierOrder

  const DRAINING := Draining(false, false)

  // ----- runs in which no further barrier is turned away while busy

  ghost predicate Calm(q: Queue, actions: seq<Action>, q': Queue) {
    RunsTo(q, actions, q') && OrderedRun(q, actions)
  }

  lemma CalmStep(q: Queue, a: Action)
    requires Enabled(q, a) && NoFault(q, a) && !RejectsBusy(q, a)
    ensures Calm(q, [a], Apply(q, a))
  {
    assert [a][1..] == [];
  }

  lemma {:induction false} CalmJoin(q: Queue, a: seq<Action>, q1: Queue, b: seq<Action>, q2: Queue)
    requires Calm(q, a, q1) && Calm(q1, b, q2)
    ensures Calm(q, a + b, q2)
    decreases |a|
  {
    if a == [] {
      assert a + b == b;
    } else {
      assert (a + b)[0] == a[0] && (a + b)[1..] == a[1..] + b;
      CalmJoin(Apply(q, a[0]), a[1..], q1, b, q2);
    }
  }

  lemma {:induction false} RunJoin(q: Queue, a: seq<Action>, q1: Queue, b: seq<Action>, q2: Queue)
    requires RunsTo(q, a, q1) && RunsTo(q1, b, q2)
    ensures RunsTo(q, a + b, q2)
    decreases |a|
  {
    if a == [] {
      assert a + b == b;
    } else {
      assert (a + b)[0] == a[0] && (a + b)[1..] == a[1..] + b;
      RunJoin(Apply(q, a[0]), a[1..], q1, b, q2);
    }
  }

  lemma OneStep(q: Queue, a: Action)
    requires Enabled(q, a) && NoFault(q, a)
    ensures RunsTo(q, [a], Apply(q, a))
  {
    assert [a][1..] == [];
  }

  // ----- a request left behind

  // No sequence runs, and r, added earlier, is first among the requests at the driver.
  ghost predicate Behind(q: Queue, r: Request) {
    && q.ordseq == {} && q.nextOrdered == DRAINING
    && q.driver != [] && q.driver[0] == r && !Finished(q.log, r.id) && r.id < |q.added|
    && (forall x :: x in q.driver ==> x.kind == Fs && x.started)
    && (forall i :: 0 < i < |q.driver| ==> q.driver[i].id != r.id)
    && (forall x :: x in q.head || x in q.sched ==> x.kind == Fs && x.id != r.id)
    && (forall x :: x in q.sched ==> !x.barrier)
    && q.inFlight == |q.driver|
  }

  // The colour of the next barrier that is or will be queued.
  function NextColour(h: seq<Request>, ordcolor: bool): bool {
    if h == [] then ordcolor else if h[0].barrier then h[0].color else NextColour(h[1..], ordcolor)
  }

  function Weight(q: Queue): nat { 3 * |q.sched| + 2 * |q.head| + |q.driver| }

  // Only r is out, and nothing or a barrier comes next.
  ghost predicate Settled(q: Queue) {
    |q.driver| == 1 && (if q.head == [] then q.sched == [] else q.head[0].barrier)
  }

  lemma StillUnfinished(log: seq<Event>, e: Event, id: nat)
    requires !Finished(log, id) && e != Completed(id) && e != Ended(id) && e != Rejected(id)
    ensures !Finished(log + [e], id)
  {
  }

  // One of the other requests at the driver is completed.
  lemma CompleteOther(q: Queue, r: Request, i: nat)
    requires Behind(q, r) && 0 < i < |q.driver|
    ensures var q' := Complete(q, i);
            Calm(q, [DoComplete(i)], q') && Behind(q', r) && q'.head == q.head && q'.sched == q.sched
            && q'.ordcolor == q.ordcolor && |q'.driver| == |q.driver| - 1
  {
    CalmStep(q, DoComplete(i));
    StillUnfinished(q.log, Completed(q.driver[i].id), r.id);
    assert forall x :: x in RemoveAt(q.driver, i) ==> x in q.driver;
  }

  // A queued request goes out to the driver.
  lemma IssueNext(q: Queue, r: Request) returns (q': Queue)
    requires Behind(q, r) && q.head != [] && !q.head[0].barrier
    ensures Calm(q, [DoNext, DoDequeue(0)], q') && Behind(q', r)
    ensures q' == q.(head := q.head[1..], driver := q.driver + [q.head[0].(started := true)],
                     inFlight := q.inFlight + 1, log := q.log + [Issued(q.head[0].id)])
  {
    var q1 := HandOut(q);
    q' := Dequeue(q1, 0);
    CalmStep(q, DoNext);
    CalmStep(q1, DoDequeue(0));
    CalmJoin(q, [DoNext], q1, [DoDequeue(0)], q');
    assert [DoNext] + [DoDequeue(0)] == [DoNext, DoDequeue(0)];
    assert q.head[0] in q.head && RemoveAt(q1.head, 0) == q.head[1..];
    IssuedBehind(q, r, q');
  }

  lemma IssuedBehind(q: Queue, r: Request, q': Queue)
    requires Behind(q, r) && q.head != [] && !q.head[0].barrier
    requires q' == q.(head := q.head[1..], driver := q.driver + [q.head[0].(started := true)],
                      inFlight := q.inFlight + 1, log := q.log + [Issued(q.head[0].id)])
    ensures Behind(q', r)
  {
    assert q.head[0] in q.head;
    assert forall x :: x in q.head[1..] ==> x in q.head;
    StillUnfinished(q.log, Issued(q.head[0].id), r.id);
  }

  lemma FlushStep(q: Queue, r: Request) returns (actions: seq<Action>, q': Queue)
    requires Behind(q, r) && !Settled(q)
    ensures Calm(q, actions, q') && Behind(q', r) && Weight(q') < Weight(q)
    ensures NextColour(q'.head, q'.ordcolor) == NextColour(q.head, q.ordcolor)
  {
    if |q.driver| > 1 {
      actions, q' := [DoComplete(1)], Complete(q, 1);
      CompleteOther(q, r, 1);
    } else if q.head != [] {
      actions := [DoNext, DoDequeue(0)];
      q' := IssueNext(q, r);
    } else {
      actions, q' := [DoDispatch(0, 0)], Dispatch(q, 0, 0);
      CalmStep(q, DoDispatch(0, 0));
      assert q'.head == [q.sched[0]] && q.sched[0] in q.sched;
      assert forall x :: x in RemoveAt(q.sched, 0) ==> x in q.sched;
      assert q'.head[1..] == [];
    }
  }

  // Everything but r can be finished, up to the next barrier.
  lemma {:induction false} Flush(q: Queue, r: Request) returns (actions: seq<Action>, q': Queue)
    requires Behind(q, r)
    ensures Calm(q, actions, q') && Behind(q', r) && Settled(q') && Weight(q') <= Weight(q)
    ensures NextColour(q'.head, q'.ordcolor) == NextColour(q.head, q.ordcolor)
    decreases Weight(q)
  {
    actions, q' := [], q;
    if !Settled(q) {
      var first, q1 := FlushStep(q, r);
      var rest;
      rest, q' := Flush(q1, r);
      CalmJoin(q, first, q1, rest, q');
      actions := first + rest;
    }
  }

  // ----- the hang

  // A barrier comes to the head of an otherwise settled queue.
  lemma BarrierNext(q: Queue, r: Request) returns (actions: seq<Action>, q': Queue)
    requires Behind(q, r) && Settled(q)
    ensures Calm(q, actions, q') && Behind(q', r) && Settled(q') && q'.head != []
    ensures q'.head[0].color == NextColour(q.head, q.ordcolor)
    ensures q.head == [] ==> |q'.head| == 1 && q'.sched == [] && q'.ordcolor != q.ordcolor
  {
    actions, q' := [], q;
    if q.head == [] {
      var add := DoAddBack(true, false, 0);
      actions, q' := [add], Apply(q, add);
      CalmStep(q, add);
      assert q'.head == [NewRequest(q, true, false, true, 0)];
      StillUnfinished(q.log, Added(|q.added|, true), r.id);
    }
  }

  // The barrier starts while r is out.
  lemma StartBusy(q: Queue, r: Request)
    requires Behind(q, r) && q.head != [] && q.head[0].barrier
    ensures Calm(q, [DoNext], StartOrdered(q))
    ensures StartOrdered(q).head == [BarProxy(q.head[0])] + q.head[1..]
    ensures StartOrdered(q).ordseq == {STARTED, POSTFLUSH, PREFLUSH} && !Finished(StartOrdered(q).log, r.id)
  {
    CalmStep(q, DoNext);
    var id := q.head[0].id;
    StillUnfinished(q.log, PhaseSkipped(id, POSTFLUSH), r.id);
    StillUnfinished(q.log + [PhaseSkipped(id, POSTFLUSH)], PhaseSkipped(id, PREFLUSH), r.id);
    assert StartOrdered(q).log == q.log + [PhaseSkipped(id, POSTFLUSH)] + [PhaseSkipped(id, PREFLUSH)];
  }

  // A request of the wrong colour goes behind the barrier when it is requeued.
  lemma RequeueBehind(q: Queue)
    requires q.driver != [] && q.driver[0].kind == Fs && q.driver[0].started && q.inFlight > 0
    requires Sequencing(q) && q.head != [] && q.head[0].kind == Bar && q.orig.color != q.driver[0].color
    ensures Calm(q, [DoRequeue(0)], Requeue(q, 0))
    ensures var q' := Requeue(q, 0);
            q'.head != [] && q'.head[0] == q.head[0] && q'.driver == q.driver[1..] && q'.inFlight == q.inFlight - 1
  {
    CalmStep(q, DoRequeue(0));
    assert RemoveAt(q.driver, 0) == q.driver[1..];
  }

  ghost predicate Stuck(q: Queue) { Sequencing(q) && q.driver == [] && !Ready(q) }

  lemma Hang(q: Queue, r: Request) returns (actions: seq<Action>, q': Queue)
    requires Behind(q, r) && NextColour(q.head, q.ordcolor) != r.color
    ensures Calm(q, actions, q') && Stuck(q')
  {
    var a0, q0 := Flush(q, r);
    var a1, q1 := BarrierNext(q0, r);
    StartBusy(q1, r);
    var q2 := StartOrdered(q1);
    RequeueBehind(q2);
    q' := Requeue(q2, 0);
    CalmJoin(q1, [DoNext], q2, [DoRequeue(0)], q');
    CalmJoin(q0, a1, q1, [DoNext] + [DoRequeue(0)], q');
    actions := a0 + (a1 + ([DoNext] + [DoRequeue(0)]));
    CalmJoin(q, a0, q0, a1 + ([DoNext] + [DoRequeue(0)]), q');
  }

  // ----- the broken order

  // The barrier at the head is turned away.
  lemma TurnAway(q: Queue, r: Request) returns (actions: seq<Action>, q': Queue)
    requires Behind(q, r) && q.head != [] && q.head[0].barrier
    ensures RunsTo(q, actions, q') && Behind(q', r) && Weight(q') < Weight(q)
    ensures q'.head == q.head[1..] && q'.sched == q.sched && q'.driver == q.driver && q'.ordcolor == q.ordcolor
  {
    var q1 := q.(nextOrdered := Unordered);
    var q2 := RejectBarrier(q1);
    q' := q2.(nextOrdered := DRAINING);
    OneStep(q, DoSetOrdered(Unordered));
    OneStep(q1, DoNext);
    OneStep(q2, DoSetOrdered(DRAINING));
    RunJoin(q1, [DoNext], q2, [DoSetOrdered(DRAINING)], q');
    actions := [DoSetOrdered(Unordered)] + ([DoNext] + [DoSetOrdered(DRAINING)]);
    RunJoin(q, [DoSetOrdered(Unordered)], q1, [DoNext] + [DoSetOrdered(DRAINING)], q');
    assert q.head[0] in q.head && forall x :: x in q.head[1..] ==> x in q.head;
    StillUnfinished(q.log, Rejected(q.head[0].id), r.id);
  }

  // With an empty queue, the next barrier can be made to have the other colour than r.
  lemma Toggle(q: Queue, r: Request) returns (actions: seq<Action>, q': Queue)
    requires Behind(q, r) && Settled(q) && q.head == []
    ensures RunsTo(q, actions, q') && Behind(q', r) && Settled(q') && q'.head == [] && q'.ordcolor != r.color
  {
    actions, q' := [], q;
    if q.ordcolor == r.color {
      var a0, q0 := BarrierNext(q, r);
      var a1;
      a1, q' := TurnAway(q0, r);
      RunJoin(q, a0, q0, a1, q');
      actions := a0 + a1;
      assert q'.ordcolor != q.ordcolor;
    }
  }

  // One more request at the driver beside r, and then a barrier.
  lemma SecondOut(q: Queue, r: Request) returns (actions: seq<Action>, q': Queue)
    requires Behind(q, r) && Settled(q) && q.head == [] && q.ordcolor != r.color
    ensures RunsTo(q, actions, q') && Behind(q', r) && |q'.driver| == 2
    ensures |q'.head| == 1 && q'.head[0].barrier && !q'.head[0].empty && q'.head[0].color != r.color && r.id < q'.head[0].id
  {
    var add, bar := DoAddBack(false, false, 0), DoAddBack(true, false, 0);
    var q1 := Apply(q, add);
    assert q1.head == [NewRequest(q, false, false, true, 0)];
    StillUnfinished(q.log, Added(|q.added|, false), r.id);
    CalmStep(q, add);
    var q2 := IssueNext(q1, r);
    q' := Apply(q2, bar);
    assert q'.head == [NewRequest(q2, true, false, true, 0)];
    StillUnfinished(q2.log, Added(|q2.added|, true), r.id);
    CalmStep(q2, bar);
    CalmJoin(q1, [DoNext, DoDequeue(0)], q2, [bar], q');
    CalmJoin(q, [add], q1, [DoNext, DoDequeue(0)] + [bar], q');
    actions := [add] + ([DoNext, DoDequeue(0)] + [bar]);
  }

  // r goes behind the barrier, and the barrier waits for the other alone.
  lemma PutBehind(q: Queue, r: Request) returns (q': Queue)
    requires Behind(q, r) && |q.driver| == 2 && |q.head| == 1
    requires q.head[0].barrier && q.head[0].color != r.color
    ensures Calm(q, [DoNext] + [DoRequeue(0)], q')
    ensures q'.ordseq == {STARTED, POSTFLUSH, PREFLUSH} && q'.orig == q.head[0] && !Finished(q'.log, r.id)
    ensures q'.head != [] && q'.head[0] == BarProxy(q.head[0]) && q'.driver == [q.driver[1]] && q'.inFlight == 1
  {
    StartBusy(q, r);
    var q1 := StartOrdered(q);
    RequeueBehind(q1);
    q' := Requeue(q1, 0);
    CalmJoin(q, [DoNext], q1, [DoRequeue(0)], q');
    assert q.driver[1..] == [q.driver[1]];
  }

  // The other completes, and the barrier's data is handed out.
  lemma HandedTooSoon(q: Queue, id: nat) returns (q': Queue)
    requires q.ordseq == {STARTED, POSTFLUSH, PREFLUSH} && q.head != [] && q.head[0].kind == Bar && !q.head[0].empty
    requires |q.driver| == 1 && q.inFlight == 1 && q.driver[0].kind == Fs && q.driver[0].started
    requires !Finished(q.log, id) && q.driver[0].id != id && id < q.head[0].id
    ensures RunsTo(q, [DoComplete(0)] + [DoNext], q') && !LogOrdered(q'.log)
  {
    var q1 := Complete(q, 0);
    var other := q.driver[0].id;
    assert q1.log == q.log + [Completed(other)] + [PhaseDone(q.orig.id, DRAIN)];
    StillUnfinished(q.log, Completed(other), id);
    StillUnfinished(q.log + [Completed(other)], PhaseDone(q.orig.id, DRAIN), id);
    q' := HandOut(q1);
    OneStep(q, DoComplete(0));
    OneStep(q1, DoNext);
    RunJoin(q, [DoComplete(0)], q1, [DoNext], q');
    LastOutOfOrder(q1.log, ProxyIssued(q.head[0].id, BAR), id);
  }

  lemma Overtake(q: Queue, r: Request) returns (actions: seq<Action>, q': Queue)
    requires Behind(q, r) && |q.driver| == 2 && |q.head| == 1
    requires q.head[0].barrier && !q.head[0].empty && q.head[0].color != r.color && r.id < q.head[0].id
    ensures RunsTo(q, actions, q') && !LogOrdered(q'.log)
  {
    var q1 := PutBehind(q, r);
    assert q.driver[1] in q.driver;
    q' := HandedTooSoon(q1, r.id);
    actions := [DoNext] + [DoRequeue(0)] + ([DoComplete(0)] + [DoNext]);
    RunJoin(q, [DoNext] + [DoRequeue(0)], q1, [DoComplete(0)] + [DoNext], q');
  }

  // A log that ends in a proxy handed out before an earlier request is finished.
  lemma LastOutOfOrder(log: seq<Event>, e: Event, r: nat)
    requires e.ProxyIssued? && r < e.id && !Finished(log, r)
    ensures !LogOrdered(log + [e])
  {
    var log' := log + [e];
    assert log'[..|log|] == log && log'[|log|] == e;
    assert !SafeEvent(log'[..|log|], log'[|log|]);
  }

  lemma {:induction false} Break(q: Queue, r: Request) returns (actions: seq<Action>, q': Queue)
    requires Behind(q, r)
    ensures RunsTo(q, actions, q') && !LogOrdered(q'.log)
    decreases Weight(q)
  {
    var a0, q0 := Flush(q, r);
    var rest;
    if q0.head != [] {
      var a1, q1 := TurnAway(q0, r);
      var a2;
      a2, q' := Break(q1, r);
      RunJoin(q0, a1, q1, a2, q');
      rest := a1 + a2;
    } else {
      var a1, q1 := Toggle(q0, r);
      var a2, q2 := SecondOut(q1, r);
      var a3;
      a3, q' := Overtake(q2, r);
      RunJoin(q1, a2, q2, a3, q');
      RunJoin(q0, a1, q1, a2 + a3, q');
      rest := a1 + (a2 + a3);
    }
    RunJoin(q, a0, q0, rest, q');
    actions := a0 + rest;
  }

  // ----- from any state in which a barrier is turned away while busy

  function AfterBusy(q: Queue): Queue
    requires q.head != []
  {
    RejectBarrier(q).(nextOrdered := DRAINING)
  }

  lemma LeftBehind(q: Queue)
    requires ProtocolInv(q) && HistoryInv(q) && RejectsBusy(q, DoNext)
    ensures q.driver != [] && Apply(q, DoNext) == RejectBarrier(q)
    ensures Calm(RejectBarrier(q), [DoSetOrdered(DRAINING)], AfterBusy(q))
    ensures Behind(AfterBusy(q), q.driver[0])
    ensures NextColour(AfterBusy(q).head, AfterBusy(q).ordcolor) != q.driver[0].color
  {
    BusyDriver(q);
    CalmStep(RejectBarrier(q), DoSetOrdered(DRAINING));
    OnlyPlace(q);
    BehindBusy(q);
  }

  lemma BusyDriver(q: Queue)
    requires ProtocolInv(q) && RejectsBusy(q, DoNext)
    ensures q.driver != [] && NextColour(q.head[1..], q.ordcolor) != q.driver[0].color
  {
    var one := CountSome(q.driver);
    assert q.driver[0] in q.driver && DriverShape(q, q.driver[0]);
    BehindBarrier(q);
    assert forall x :: x in q.head[1..] ==> x in q.head;
    ColourAhead(q, q.head[1..]);
  }

  lemma BehindBusy(q: Queue)
    requires ShapeInv(q) && !Sequencing(q) && q.head != [] && q.driver != [] && q.inFlight == CountAccounted(q.driver)
    requires var id := q.driver[0].id;
             && id < |q.added| && !Finished(q.log, id)
             && (forall i :: 0 < i < |q.driver| ==> q.driver[i].id != id)
             && (forall x :: x in q.head || x in q.sched ==> x.kind == Fs && x.id != id)
             && (forall x :: x in q.driver ==> x.kind == Fs && x.started)
    ensures Behind(AfterBusy(q), q.driver[0])
  {
    AllAccounted(q.driver);
    assert q.head[0] in q.head && forall x :: x in q.head[1..] ==> x in q.head;
    StillUnfinished(q.log, Rejected(q.head[0].id), q.driver[0].id);
    assert forall x :: x in q.sched ==> SchedShape(q, x);
  }

  // The first request at the driver is nowhere else.
  lemma OnlyPlace(q: Queue)
    requires ShapeInv(q) && HistoryInv(q) && !Sequencing(q) && q.driver != [] && q.head != []
    ensures var id := q.driver[0].id;
            && id < |q.added| && !Finished(q.log, id)
            && (forall i :: 0 < i < |q.driver| ==> q.driver[i].id != id)
            && (forall x :: x in q.head || x in q.sched ==> x.kind == Fs && x.id != id)
            && (forall x :: x in q.driver ==> x.kind == Fs && x.started)
  {
    IdleKinds(q);
    var r := q.driver[0];
    assert forall x :: x in q.driver ==> DriverShape(q, x);
    assert forall x :: x in q.sched ==> SchedShape(q, x);
    IdsHead(q.driver);
    assert Pending(q)[r.id] == Ids(q.head)[r.id] + Ids(q.sched)[r.id] + 1 + Ids(q.driver[1..])[r.id];
    forall x | x in q.head ensures x.id != r.id { MemberIds(q.head, x); }
    forall x | x in q.sched ensures x.id != r.id { MemberIds(q.sched, x); }
    forall i | 0 < i < |q.driver| ensures q.driver[i].id != r.id {
      assert q.driver[1..][i - 1] == q.driver[i] && q.driver[i] in q.driver;
      MemberIds(q.driver[1..], q.driver[i]);
    }
  }

  lemma {:induction false} AllAccounted(s: seq<Request>)
    requires forall r :: r in s ==> r.kind == Fs && r.started
    ensures CountAccounted(s) == |s|
  {
    if s != [] {
      assert s[0] in s;
      AllAccounted(s[1..]);
    }
  }

  // The next barrier, queued or not, is of the generation after the one turned away.
  lemma {:induction false} ColourAhead(q: Queue, h: seq<Request>)
    requires ShapeInv(q) && q.epoch < q.epochs && Sorted(h) && forall r :: r in h ==> r in q.head && r.kind == Fs && r.gen > q.epoch
    requires forall g :: q.epoch < g < q.epochs ==> HasBarrier(h, g)
    ensures NextColour(h, q.ordcolor) == Parity(q.epoch + 1)
  {
    if h == [] {
      assert q.epoch + 1 < q.epochs ==> HasBarrier(h, q.epoch + 1);
    } else {
      assert h[0] in h && HeadShape(q, h[0]);
      if h[0].barrier {
        assert HasBarrier(h, q.epoch + 1);
        var b :| b in h && b.kind == Fs && b.barrier && b.gen == q.epoch + 1;
        var j := MemberIndex(h, b);
        assert j == 0 || Before(h[0], b);
      } else {
        assert h == [h[0]] + h[1..];
        assert forall g :: HasBarrier(h, g) ==> HasBarrier(h[1..], g);
        ColourAhead(q, h[1..]);
      }
    }
  }

  // Wherever a barrier is turned away while requests are in flight, the order can be
  // broken from there.
  lemma BusyRejectionBreaksOrder(q: Queue) returns (actions: seq<Action>, q': Queue)
    requires ProtocolInv(q) && HistoryInv(q) && RejectsBusy(q, DoNext)
    ensures RunsTo(Apply(q, DoNext), actions, q') && !LogOrdered(q'.log)
  {
    LeftBehind(q);
    var rest;
    rest, q' := Break(AfterBusy(q), q.driver[0]);
    actions := [DoSetOrdered(DRAINING)] + rest;
    RunJoin(RejectBarrier(q), [DoSetOrdered(DRAINING)], AfterBusy(q), rest, q');
  }

  // And without turning away another, the queue can be made to hang.
  lemma BusyRejectionHangs(q: Queue) returns (actions: seq<Action>, q': Queue)
    requires ProtocolInv(q) && HistoryInv(q) && RejectsBusy(q, DoNext)
    ensures Calm(Apply(q, DoNext), actions, q') && Stuck(q')
  {
    LeftBehind(q);
    var rest;
    rest, q' := Hang(AfterBusy(q), q.driver[0]);
    actions := [DoSetOrdered(DRAINING)] + rest;
    CalmJoin(RejectBarrier(q), [DoSetOrdered(DRAINING)], AfterBusy(q), rest, q');
  }

  // Every continuation that turns no barrier away while busy is ordered and never hangs.
  ghost predicate StaysSafe(q: Queue) {
    forall actions, q' :: Calm(q, actions, q') ==> LogOrdered(q'.log) && !Stuck(q')
  }

  // A step leaves the queue safe for good exactly if it turns no barrier away while busy.
  lemma SafeExactly(q: Queue, a: Action)
    requires ProtocolInv(q) && HistoryInv(q) && Enabled(q, a) && NoFault(q, a)
    ensures StaysSafe(Apply(q, a)) <==> !RejectsBusy(q, a)
  {
    if RejectsBusy(q, a) {
      var actions, q' := BusyRejectionHangs(q);
      assert Calm(Apply(q, a), actions, q');
    } else {
      StepKeeps(q, a);
      StepHistory(q, a);
      forall actions, q' | Calm(Apply(q, a), actions, q') ensures LogOrdered(q'.log) && !Stuck(q') {
        RunKeeps(Apply(q, a), actions, q');
        if Sequencing(q') && q'.driver == [] { NeverStuck(q'); }
      }
    }
  }

  // Such states are reachable: one request out, a barrier behind it, and the queue
  // switched to unordered.
  lemma BusyRejectionReachable(none: Request) returns (q0: Queue, actions: seq<Action>, q: Queue)
    ensures Initial(q0) && Calm(q0, actions, q) && ProtocolInv(q) && HistoryInv(q) && RejectsBusy(q, DoNext)
  {
    q0 := Queue([], [], [], 0, {}, DRAINING, false, none, [], 0, 0, []);
    var add, bar, off := DoAddBack(false, false, 0), DoAddBack(true, false, 0), DoSetOrdered(Unordered);
    var q1 := Apply(q0, add);
    var q2 := Apply(q1, DoNext);
    var q3 := Apply(q2, DoDequeue(0));
    var q4 := Apply(q3, bar);
    q := Apply(q4, off);
    CalmStep(q0, add);
    CalmStep(q1, DoNext);
    CalmStep(q2, DoDequeue(0));
    CalmStep(q3, bar);
    CalmStep(q4, off);
    CalmJoin(q3, [bar], q4, [off], q);
    CalmJoin(q2, [DoDequeue(0)], q3, [bar] + [off], q);
    CalmJoin(q1, [DoNext], q2, [DoDequeue(0)] + ([bar] + [off]), q);
    actions := [add] + ([DoNext] + ([DoDequeue(0)] + ([bar] + [off])));
    CalmJoin(q0, [add], q1, [DoNext] + ([DoDequeue(0)] + ([bar] + [off])), q);
    InitialHolds(q0);
    RunKeeps(q0, actions, q);
  }

  // So the order can be broken from an empty queue.
  lemma OrderCanBreak(none: Request) returns (q0: Queue, actions: seq<Action>, q': Queue)
    ensures Initial(q0) && RunsTo(q0, actions, q') && !LogOrdered(q'.log)
  {
    var a0, q;
    q0, a0, q := BusyRejectionReachable(none);
    var rest;
    rest, q' := BusyRejectionBreaksOrder(q);
    NextThen(q, rest, q');
    actions := a0 + ([DoNext] + rest);
    RunJoin(q0, a0, q, [DoNext] + rest, q');
  }

  lemma NextThen(q: Queue, rest: seq<Action>, q': Queue)
    requires NoFault(q, DoNext) && RunsTo(Apply(q, DoNext), rest, q')
    ensures RunsTo(q, [DoNext] + rest, q')
  {
    assert ([DoNext] + rest)[1..] == rest;
  }
}
