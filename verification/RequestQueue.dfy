/**
  The request queue as the block layer runs it: fields updated in place, list
  scans for sorted dispatch and for requeueing, and the loop that fetches the
  next request.  Every method is a run of steps of the barrier protocol.
 */
module BlockQueue {
  import opened Sets
  import opened Barrier
  import opened BarrierInvariant
  import opened BarrierOrder

  // ----- elevator order: from the boundary upwards, then from the start of the disk

  predicate Ahead(a: nat, b: nat, boundary: nat) {
    (a >= boundary && b < boundary) || ((a >= boundary) == (b >= boundary) && a < b)
  }

  // elv_dispatch_sort passes a queued request when neither its flags nor its sector stop it.
  predicate Passes(pos: Request, sector: nat, boundary: nat) {
    !Fixed(pos) && Ahead(sector, pos.sector, boundary)
  }

  ghost predicate SortPosition(h: seq<Request>, sector: nat, boundary: nat, k: nat) {
    && k <= |h|
    && (forall j :: k <= j < |h| ==> Passes(h[j], sector, boundary))
    && (k > 0 ==> !Passes(h[k - 1], sector, boundary))
  }

  // The backward scan of elv_dispatch_sort.
  method FindSortPosition(h: seq<Request>, sector: nat, boundary: nat) returns (k: nat)
    ensures SortPosition(h, sector, boundary, k)
  {
    k := |h|;
    while k > 0
      invariant k <= |h|
      invariant forall j :: k <= j < |h| ==> Passes(h[j], sector, boundary)
    {
      var pos := h[k - 1];
      if Fixed(pos) {
        break;
      }
      if sector >= boundary {
        if pos.sector < boundary {
          k := k - 1;
          continue;
        }
      } else {
        if pos.sector >= boundary {
          break;
        }
      }
      if sector >= pos.sector {
        break;
      }
      k := k - 1;
    }
  }

  // Between fixed requests the queue is in elevator order.
  ghost predicate ElevatorOrdered(h: seq<Request>, boundary: nat) {
    forall i :: 0 < i < |h| && !Fixed(h[i - 1]) && !Fixed(h[i]) ==>
      !Ahead(h[i].sector, h[i - 1].sector, boundary)
  }

  lemma SortedInsertionKeepsElevatorOrder(h: seq<Request>, r: Request, boundary: nat, k: nat)
    requires ElevatorOrdered(h, boundary) && SortPosition(h, r.sector, boundary, k)
    ensures ElevatorOrdered(InsertAt(h, k, r), boundary)
  {
    var s := InsertAt(h, k, r);
    forall i | 0 < i < |s| && !Fixed(s[i - 1]) && !Fixed(s[i])
      ensures !Ahead(s[i].sector, s[i - 1].sector, boundary)
    {
      assert i < k ==> s[i] == h[i];
      assert i > k ==> s[i] == h[i - 1];
      assert i - 1 < k ==> s[i - 1] == h[i - 1];
      assert i - 1 > k ==> s[i - 1] == h[i - 2];
    }
  }

  // ----- what every operation keeps

  datatype Promise = Protocol | History

  ghost predicate Kept(q: Queue, p: Promise) {
    match p
    case Protocol => ProtocolInv(q)
    case History => HistoryInv(q)
  }

  ghost predicate Good(q: Queue) { forall p :: Kept(q, p) }

  lemma Promises(q: Queue)
    ensures Good(q) <==> ProtocolInv(q) && HistoryInv(q)
  {
    if Good(q) { assert Kept(q, Protocol) && Kept(q, History); }
  }

  // One protocol step: what every method below is made of.
  lemma Stepped(q: Queue, a: Action)
    requires Good(q) && Enabled(q, a)
    ensures NoFault(q, a)
    ensures Good(Apply(q, a)) <==> !RejectsBusy(q, a)
  {
    Promises(q);
    StepIsSafe(q, a);
    StepKeepsExactly(q, a);
    StepHistory(q, a);
    Promises(Apply(q, a));
  }

  // The proxies of the barrier that was at the head stand in front of what was behind it:
  // the flushes the mode has, and between them the barrier's own data, to its own sector.
  ghost predicate Stacked(before: seq<Request>, mode: Mode, after: seq<Request>)
    requires before != [] && mode.Draining?
  {
    var bar := before[0];
    var pre, post := if mode.preflush then 1 else 0, if mode.postflush && !bar.empty then 1 else 0;
    && |after| == pre + 1 + post + |before| - 1
    && (pre == 1 ==> after[0].kind == PreFlush && after[0].id == bar.id)
    && after[pre].kind == Bar && after[pre].id == bar.id
    && after[pre].sector == bar.sector && after[pre].empty == bar.empty && !after[pre].started
    && (post == 1 ==> after[pre + 1].kind == PostFlush && after[pre + 1].id == bar.id)
    && after[pre + 1 + post..] == before[1..]
  }

  lemma StartStacks(q: Queue)
    requires q.head != [] && q.nextOrdered.Draining?
    ensures Stacked(q.head, q.nextOrdered, StartOrdered(q).head)
  {
  }

  class RequestQueue {
    var head: seq<Request>
    var sched: seq<Request>
    var driver: seq<Request>
    var inFlight: nat
    var ordseq: set<nat>
    var nextOrdered: Mode
    var ordcolor: bool
    var orig: Request
    // bookkeeping of the order of addition; nothing below decides anything by it
    var added: seq<bool>
    var epoch: nat
    var epochs: nat
    ghost var log: seq<Event>

    ghost function State(): Queue
      reads this
    {
      Queue(head, sched, driver, inFlight, ordseq, nextOrdered, ordcolor, orig, added, epoch, epochs, log)
    }

    ghost predicate Valid()
      reads this
    {
      Good(State())
    }

    constructor (mode: Mode, none: Request)
      ensures Valid() && Initial(State()) && nextOrdered == mode
    {
      head, sched, driver, inFlight, ordseq := [], [], [], 0, {};
      nextOrdered, ordcolor, orig := mode, false, none;
      added, epoch, epochs, log := [], 0, 0, [];
      new;
      InitialHolds(State());
      Promises(State());
    }

    // The I/O scheduler hands its request i to elv_dispatch_sort.
    method DispatchSort(i: nat, boundary: nat) returns (k: nat)
      requires Valid() && i < |sched|
      modifies this`head, this`sched
      ensures SortPosition(old(head), old(sched)[i].sector, boundary, k)
      ensures Valid() && State() == Dispatch(old(State()), i, k)
    {
      var r := sched[i];
      k := FindSortPosition(head, r.sector, boundary);
      Stepped(State(), DoDispatch(i, k));
      sched := sched[..i] + sched[i + 1..];
      head := head[..k] + [r] + head[k..];
    }

    // elv_drain_elevator: forced dispatch, in the scheduler's own order, until it holds
    // nothing.
    method Drain(boundary: nat, pick: seq<Request> -> nat) returns (ghost actions: seq<Action>)
      requires Valid()
      modifies this`head, this`sched
      ensures Valid() && sched == [] && RunsTo(old(State()), actions, State())
      ensures forall a :: a in actions ==> a.DoDispatch?
    {
      actions := [];
      while sched != []
        invariant Valid() && RunsTo(old(State()), actions, State())
        invariant forall a :: a in actions ==> a.DoDispatch?
        decreases |sched|
      {
        ghost var before := State();
        var i := pick(sched) % |sched|;
        var k := DispatchSort(i, boundary);
        RunExtends(old(State()), actions, before, DoDispatch(i, k));
        actions := actions + [DoDispatch(i, k)];
      }
    }

    // elv_insert, sorted.
    method InsertSorted(sector: nat)
      modifies this`sched, this`added, this`log
      ensures State() == AddSorted(old(State()), sector)
    {
      sched := sched + [Request(Fs, |added|, epochs, ordcolor, false, false, false, false, sector)];
      log := log + [Added(|added|, false)];
      added := added + [false];
    }

    // elv_insert at the back, after the drain, with the colour toggled by a barrier.
    method InsertBack(barrier: bool, empty: bool, sector: nat)
      requires sched == []
      modifies this`head, this`ordcolor, this`epochs, this`added, this`log
      ensures State() == AddBack(old(State()), barrier, empty, sector)
    {
      head := head + [Request(Fs, |added|, epochs, ordcolor, barrier, empty, true, false, sector)];
      if barrier {
        ordcolor := !ordcolor;
        epochs := epochs + 1;
      }
      log := log + [Added(|added|, barrier)];
      added := added + [barrier];
    }

    // __elv_add_request for a file system request; `sort` asks for sorted insertion.
    method AddRequest(sort: bool, barrier: bool, empty: bool, sector: nat, boundary: nat, pick: seq<Request> -> nat)
      returns (ghost actions: seq<Action>)
      requires Valid()
      modifies this`head, this`sched, this`ordcolor, this`epochs, this`added, this`log
      ensures Valid() && RunsTo(old(State()), actions, State())
      ensures actions != [] && actions[|actions| - 1] ==
                if sort && !barrier then DoAddSorted(sector) else DoAddBack(barrier, empty, sector)
      ensures sort && !barrier ==> head == old(head)
      ensures !sort || barrier ==> sched == [] && head != [] && head[|head| - 1].id == |old(added)|
      ensures added == old(added) + [barrier] && ordcolor == (old(ordcolor) != barrier)
    {
      actions := [];
      ghost var last;
      if sort && !barrier {
        last := DoAddSorted(sector);
        Stepped(State(), last);
        RunExtends(old(State()), actions, State(), last);
        InsertSorted(sector);
      } else {
        actions := Drain(boundary, pick);
        last := DoAddBack(barrier, empty, sector);
        Stepped(State(), last);
        RunExtends(old(State()), actions, State(), last);
        InsertBack(barrier, empty, sector);
      }
      actions := actions + [last];
    }

    // blk_queue_ordered: the mode for barriers started from now on.
    method SetOrdered(mode: Mode)
      requires Valid()
      modifies this`nextOrdered
      ensures Valid() && State() == Apply(old(State()), DoSetOrdered(mode)) && nextOrdered == mode
    {
      Stepped(State(), DoSetOrdered(mode));
      nextOrdered := mode;
    }

    // start_ordered: the proxies are stacked at the head in reverse order.
    method BeginSequence()
      requires ordseq == {} && head != [] && nextOrdered.Draining?
      modifies this`orig, this`head, this`ordseq, this`log
      ensures State() == StartOrdered(old(State()))
      ensures Stacked(old(head), nextOrdered, head)
    {
      var bar, rest, bits := head[0], head[1..], {STARTED};
      ghost var events := log;
      if nextOrdered.postflush && !bar.empty {
        rest := [FlushProxy(bar, PostFlush)] + rest;
      } else {
        bits := bits + {POSTFLUSH};
        events := events + [PhaseSkipped(bar.id, POSTFLUSH)];
      }
      rest := [BarProxy(bar)] + rest;
      if nextOrdered.preflush {
        rest := [FlushProxy(bar, PreFlush)] + rest;
      } else {
        bits := bits + {PREFLUSH};
        events := events + [PhaseSkipped(bar.id, PREFLUSH)];
      }
      if inFlight == 0 {
        bits := bits + {DRAIN};
        events := events + [PhaseDone(bar.id, DRAIN)];
      }
      StackedProxies(bar, nextOrdered, head[1..]);
      StackedLog(bar, nextOrdered, inFlight, log);
      StackedBits(bar, nextOrdered, inFlight);
      StartStacks(State());
      orig, head, ordseq, log := bar, rest, bits, events;
    }

    // blk_ordered_complete_seq
    method EndPhase(phase: nat)
      requires phase !in ordseq
      modifies this`ordseq, this`epoch, this`log
      ensures State() == CompleteSeq(old(State()), phase)
    {
      ordseq := ordseq + {phase};
      log := log + [PhaseDone(orig.id, phase)];
      if CurSeq(ordseq) == DONE {
        ordseq := {};
        epoch := epoch + 1;
        log := log + [Ended(orig.id)];
      }
    }

    // elv_dequeue_request
    method DequeueRequest(i: nat)
      requires Valid() && i < |head| && head[i].started
      modifies this`head, this`driver, this`inFlight
      ensures Valid() && State() == Dequeue(old(State()), i)
    {
      Stepped(State(), DoDequeue(i));
      var r := head[i];
      head := head[..i] + head[i + 1..];
      driver := driver + [r];
      if Accounted(r) {
        inFlight := inFlight + 1;
      }
    }

    // elv_completed_request and the *_end_io functions.
    method CompleteRequest(i: nat)
      requires Valid() && i < |driver|
      modifies this`driver, this`inFlight, this`ordseq, this`epoch, this`log
      ensures NoFault(old(State()), DoComplete(i)) && State() == Apply(old(State()), DoComplete(i))
      ensures Valid()
    {
      Stepped(State(), DoComplete(i));
      FinishRequest(i);
    }

    method FinishRequest(i: nat)
      requires i < |driver| && CompletionSafe(State(), i)
      modifies this`driver, this`inFlight, this`ordseq, this`epoch, this`log
      ensures State() == Complete(old(State()), i)
    {
      var r := driver[i];
      driver := driver[..i] + driver[i + 1..];
      if Accounted(r) {
        inFlight := inFlight - 1;
      }
      if r.kind == Fs {
        log := log + [Completed(r.id)];
      }
      if ordseq != {} && inFlight == 0 && CurSeq(ordseq) == DRAIN {
        var firstSeq := ReqSeqOf(head[0]);
        if firstSeq > DRAIN {
          EndPhase(DRAIN);
        }
      }
      if r.kind != Fs {
        EndPhase(PhaseOf(r.kind));
      }
    }

    // elv_requeue_request
    method RequeueRequest(i: nat)
      requires Valid() && i < |driver|
      modifies this`head, this`driver, this`inFlight
      ensures NoFault(old(State()), DoRequeue(i)) && State() == Apply(old(State()), DoRequeue(i))
      ensures Valid()
    {
      Stepped(State(), DoRequeue(i));
      if Accounted(driver[i]) {
        inFlight := inFlight - 1;
      }
      var r := driver[i].(started := false, soft := true);
      driver := driver[..i] + driver[i + 1..];
      var k := 0;
      if ordseq != {} {
        k := FindRequeuePosition(head, r);
        PositionsAgree(State(), old(State()), head, r);
      }
      head := head[..k] + [r] + head[k..];
    }

    // The forward scan of elv_insert for a requeued request.
    method FindRequeuePosition(h: seq<Request>, r: Request) returns (k: nat)
      ensures k == FirstAtLeast(State(), h, ReqSeq(State(), r))
    {
      ghost var q := State();
      var s := ReqSeqOf(r);
      k := 0;
      while k < |h|
        invariant k <= |h|
        invariant FirstAtLeast(q, h, s) == k + FirstAtLeast(q, h[k..], s)
      {
        var posSeq := ReqSeqOf(h[k]);
        assert h[k..][0] == h[k] && h[k..][1..] == h[k + 1..];
        if s <= posSeq {
          break;
        }
        k := k + 1;
      }
    }

    // blk_ordered_req_seq
    method ReqSeqOf(r: Request) returns (s: nat)
      ensures s == ReqSeq(State(), r)
    {
      if r.kind == PreFlush { return PREFLUSH; }
      if r.kind == Bar { return BAR; }
      if r.kind == PostFlush { return POSTFLUSH; }
      if r.color == orig.color { return DRAIN; } else { return DONE; }
    }

    // elv_next_request's last part, for a head that blk_do_ordered lets through.
    method DeliverHead() returns (handed: bool)
      requires head != [] && (EmptyBarrier(head[0]) ==> BAR !in ordseq)
      modifies this`head, this`ordseq, this`epoch, this`log
      ensures State() == Deliver(old(State()))
      ensures handed == !EmptyBarrier(old(head)[0])
      ensures handed ==> head != [] && head[0] == old(head)[0].(started := true)
      ensures !handed ==> |head| == |old(head)| - 1
    {
      var r := head[0];
      if EmptyBarrier(r) {
        head := head[1..];
        log := log + [Absorbed(r.id)];
        EndPhase(BAR);
        handed := false;
      } else {
        head := [r.(started := true)] + head[1..];
        log := log + [if r.kind == Fs then Issued(r.id) else ProxyIssued(r.id, PhaseOf(r.kind))];
        handed := true;
      }
    }

    // blk_do_ordered and elv_next_request on the head of the queue.
    method NextOnce() returns (o: Outcome)
      requires NextSafe(State())
      modifies this`head, this`orig, this`ordseq, this`epoch, this`log
      ensures State() == Next(old(State()))
      ensures o.Handed? ==> head != [] && head[0] == o.request && o.request.started && !EmptyBarrier(o.request)
      ensures o.Again? ==> |head| < |old(head)|
      ensures o.Waiting? ==> head == [] || (ordseq != {} && !Ready(State()))
    {
      if head == [] {
        return Waiting;
      }
      if ordseq != {} {
        var s := ReqSeqOf(head[0]);
        if s > CurSeq(ordseq) {
          return Waiting;
        }
      } else if head[0].barrier {
        if nextOrdered == Unordered {
          log := log + [Rejected(head[0].id)];
          head := head[1..];
          epoch := epoch + 1;
          return Again;
        }
        BeginSequence();
        if inFlight != 0 {
          return Waiting;
        }
      }
      var handed := DeliverHead();
      o := if handed then Handed(head[0]) else Again;
    }

    // One turn on a queue in order, which stays so unless it turns a barrier away while busy.
    method NextTurn() returns (o: Outcome)
      requires Valid()
      modifies this`head, this`orig, this`ordseq, this`epoch, this`log
      ensures NoFault(old(State()), DoNext) && State() == Apply(old(State()), DoNext)
      ensures Valid() <==> !RejectsBusy(old(State()), DoNext)
      ensures o.Handed? ==> head != [] && head[0] == o.request && o.request.started && !EmptyBarrier(o.request)
      ensures o.Again? ==> |head| < |old(head)|
      ensures o.Waiting? ==> head == [] || (ordseq != {} && !Ready(State()))
    {
      Stepped(State(), DoNext);
      o := NextOnce();
    }

    // elv_next_request: fetch the next request that the driver may have.  Barriers that an
    // unordered queue turns away and empty placeholders are passed over.
    method NextRequest() returns (rq: Option<Request>, ghost actions: seq<Action>)
      requires Valid()
      modifies this`head, this`orig, this`ordseq, this`epoch, this`log
      ensures RunsTo(old(State()), actions, State()) && forall a :: a in actions ==> a == DoNext
      ensures OrderedRun(old(State()), actions) || nextOrdered.Draining? || inFlight == 0 ==> Valid()
      ensures rq.Some? ==> head != [] && head[0] == rq.value && rq.value.started && !EmptyBarrier(rq.value)
      ensures rq.None? ==> head == [] || (ordseq != {} && !Ready(State()))
      ensures rq.None? && Valid() && driver == [] ==> head == []
    {
      actions := [];
      while true
        invariant RunsTo(old(State()), actions, State()) && forall a :: a in actions ==> a == DoNext
        invariant OrderedRun(old(State()), actions) || nextOrdered.Draining? || inFlight == 0 ==> Valid()
        invariant Valid() || (ordseq == {} && nextOrdered == Unordered)
        decreases |head|
      {
        ghost var q := State();
        Turned(q);
        RunExtends(old(State()), actions, q, DoNext);
        if OrderedRun(old(State()), actions + [DoNext]) { OrderedExtends(old(State()), actions, q, DoNext); }
        actions := actions + [DoNext];
        var o := NextOnce();
        NotStuck(State());
        match o
        case Handed(r) => return Some(r), actions;
        case Waiting => return None, actions;
        case Again =>
      }
    }
  }

  lemma NotStuck(q: Queue)
    ensures Good(q) && q.driver == [] && Sequencing(q) ==> Ready(q)
  {
    if Good(q) && q.driver == [] && Sequencing(q) {
      Promises(q);
      NeverStuck(q);
    }
  }

  // A turn never faults, on a queue in order or on one that turned a barrier away.
  lemma Turned(q: Queue)
    requires Good(q) || (q.ordseq == {} && q.nextOrdered == Unordered)
    ensures NoFault(q, DoNext)
    ensures Good(q) && !RejectsBusy(q, DoNext) ==> Good(Next(q))
    ensures Good(Next(q)) || (Next(q).ordseq == {} && q.nextOrdered == Unordered)
  {
    if Good(q) { Stepped(q, DoNext); }
  }

  lemma {:induction false} OrderedExtends(q: Queue, actions: seq<Action>, q1: Queue, a: Action)
    requires RunsTo(q, actions, q1) && Enabled(q1, a) && NoFault(q1, a) && OrderedRun(q, actions + [a])
    ensures OrderedRun(q, actions) && !RejectsBusy(q1, a)
    decreases |actions|
  {
    if actions == [] {
      assert actions + [a] == [a];
    } else {
      assert (actions + [a])[0] == actions[0] && (actions + [a])[1..] == actions[1..] + [a];
      OrderedExtends(Apply(q, actions[0]), actions[1..], q1, a);
    }
  }

  // Stacking the proxies one by one at the head builds the sequence in its order.
  lemma StackedProxies(orig: Request, mode: Mode, rest: seq<Request>)
    requires mode.Draining?
    ensures var h1 := if mode.postflush && !orig.empty then [FlushProxy(orig, PostFlush)] + rest else rest;
            var h2 := [BarProxy(orig)] + h1;
            var h3 := if mode.preflush then [FlushProxy(orig, PreFlush)] + h2 else h2;
            h3 == Proxies(orig, mode) + rest
  {
  }

  lemma StackedLog(orig: Request, mode: Mode, inFlight: nat, log: seq<Event>)
    requires mode.Draining?
    ensures var l1 := if mode.postflush && !orig.empty then log else log + [PhaseSkipped(orig.id, POSTFLUSH)];
            var l2 := if mode.preflush then l1 else l1 + [PhaseSkipped(orig.id, PREFLUSH)];
            var l3 := if inFlight == 0 then l2 + [PhaseDone(orig.id, DRAIN)] else l2;
            l3 == log + SkippedLog(orig, mode, inFlight)
  {
  }

  lemma StackedBits(orig: Request, mode: Mode, inFlight: nat)
    requires mode.Draining?
    ensures var b0 := {STARTED};
            var b1 := if mode.postflush && !orig.empty then b0 else b0 + {POSTFLUSH};
            var b2 := if mode.preflush then b1 else b1 + {PREFLUSH};
            var b3 := if inFlight == 0 then b2 + {DRAIN} else b2;
            b3 == {STARTED} + Skipped(orig, mode, inFlight)
  {
  }

  datatype Outcome = Handed(request: Request) | Waiting | Again

  lemma {:induction false} PositionsAgree(q: Queue, q': Queue, h: seq<Request>, r: Request)
    requires q.orig == q'.orig
    ensures FirstAtLeast(q, h, ReqSeq(q, r)) == FirstAtLeast(q', h, ReqSeq(q', r))
    decreases |h|
  {
    if h != [] { PositionsAgree(q, q', h[1..], r); }
  }

  lemma {:induction false} RunExtends(q: Queue, actions: seq<Action>, q1: Queue, a: Action)
    requires RunsTo(q, actions, q1) && Enabled(q1, a) && NoFault(q1, a)
    ensures RunsTo(q, actions + [a], Apply(q1, a))
    decreases |actions|
  {
    if actions == [] {
      assert actions + [a] == [a] && [a][1..] == [];
    } else {
      RunExtends(Apply(q, actions[0]), actions[1..], q1, a);
      assert (actions + [a])[1..] == actions[1..] + [a];
    }
  }
}
