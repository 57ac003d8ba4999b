/**
  What the barrier protocol carries and which flushes it makes, over whole runs.  Every
  request and every barrier's own proxy keeps the sector and emptiness it was added with,
  and a flush is left out exactly when the mode in force at the start of the barrier, the
  one last set, has no such flush.
 */
module BarrierPayload {
  import opened Barrier
  import opened BarrierInvariant
  import opened BarrierOrder

  // ----- what was asked for

  // What a submitter gave, by order of addition.
  datatype Spec = Spec(barrier: bool, empty: bool, sector: nat)

  function Asked(a: Action): seq<Spec> {
    match a
    case DoAddSorted(sector) => [Spec(false, false, sector)]
    case DoAddBack(barrier, empty, sector) => [Spec(barrier, empty, sector)]
    case _ => []
  }

  function Additions(actions: seq<Action>): seq<Spec> {
    if actions == [] then [] else Asked(actions[0]) + Additions(actions[1..])
  }

  function ModeSet(mode: Mode, a: Action): Mode { if a.DoSetOrdered? then a.mode else mode }

  // The mode last set.
  function ModeAfter(mode: Mode, actions: seq<Action>): Mode
    decreases |actions|
  {
    if actions == [] then mode else ModeAfter(ModeSet(mode, actions[0]), actions[1..])
  }

  // ----- sectors

  // A request is what was added under its number; so is the data proxy of a barrier.
  ghost predicate Fits(adds: seq<Spec>, r: Request) {
    && r.id < |adds|
    && (r.kind == Fs || r.kind == Bar ==> Spec(r.barrier, r.empty, r.sector) == adds[r.id])
    && (r.kind != Fs ==> adds[r.id].barrier)
  }

  ghost predicate AllFit(adds: seq<Spec>, s: seq<Request>) { forall r :: r in s ==> Fits(adds, r) }

  ghost predicate Carries(q: Queue, adds: seq<Spec>) {
    |adds| == |q.added| && AllFit(adds, q.head) && AllFit(adds, q.sched) && AllFit(adds, q.driver)
  }

  lemma FitMore(adds: seq<Spec>, more: seq<Spec>, s: seq<Request>)
    requires AllFit(adds, s)
    ensures AllFit(adds + more, s)
  {
  }

  lemma FitJoin(adds: seq<Spec>, s: seq<Request>, s': seq<Request>)
    requires AllFit(adds, s) && AllFit(adds, s')
    ensures AllFit(adds, s + s')
  {
  }

  lemma FitInsert(adds: seq<Spec>, s: seq<Request>, k: nat, r: Request)
    requires AllFit(adds, s) && k <= |s| && Fits(adds, r)
    ensures AllFit(adds, InsertAt(s, k, r))
  {
    assert forall x :: x in InsertAt(s, k, r) ==> x in s || x == r;
  }

  lemma FitRemove(adds: seq<Spec>, s: seq<Request>, i: nat)
    requires AllFit(adds, s) && i < |s|
    ensures AllFit(adds, RemoveAt(s, i)) && Fits(adds, s[i])
  {
    assert forall x :: x in RemoveAt(s, i) ==> x in s;
  }

  lemma FitTail(adds: seq<Spec>, s: seq<Request>)
    requires AllFit(adds, s) && s != []
    ensures AllFit(adds, s[1..]) && Fits(adds, s[0])
  {
    assert forall x :: x in s[1..] ==> x in s;
  }

  lemma StartCarries(q: Queue, adds: seq<Spec>)
    requires Carries(q, adds) && q.head != [] && q.nextOrdered.Draining? && q.head[0].kind == Fs && q.head[0].barrier
    ensures Carries(StartOrdered(q), adds)
  {
    FitTail(adds, q.head);
    FitJoin(adds, Proxies(q.head[0], q.nextOrdered), q.head[1..]);
  }

  lemma DeliverCarries(q: Queue, adds: seq<Spec>)
    requires Carries(q, adds) && q.head != [] && (EmptyBarrier(q.head[0]) ==> BAR !in q.ordseq)
    ensures Carries(Deliver(q), adds)
  {
    FitTail(adds, q.head);
    if !EmptyBarrier(q.head[0]) { FitJoin(adds, [q.head[0].(started := true)], q.head[1..]); }
  }

  lemma NextCarries(q: Queue, adds: seq<Spec>)
    requires ProtocolInv(q) && Carries(q, adds) && NextSafe(q)
    ensures Carries(Next(q), adds)
  {
    if q.head != [] {
      FitTail(adds, q.head);
      if Ready(q) {
        DeliverCarries(q, adds);
      } else if !Sequencing(q) && q.nextOrdered.Draining? {
        assert HeadShape(q, q.head[0]);
        StartCarries(q, adds);
        if q.inFlight == 0 { DeliverCarries(StartOrdered(q), adds); }
      }
    }
  }

  // Every step hands on what it was given.
  lemma StepCarries(q: Queue, a: Action, adds: seq<Spec>)
    requires ProtocolInv(q) && Carries(q, adds) && Enabled(q, a) && NoFault(q, a)
    ensures Carries(Apply(q, a), adds + Asked(a))
  {
    if a.DoAddSorted? || a.DoAddBack? {
      AddCarries(q, a, adds);
    } else {
      assert adds + Asked(a) == adds;
      MoveCarries(q, a, adds);
    }
  }

  lemma AddCarries(q: Queue, a: Action, adds: seq<Spec>)
    requires Carries(q, adds) && Enabled(q, a) && NoFault(q, a) && (a.DoAddSorted? || a.DoAddBack?)
    ensures Carries(Apply(q, a), adds + Asked(a))
  {
    FitMore(adds, Asked(a), q.head);
    FitMore(adds, Asked(a), q.sched);
    FitMore(adds, Asked(a), q.driver);
    if a.DoAddSorted? {
      FitJoin(adds + Asked(a), q.sched, [NewRequest(q, false, false, false, a.sector)]);
    } else {
      FitJoin(adds + Asked(a), q.head, [NewRequest(q, a.barrier, a.empty, true, a.sector)]);
    }
  }

  lemma MoveCarries(q: Queue, a: Action, adds: seq<Spec>)
    requires ProtocolInv(q) && Carries(q, adds) && Enabled(q, a) && NoFault(q, a) && !a.DoAddSorted? && !a.DoAddBack?
    ensures Carries(Apply(q, a), adds)
  {
    match a
    case DoDispatch(i, k) =>
      FitRemove(adds, q.sched, i);
      FitInsert(adds, q.head, k, q.sched[i]);
    case DoNext => NextCarries(q, adds);
    case DoDequeue(i) =>
      FitRemove(adds, q.head, i);
      FitJoin(adds, q.driver, [q.head[i]]);
    case DoComplete(i) => FitRemove(adds, q.driver, i);
    case DoRequeue(i) => RequeueCarries(q, i, adds);
    case DoSetOrdered(mode) =>
  }

  lemma RequeueCarries(q: Queue, i: nat, adds: seq<Spec>)
    requires Carries(q, adds) && i < |q.driver| && (Accounted(q.driver[i]) ==> q.inFlight > 0)
    ensures Carries(Requeue(q, i), adds)
  {
    FitRemove(adds, q.driver, i);
    var r := q.driver[i].(started := false, soft := true);
    FitInsert(adds, q.head, if Sequencing(q) then FirstAtLeast(q, q.head, ReqSeq(q, r)) else 0, r);
  }

  // ----- flushes

  // The next step starts the barrier at the head.
  predicate Starts(q: Queue, a: Action) {
    a == DoNext && q.head != [] && !Sequencing(q) && q.head[0].barrier && q.nextOrdered.Draining?
  }

  predicate Lacks(mode: Mode, empty: bool, phase: nat) {
    mode.Draining? && ((phase == PREFLUSH && !mode.preflush) || (phase == POSTFLUSH && !(mode.postflush && !empty)))
  }

  // The flushes left out are those that the mode of each started barrier lacks; only a
  // barrier with data has it handed out, and only one without is absorbed.
  ghost predicate Told(log: seq<Event>, adds: seq<Spec>, modes: map<nat, Mode>) {
    && (forall b :: b in modes ==> b < |adds| && modes[b].Draining?)
    && (forall b: nat, p: nat :: PhaseSkipped(b, p) in log <==> b in modes && b < |adds| && Lacks(modes[b], adds[b].empty, p))
    && (forall b: nat :: ProxyIssued(b, BAR) in log ==> b < |adds| && !adds[b].empty)
    && (forall b: nat :: Absorbed(b) in log ==> b < |adds| && adds[b].empty)
    && (forall b: nat :: Ended(b) in log ==> b in modes)
  }

  // A started barrier is the one running or is finished.
  ghost predicate Begun(q: Queue, modes: map<nat, Mode>) {
    && (Sequencing(q) ==> q.orig.id in modes)
    && (forall b :: b in modes ==> Finished(q.log, b) || (Sequencing(q) && b == q.orig.id))
  }

  ghost predicate Fair(e: Event, adds: seq<Spec>, modes: map<nat, Mode>) {
    match e
    case PhaseSkipped(_, _) => false
    case ProxyIssued(b, p) => p == BAR ==> b < |adds| && !adds[b].empty
    case Absorbed(b) => b < |adds| && adds[b].empty
    case Ended(b) => b in modes
    case _ => true
  }

  lemma ToldAppend(log: seq<Event>, adds: seq<Spec>, modes: map<nat, Mode>, e: Event)
    requires Told(log, adds, modes) && Fair(e, adds, modes)
    ensures Told(log + [e], adds, modes)
  {
    InAppended(log, e);
  }

  lemma ToldMore(log: seq<Event>, adds: seq<Spec>, more: seq<Spec>, modes: map<nat, Mode>)
    requires Told(log, adds, modes)
    ensures Told(log, adds + more, modes)
  {
  }

  ghost predicate Story(q: Queue, adds: seq<Spec>, modes: map<nat, Mode>) {
    Told(q.log, adds, modes) && Begun(q, modes)
  }

  // An event that leaves the sequence alone.
  lemma StoryAppend(q: Queue, q': Queue, adds: seq<Spec>, modes: map<nat, Mode>, e: Event)
    requires Story(q, adds, modes) && Fair(e, adds, modes)
    requires q'.log == q.log + [e] && q'.ordseq == q.ordseq && q'.orig == q.orig
    ensures Story(q', adds, modes)
  {
    ToldAppend(q.log, adds, modes, e);
    InAppended(q.log, e);
  }

  lemma PhaseStory(q: Queue, adds: seq<Spec>, modes: map<nat, Mode>, phase: nat)
    requires Story(q, adds, modes) && Sequencing(q) && phase !in q.ordseq
    ensures Story(CompleteSeq(q, phase), adds, modes)
  {
    var q1 := PhaseSet(q, phase);
    ToldAppend(q.log, adds, modes, PhaseDone(q.orig.id, phase));
    InAppended(q.log, PhaseDone(q.orig.id, phase));
    assert phase in q1.ordseq;
    assert Story(q1, adds, modes);
    if CurSeq(q1.ordseq) == DONE {
      ToldAppend(q1.log, adds, modes, Ended(q.orig.id));
      InAppended(q1.log, Ended(q.orig.id));
    }
  }

  lemma DeliverStory(q: Queue, adds: seq<Spec>, modes: map<nat, Mode>)
    requires Story(q, adds, modes) && Carries(q, adds) && q.head != []
    requires EmptyBarrier(q.head[0]) ==> BAR !in q.ordseq && Sequencing(q)
    ensures Story(Deliver(q), adds, modes)
  {
    var r := q.head[0];
    FitTail(adds, q.head);
    if EmptyBarrier(r) {
      var q1 := q.(head := q.head[1..], log := q.log + [Absorbed(r.id)]);
      StoryAppend(q, q1, adds, modes, Absorbed(r.id));
      PhaseStory(q1, adds, modes, BAR);
    } else {
      StoryAppend(q, HandOut(q), adds, modes, if r.kind == Fs then Issued(r.id) else ProxyIssued(r.id, PhaseOf(r.kind)));
    }
  }

  lemma SkippedIn(orig: Request, mode: Mode, inFlight: nat)
    requires mode.Draining?
    ensures forall b: nat, p: nat :: PhaseSkipped(b, p) in SkippedLog(orig, mode, inFlight) <==> b == orig.id && Lacks(mode, orig.empty, p)
    ensures forall e :: e in SkippedLog(orig, mode, inFlight) ==> e.PhaseSkipped? || e.PhaseDone?
  {
  }

  lemma StartStory(q: Queue, adds: seq<Spec>, modes: map<nat, Mode>)
    requires HistoryInv(q) && Story(q, adds, modes) && Carries(q, adds) && Starts(q, DoNext) && q.head[0].kind == Fs
    ensures Story(StartOrdered(q), adds, modes[q.head[0].id := q.nextOrdered])
  {
    var orig := q.head[0];
    NotBegun(q);
    FitTail(adds, q.head);
    assert orig.id !in modes;
    StartTold(q.log, adds, modes, orig, q.nextOrdered, q.inFlight);
    assert forall e :: e in q.log ==> e in StartOrdered(q).log;
    assert STARTED in StartOrdered(q).ordseq;
  }

  lemma StartTold(log: seq<Event>, adds: seq<Spec>, modes: map<nat, Mode>, orig: Request, mode: Mode, inFlight: nat)
    requires Told(log, adds, modes) && mode.Draining? && orig.id !in modes
    requires orig.id < |adds| && orig.empty == adds[orig.id].empty
    ensures Told(log + SkippedLog(orig, mode, inFlight), adds, modes[orig.id := mode])
  {
    SkippedIn(orig, mode, inFlight);
    var more := SkippedLog(orig, mode, inFlight);
    assert forall e :: e in log + more <==> e in log || e in more;
  }

  // ----- whole runs

  function ModesStep(q: Queue, a: Action, modes: map<nat, Mode>): map<nat, Mode> {
    if Starts(q, a) then modes[q.head[0].id := q.nextOrdered] else modes
  }

  lemma NextStory(q: Queue, adds: seq<Spec>, modes: map<nat, Mode>)
    requires ProtocolInv(q) && HistoryInv(q) && Story(q, adds, modes) && Carries(q, adds) && NextSafe(q)
    ensures Story(Next(q), adds, ModesStep(q, DoNext, modes))
  {
    if q.head != [] {
      assert HeadShape(q, q.head[0]);
      if Ready(q) {
        DeliverStory(q, adds, modes);
      } else if !Sequencing(q) {
        if q.nextOrdered == Unordered {
          StoryAppend(q, RejectBarrier(q), adds, modes, Rejected(q.head[0].id));
        } else {
          StartStory(q, adds, modes);
          StartCarries(q, adds);
          if q.inFlight == 0 {
            assert STARTED in StartOrdered(q).ordseq;
            DeliverStory(StartOrdered(q), adds, ModesStep(q, DoNext, modes));
          }
        }
      }
    }
  }

  lemma DrainCheckStory(q: Queue, adds: seq<Spec>, modes: map<nat, Mode>)
    requires Story(q, adds, modes) && (Sequencing(q) && q.inFlight == 0 && CurSeq(q.ordseq) == DRAIN ==> q.head != [])
    ensures Story(DrainCheck(q), adds, modes)
  {
    if Sequencing(q) && q.inFlight == 0 && CurSeq(q.ordseq) == DRAIN && ReqSeq(q, q.head[0]) > DRAIN {
      PhaseStory(q, adds, modes, DRAIN);
    }
  }

  lemma CompleteStory(q: Queue, i: nat, adds: seq<Spec>, modes: map<nat, Mode>)
    requires Story(q, adds, modes) && i < |q.driver| && CompletionSafe(q, i)
    ensures Story(Complete(q, i), adds, modes)
  {
    var r, q1 := q.driver[i], Undriven(q, i);
    if r.kind == Fs {
      var q2 := q1.(log := q1.log + [Completed(r.id)]);
      StoryAppend(q1, q2, adds, modes, Completed(r.id));
      DrainCheckStory(q2, adds, modes);
    } else {
      PhaseStory(q1, adds, modes, PhaseOf(r.kind));
    }
  }

  // Moving requests about changes nothing told.
  lemma StorySame(q: Queue, q': Queue, adds: seq<Spec>, modes: map<nat, Mode>)
    requires Story(q, adds, modes) && q'.log == q.log && q'.ordseq == q.ordseq && q'.orig == q.orig
    ensures Story(q', adds, modes)
  {
  }

  lemma AddStory(q: Queue, q': Queue, adds: seq<Spec>, spec: Spec, modes: map<nat, Mode>)
    requires Story(q, adds, modes) && q'.log == q.log + [Added(|q.added|, spec.barrier)]
    requires q'.ordseq == q.ordseq && q'.orig == q.orig
    ensures Story(q', adds + [spec], modes)
  {
    ToldMore(q.log, adds, [spec], modes);
    StoryAppend(q, q', adds + [spec], modes, Added(|q.added|, spec.barrier));
  }

  lemma StepStory(q: Queue, a: Action, adds: seq<Spec>, modes: map<nat, Mode>)
    requires ProtocolInv(q) && HistoryInv(q) && Enabled(q, a) && NoFault(q, a)
    requires Story(q, adds, modes) && Carries(q, adds)
    ensures Story(Apply(q, a), adds + Asked(a), ModesStep(q, a, modes))
  {
    if a.DoAddSorted? || a.DoAddBack? {
      AddStory(q, Apply(q, a), adds, Asked(a)[0], modes);
      assert Asked(a) == [Asked(a)[0]];
    } else {
      assert adds + Asked(a) == adds;
      MoveStory(q, a, adds, modes);
    }
  }

  lemma MoveStory(q: Queue, a: Action, adds: seq<Spec>, modes: map<nat, Mode>)
    requires ProtocolInv(q) && HistoryInv(q) && Enabled(q, a) && NoFault(q, a) && !a.DoAddSorted? && !a.DoAddBack?
    requires Story(q, adds, modes) && Carries(q, adds)
    ensures Story(Apply(q, a), adds, ModesStep(q, a, modes))
  {
    if a.DoNext? {
      NextStory(q, adds, modes);
    } else if a.DoComplete? {
      CompleteStory(q, a.i, adds, modes);
    } else {
      StorySame(q, Apply(q, a), adds, modes);
    }
  }

  // All that holds of a state of a run.
  ghost predicate Whole(q: Queue, adds: seq<Spec>, modes: map<nat, Mode>) {
    ProtocolInv(q) && HistoryInv(q) && Carries(q, adds) && Story(q, adds, modes)
  }

  lemma StepWhole(q: Queue, a: Action, adds: seq<Spec>, modes: map<nat, Mode>)
    requires Whole(q, adds, modes) && Enabled(q, a) && NoFault(q, a) && !RejectsBusy(q, a)
    ensures Whole(Apply(q, a), adds + Asked(a), ModesStep(q, a, modes))
  {
    StepKeeps(q, a);
    StepHistory(q, a);
    StepCarries(q, a, adds);
    StepStory(q, a, adds, modes);
  }

  // The modes under which barriers were started.
  ghost function ModesOf(q: Queue, actions: seq<Action>, q': Queue, modes: map<nat, Mode>): map<nat, Mode>
    requires RunsTo(q, actions, q')
    decreases |actions|
  {
    if actions == [] then modes
    else ModesOf(Apply(q, actions[0]), actions[1..], q', ModesStep(q, actions[0], modes))
  }

  lemma AddsSplit(adds: seq<Spec>, actions: seq<Action>)
    requires actions != []
    ensures adds + Asked(actions[0]) + Additions(actions[1..]) == adds + Additions(actions)
  {
  }

  lemma ModeSplit(mode: Mode, actions: seq<Action>, k: nat)
    requires 0 < k <= |actions|
    ensures ModeAfter(mode, actions[..k]) == ModeAfter(ModeSet(mode, actions[0]), actions[1..][..k - 1])
  {
    assert actions[..k][1..] == actions[1..][..k - 1];
  }

  lemma {:induction false} RunWhole(q: Queue, actions: seq<Action>, q': Queue, adds: seq<Spec>, modes: map<nat, Mode>)
    requires Whole(q, adds, modes) && RunsTo(q, actions, q') && OrderedRun(q, actions)
    ensures Whole(q', adds + Additions(actions), ModesOf(q, actions, q', modes))
    decreases |actions|
  {
    if actions == [] {
      assert adds + Additions(actions) == adds;
    } else {
      var a := actions[0];
      StepWhole(q, a, adds, modes);
      RunWhole(Apply(q, a), actions[1..], q', adds + Asked(a), ModesStep(q, a, modes));
      AddsSplit(adds, actions);
    }
  }

  lemma RunFromInitial(q: Queue, actions: seq<Action>, q': Queue)
    requires Initial(q) && RunsTo(q, actions, q') && OrderedRun(q, actions)
    ensures Whole(q', Additions(actions), ModesOf(q, actions, q', map[]))
  {
    InitialHolds(q);
    RunWhole(q, actions, q', [], map[]);
    assert [] + Additions(actions) == Additions(actions);
  }

  // Step k of the run starts barrier b.
  ghost predicate StartsAt(q: Queue, actions: seq<Action>, q': Queue, k: nat, b: nat)
    requires RunsTo(q, actions, q')
    decreases k
  {
    && k < |actions|
    && (if k == 0 then Starts(q, actions[0]) && q.head[0].id == b
        else StartsAt(Apply(q, actions[0]), actions[1..], q', k - 1, b))
  }

  // The mode in force at step k is the one last set before it.
  lemma {:induction false} ModeIsLastSet(q: Queue, actions: seq<Action>, q': Queue)
    requires RunsTo(q, actions, q')
    ensures q'.nextOrdered == ModeAfter(q.nextOrdered, actions)
    decreases |actions|
  {
    if actions != [] {
      ModeStep(q, actions[0]);
      ModeIsLastSet(Apply(q, actions[0]), actions[1..], q');
    }
  }

  lemma ModeStep(q: Queue, a: Action)
    requires Enabled(q, a) && NoFault(q, a)
    ensures Apply(q, a).nextOrdered == ModeSet(q.nextOrdered, a)
  {
  }

  // A recorded mode is that of the step at which the barrier started.
  lemma {:induction false} StartedWhen(q: Queue, actions: seq<Action>, q': Queue, modes: map<nat, Mode>, b: nat)
    requires RunsTo(q, actions, q') && b in ModesOf(q, actions, q', modes)
    ensures var m := ModesOf(q, actions, q', modes)[b];
            || (b in modes && m == modes[b])
            || (exists k: nat :: StartsAt(q, actions, q', k, b) && m == ModeAfter(q.nextOrdered, actions[..k]))
    decreases |actions|
  {
    if actions != [] {
      var q1, modes1 := Apply(q, actions[0]), ModesStep(q, actions[0], modes);
      StartedWhen(q1, actions[1..], q', modes1, b);
      var m := ModesOf(q, actions, q', modes)[b];
      if b in modes1 && m == modes1[b] {
        if Starts(q, actions[0]) && q.head[0].id == b {
          assert StartsAt(q, actions, q', 0, b) && actions[..0] == [];
        }
      } else {
        var k: nat :| StartsAt(q1, actions[1..], q', k, b) && m == ModeAfter(q1.nextOrdered, actions[1..][..k]);
        ModeStep(q, actions[0]);
        ModeSplit(q.nextOrdered, actions, k + 1);
        assert StartsAt(q, actions, q', k + 1, b);
      }
    }
  }

  // In every run, a request waiting or at the driver, and the data of a barrier, goes to
  // the sector it was added for, and is empty only if it was added so.
  lemma DataGoesWhereAsked(q: Queue, actions: seq<Action>, q': Queue, r: Request)
    requires Initial(q) && RunsTo(q, actions, q') && OrderedRun(q, actions)
    requires (r in q'.head || r in q'.sched || r in q'.driver) && (r.kind == Fs || r.kind == Bar)
    ensures r.id < |Additions(actions)|
    ensures Spec(r.barrier, r.empty, r.sector) == Additions(actions)[r.id]
  {
    RunFromInitial(q, actions, q');
  }

  // b has been started, under a mode that lacks this flush.
  ghost predicate StartedLacking(q: Queue, actions: seq<Action>, q': Queue, b: nat, phase: nat)
    requires RunsTo(q, actions, q')
  {
    exists k: nat :: StartsAt(q, actions, q', k, b) && b < |Additions(actions)|
      && Lacks(ModeAfter(q.nextOrdered, actions[..k]), Additions(actions)[b].empty, phase)
  }

  // Nothing is forgotten.
  lemma StepGrows(q: Queue, a: Action, e: Event)
    requires Enabled(q, a) && NoFault(q, a) && e in q.log
    ensures e in Apply(q, a).log
  {
  }

  lemma {:induction false} RunGrows(q: Queue, actions: seq<Action>, q': Queue, e: Event)
    requires RunsTo(q, actions, q') && e in q.log
    ensures e in q'.log
    decreases |actions|
  {
    if actions != [] {
      StepGrows(q, actions[0], e);
      RunGrows(Apply(q, actions[0]), actions[1..], q', e);
    }
  }

  lemma StartSkips(q: Queue, phase: nat)
    requires Starts(q, DoNext) && NextSafe(q) && Lacks(q.nextOrdered, q.head[0].empty, phase)
    ensures PhaseSkipped(q.head[0].id, phase) in Next(q).log
  {
    SkippedIn(q.head[0], q.nextOrdered, q.inFlight);
    assert PhaseSkipped(q.head[0].id, phase) in StartOrdered(q).log;
  }

  lemma LackingStart(q: Queue, adds: seq<Spec>, actions: seq<Action>, phase: nat)
    requires Carries(q, adds) && ProtocolInv(q) && Starts(q, DoNext) && NextSafe(q) && q.head[0].id < |adds + Additions(actions)|
    requires Lacks(q.nextOrdered, (adds + Additions(actions))[q.head[0].id].empty, phase)
    ensures PhaseSkipped(q.head[0].id, phase) in Next(q).log
  {
    assert HeadShape(q, q.head[0]);
    FitTail(adds, q.head);
    StartSkips(q, phase);
  }

  lemma {:induction false} LackingSkips(q: Queue, actions: seq<Action>, q': Queue, adds: seq<Spec>, modes: map<nat, Mode>,
                                        k: nat, b: nat, phase: nat)
    requires Whole(q, adds, modes) && RunsTo(q, actions, q') && OrderedRun(q, actions) && StartsAt(q, actions, q', k, b)
    requires b < |adds + Additions(actions)|
    requires Lacks(ModeAfter(q.nextOrdered, actions[..k]), (adds + Additions(actions))[b].empty, phase)
    ensures PhaseSkipped(b, phase) in q'.log
    decreases |actions|
  {
    var a, q1 := actions[0], Apply(q, actions[0]);
    if k == 0 {
      LackingStart(q, adds, actions, phase);
      RunGrows(q1, actions[1..], q', PhaseSkipped(b, phase));
    } else {
      StepWhole(q, a, adds, modes);
      ModeStep(q, a);
      ModeSplit(q.nextOrdered, actions, k);
      AddsSplit(adds, actions);
      LackingSkips(q1, actions[1..], q', adds + Asked(a), ModesStep(q, a, modes), k - 1, b, phase);
    }
  }

  // A flush is left out exactly if the mode last set before the barrier started has none,
  // or, for the post-flush, the barrier is empty.
  lemma SkippedExactly(q: Queue, actions: seq<Action>, q': Queue, b: nat, phase: nat)
    requires Initial(q) && RunsTo(q, actions, q') && OrderedRun(q, actions)
    ensures PhaseSkipped(b, phase) in q'.log <==> StartedLacking(q, actions, q', b, phase)
  {
    if PhaseSkipped(b, phase) in q'.log {
      RunFromInitial(q, actions, q');
      StartedWhen(q, actions, q', map[], b);
    }
    if StartedLacking(q, actions, q', b, phase) {
      var k: nat :| StartsAt(q, actions, q', k, b) && b < |Additions(actions)|
        && Lacks(ModeAfter(q.nextOrdered, actions[..k]), Additions(actions)[b].empty, phase);
      InitialHolds(q);
      assert [] + Additions(actions) == Additions(actions);
      LackingSkips(q, actions, q', [], map[], k, b, phase);
    }
  }

  // A flush that was handed out was not left out.
  lemma IssuedNotSkipped(log: seq<Event>, b: nat, phase: nat)
    requires LogOrdered(log) && ProxyIssued(b, phase) in log
    ensures PhaseSkipped(b, phase) !in log
  {
    var i :| 0 <= i < |log| && log[i] == ProxyIssued(b, phase);
    assert SafeEvent(log[..i], log[i]);
    forall j | 0 <= j < |log| ensures log[j] != PhaseSkipped(b, phase) {
      assert SafeEvent(log[..j], log[j]);
      if i < j {
        assert Closed(log[..i], b, DRAIN);
        DrainIsDone(log, i, b);
        assert forall e :: e in log[..i] ==> e in log[..j];
      } else if j < i {
        assert log[j] in log[..i];
      }
    }
  }

  // The drain is never skipped.
  lemma DrainIsDone(log: seq<Event>, i: nat, b: nat)
    requires LogOrdered(log) && i <= |log| && Closed(log[..i], b, DRAIN)
    ensures PhaseDone(b, DRAIN) in log[..i]
  {
    if PhaseSkipped(b, DRAIN) in log[..i] {
      var j :| 0 <= j < i && log[..i][j] == PhaseSkipped(b, DRAIN);
      assert SafeEvent(log[..j], log[j]);
    }
  }

  // What has been handed out for a barrier started under a mode.
  ghost predicate FlushedUnder(log: seq<Event>, b: nat, mode: Mode, empty: bool) {
    && mode.Draining?
    && (ProxyIssued(b, PREFLUSH) in log <==> mode.preflush)
    && (ProxyIssued(b, BAR) in log <==> !empty)
    && (ProxyIssued(b, POSTFLUSH) in log <==> mode.postflush && !empty)
  }

  lemma EndedFlushed(log: seq<Event>, adds: seq<Spec>, modes: map<nat, Mode>, b: nat)
    requires LogOrdered(log) && Told(log, adds, modes) && Ended(b) in log
    ensures b in modes && b < |adds| && FlushedUnder(log, b, modes[b], adds[b].empty)
  {
    forall p: nat | DRAIN < p < DONE ensures ProxyIssued(b, p) in log || PhaseSkipped(b, p) in log || (p == BAR && Absorbed(b) in log) {
      EndedPhase(log, b, p);
    }
    forall p: nat | ProxyIssued(b, p) in log ensures PhaseSkipped(b, p) !in log {
      IssuedNotSkipped(log, b, p);
    }
    EndedPhase(log, b, PREFLUSH);
    EndedPhase(log, b, BAR);
    EndedPhase(log, b, POSTFLUSH);
  }

  lemma EndedPhase(log: seq<Event>, b: nat, p: nat)
    requires LogOrdered(log) && Ended(b) in log && DRAIN < p < DONE
    ensures ProxyIssued(b, p) in log || PhaseSkipped(b, p) in log || (p == BAR && Absorbed(b) in log)
  {
    var i :| 0 <= i < |log| && log[i] == Ended(b);
    assert SafeEvent(log[..i], log[i]);
    assert Closed(log[..i], b, p);
    if PhaseDone(b, p) in log[..i] {
      var j :| 0 <= j < i && log[..i][j] == PhaseDone(b, p);
      assert SafeEvent(log[..j], log[j]);
      assert forall e :: e in log[..j] ==> e in log;
    } else {
      assert PhaseSkipped(b, p) in log[..i];
    }
  }

  // A barrier that has ended was started at some step, and exactly the flushes of the mode
  // last set before it have been handed out, with its data unless it was empty.
  lemma FlushesAsConfigured(q: Queue, actions: seq<Action>, q': Queue, b: nat)
    requires Initial(q) && RunsTo(q, actions, q') && OrderedRun(q, actions) && Ended(b) in q'.log
    ensures b < |Additions(actions)| && Additions(actions)[b].barrier
    ensures exists k: nat :: StartsAt(q, actions, q', k, b)
              && FlushedUnder(q'.log, b, ModeAfter(q.nextOrdered, actions[..k]), Additions(actions)[b].empty)
  {
    RunFromInitial(q, actions, q');
    EndedFlushed(q'.log, Additions(actions), ModesOf(q, actions, q', map[]), b);
    StartedWhen(q, actions, q', map[], b);
    AskedKinds(q, actions, q');
  }

  lemma StepKinds(q: Queue, a: Action)
    requires Enabled(q, a) && NoFault(q, a)
    ensures Apply(q, a).added == q.added + Kinds(Asked(a))
  {
  }

  function Kinds(adds: seq<Spec>): (r: seq<bool>)
    ensures |r| == |adds| && forall i :: 0 <= i < |adds| ==> r[i] == adds[i].barrier
  {
    seq(|adds|, i requires 0 <= i < |adds| => adds[i].barrier)
  }

  lemma {:induction false} AskedKinds(q: Queue, actions: seq<Action>, q': Queue)
    requires RunsTo(q, actions, q')
    ensures q'.added == q.added + Kinds(Additions(actions))
    decreases |actions|
  {
    if actions != [] {
      StepKinds(q, actions[0]);
      AskedKinds(Apply(q, actions[0]), actions[1..], q');
    }
  }
}
