/**
  The round-robin thread scheduler: one list of threads, scanned from the front for
  the first that can run, which then goes to the back.  A scan also expires timers
  and computes how long the domain may sleep.
 */
module Sched {
  import opened Lists
  import opened Sets

  type Tid = nat

  const TEN_SECONDS: nat := 10_000_000_000

  // Threads by number; a wakeup time of 0 means no timer.
  datatype State = State(
    runList: seq<Tid>,
    runnable: set<Tid>,
    wakeup: map<Tid, nat>,
    exited: seq<Tid>,
    freed: set<Tid>,
    started: set<Tid>,
    current: Tid)
  {
    function Timer(t: Tid): nat { if t in wakeup then wakeup[t] else 0 }

    // t would be chosen by a scan at time `now` that reached it.
    predicate Ready(t: Tid, now: nat) {
      t in runnable || (Timer(t) != 0 && Timer(t) <= now)
    }
  }

  // A thread is on the run list, on the exited list, or freed; the running thread's
  // memory is never freed.
  ghost predicate Valid(s: State) {
    && NoDup(s.runList) && NoDup(s.exited)
    && (forall t :: t in s.runList ==> t !in s.exited && t !in s.freed)
    && (forall t :: t in s.exited ==> t !in s.freed)
    && s.current !in s.freed
  }

  // ----- one scan

  // The position of the first thread that can run, or the length of the list.
  function FirstReady(s: State, now: nat, i: nat): (r: nat)
    requires i <= |s.runList|
    ensures i <= r <= |s.runList|
    ensures r < |s.runList| ==> s.Ready(s.runList[r], now)
    ensures forall j :: i <= j < r ==> !s.Ready(s.runList[j], now)
    decreases |s.runList| - i
  {
    if i == |s.runList| || s.Ready(s.runList[i], now) then i else FirstReady(s, now, i + 1)
  }

  function Pick(s: State, now: nat): Option<Tid> {
    var i := FirstReady(s, now, 0);
    if i < |s.runList| then Some(s.runList[i]) else None
  }

  function Without(s: seq<Tid>, i: nat): seq<Tid>
    requires i < |s|
  {
    s[..i] + s[i + 1..]
  }

  // The thread that gives up its timer to run.
  function Woken(s: State, t: Tid): State {
    s.(runnable := s.runnable + {t}, wakeup := s.wakeup[t := 0])
  }

  function Kept(s: seq<Tid>, prev: Tid): seq<Tid> {
    if s == [] then [] else (if s[0] == prev then [s[0]] else []) + Kept(s[1..], prev)
  }

  function Reaped(s: State, prev: Tid): State {
    s.(exited := Kept(s.exited, prev), freed := s.freed + set t | t in s.exited && t != prev)
  }

  // The pass of schedule that found the thread at position i: to the back of the list,
  // and, unless it starts for the first time, on to freeing the threads that exited.
  function Switched(s: State, i: nat): State
    requires i < |s.runList|
  {
    var t := s.runList[i];
    var s1 := if t in s.runnable then s else Woken(s, t);
    var s2 := s1.(runList := Without(s.runList, i) + [t], current := t, started := s.started + {t});
    if t in s.started || t == s.current then Reaped(s2, t) else s2
  }

  function PassStep(s: State, now: nat): State {
    var i := FirstReady(s, now, 0);
    if i < |s.runList| then Switched(s, i) else s
  }

  // ----- everything that can happen

  datatype Event =
    | Pass(now: nat)
    | Create(thread: Tid)
    | Exit
    | Wake(thread: Tid)
    | Block(thread: Tid)
    | Sleep(until: nat)

  function Index(s: seq<Tid>, t: Tid): (i: nat)
    requires t in s
    ensures i < |s| && s[i] == t && t !in s[..i]
  {
    if s[0] == t then 0 else
      assert t in s[1..];
      assert s[..1 + Index(s[1..], t)] == [s[0]] + s[1..][..Index(s[1..], t)];
      1 + Index(s[1..], t)
  }

  // What a step asks of its caller: new threads are new, only a listed thread exits,
  // and no freed thread is touched.
  ghost predicate Allowed(s: State, e: Event) {
    match e
    case Pass(_) => true
    case Create(t) => t !in s.runList && t !in s.exited && t !in s.freed && t !in s.started && t != s.current
    case Exit => s.current in s.runList
    case Wake(t) => t !in s.freed
    case Block(t) => t !in s.freed
    case Sleep(_) => true
  }

  function Step(s: State, e: Event): State
    requires e.Exit? ==> s.current in s.runList
  {
    match e
    case Pass(now) => PassStep(s, now)
    case Create(t) => s.(runList := s.runList + [t], runnable := s.runnable + {t}, wakeup := s.wakeup[t := 0])
    case Exit =>
      s.(runList := Without(s.runList, Index(s.runList, s.current)),
         runnable := s.runnable - {s.current}, exited := [s.current] + s.exited)
    case Wake(t) => Woken(s, t)
    case Block(t) => s.(runnable := s.runnable - {t}, wakeup := s.wakeup[t := 0])
    case Sleep(until) => s.(runnable := s.runnable - {s.current}, wakeup := s.wakeup[s.current := until])
  }

  // ----- the invariant

  lemma WithoutFacts(s: seq<Tid>, i: nat)
    requires i < |s| && NoDup(s)
    ensures NoDup(Without(s, i)) && s[i] !in Without(s, i)
    ensures forall t :: t in Without(s, i) <==> t in s && t != s[i]
  {
    var r := Without(s, i);
    forall t | t in s && t != s[i] ensures t in r {
      var k :| 0 <= k < |s| && s[k] == t;
      assert t == if k < i then r[k] else r[k - 1];
    }
  }

  lemma {:induction false} KeptFacts(s: seq<Tid>, prev: Tid)
    requires NoDup(s)
    ensures NoDup(Kept(s, prev))
    ensures forall t :: t in Kept(s, prev) <==> t in s && t == prev
  {
    if s != [] {
      KeptFacts(s[1..], prev);
      assert s[0] !in s[1..] && s == [s[0]] + s[1..];
    }
  }

  lemma ReapKeeps(s: State, prev: Tid)
    requires Valid(s) && prev == s.current
    ensures Valid(Reaped(s, prev))
  {
    KeptFacts(s.exited, prev);
  }

  lemma SwitchKeeps(s: State, i: nat)
    requires Valid(s) && i < |s.runList|
    ensures Valid(Switched(s, i))
  {
    var t := s.runList[i];
    WithoutFacts(s.runList, i);
    var s1 := if t in s.runnable then s else Woken(s, t);
    var s2 := s1.(runList := Without(s.runList, i) + [t], current := t, started := s.started + {t});
    assert t in s.runList;
    assert Valid(s2);
    ReapKeeps(s2, t);
  }

  lemma StepKeeps(s: State, e: Event)
    requires Valid(s) && Allowed(s, e)
    ensures Valid(Step(s, e))
  {
    match e
    case Pass(now) =>
      var i := FirstReady(s, now, 0);
      if i < |s.runList| { SwitchKeeps(s, i); }
    case Exit =>
      var i := Index(s.runList, s.current);
      WithoutFacts(s.runList, i);
    case _ =>
  }

  // The thread a scan picks runs next, runnable and with no timer of its own left to
  // expire; no other thread's state changes and none leaves the list.
  lemma PickedRuns(s: State, now: nat)
    requires Valid(s) && Pick(s, now).Some?
    ensures var t, s' := Pick(s, now).value, PassStep(s, now);
            && s.Ready(t, now) && s'.current == t && s'.runList != [] && s'.runList[|s'.runList| - 1] == t
            && s'.runnable == s.runnable + {t} && (t !in s.runnable ==> s'.Timer(t) == 0)
            && (forall u :: u != t ==> s'.Timer(u) == s.Timer(u))
            && (forall u :: u in s'.runList <==> u in s.runList)
  {
    WithoutFacts(s.runList, FirstReady(s, now, 0));
  }

  // A thread is known from its creation on, and never lost: it is on the run list, on the
  // exited list, or freed.
  ghost predicate Known(s: State, t: Tid) { t in s.runList || t in s.exited || t in s.freed }

  lemma StepConserves(s: State, e: Event, t: Tid)
    requires Valid(s) && Allowed(s, e)
    ensures Known(Step(s, e), t) <==> Known(s, t) || e == Create(t)
    ensures t in s.runList && t !in Step(s, e).runList ==> e == Exit && t == s.current && t in Step(s, e).exited
    ensures t in s.freed ==> t in Step(s, e).freed
  {
    match e
    case Pass(now) =>
      var i := FirstReady(s, now, 0);
      if i < |s.runList| {
        WithoutFacts(s.runList, i);
        KeptFacts(s.exited, s.runList[i]);
      }
    case Exit => WithoutFacts(s.runList, Index(s.runList, s.current));
    case _ =>
  }

  lemma {:induction false} KeptNone(s: seq<Tid>, prev: Tid)
    requires prev !in s
    ensures Kept(s, prev) == []
  {
    if s != [] { KeptNone(s[1..], prev); }
  }

  // A switch to a thread that has run before frees every exited thread.
  lemma SwitchFrees(s: State, now: nat, t: Tid)
    requires Valid(s) && Pick(s, now).Some? && t in s.exited
    requires Pick(s, now).value in s.started || Pick(s, now).value == s.current
    ensures t in PassStep(s, now).freed && PassStep(s, now).exited == []
  {
    var next := s.runList[FirstReady(s, now, 0)];
    assert next in s.runList && next !in s.exited;
    KeptNone(s.exited, next);
  }

  // What each call does to the readiness of the thread it names, and of the others.
  lemma CallsAndReadiness(s: State, e: Event, now: nat)
    requires e.Create? || e.Wake? || e.Block? || e.Sleep?
    ensures var s', t := Step(s, e), if e.Sleep? then s.current else e.thread;
            && (s'.Ready(t, now) <==> match e
                  case Sleep(until) => 0 < until <= now
                  case Block(_) => false
                  case _ => true)
            && (forall u :: u != t ==> (s'.Ready(u, now) <==> s.Ready(u, now)))
  {
  }

  // ----- bounded wait

  ghost predicate AllowedRun(s: State, es: seq<Event>)
    decreases |es|
  {
    es == [] || (Allowed(s, es[0]) && AllowedRun(Step(s, es[0]), es[1..]))
  }

  function Run(s: State, es: seq<Event>): State
    requires AllowedRun(s, es)
    decreases |es|
  {
    if es == [] then s else Run(Step(s, es[0]), es[1..])
  }

  // In every run, the lists stay apart and nothing that runs or can run is freed.
  lemma {:induction false} RunKeeps(s: State, es: seq<Event>)
    requires Valid(s) && AllowedRun(s, es)
    ensures Valid(Run(s, es))
    decreases |es|
  {
    if es != [] {
      StepKeeps(s, es[0]);
      RunKeeps(Step(s, es[0]), es[1..]);
    }
  }

  function Passes(es: seq<Event>): nat {
    if es == [] then 0 else (if es[0].Pass? then 1 else 0) + Passes(es[1..])
  }

  // t does not exit, and every scan until one picks it finds it able to run.
  ghost predicate StaysReady(s: State, es: seq<Event>, t: Tid)
    requires AllowedRun(s, es)
    decreases |es|
  {
    es != [] ==>
      && (es[0].Pass? ==> s.Ready(t, es[0].now))
      && (es[0].Exit? ==> s.current != t)
      && ((es[0].Pass? && Pick(s, es[0].now) == Some(t)) || StaysReady(Step(s, es[0]), es[1..], t))
  }

  // t is chosen by some scan of the run, after at most `bound` others.
  ghost predicate ChosenWithin(s: State, es: seq<Event>, t: Tid, bound: nat)
    requires AllowedRun(s, es)
    decreases |es|
  {
    && es != []
    && (if es[0].Pass? then
          Pick(s, es[0].now) == Some(t) || (bound > 0 && ChosenWithin(Step(s, es[0]), es[1..], t, bound - 1))
        else ChosenWithin(Step(s, es[0]), es[1..], t, bound))
  }

  lemma IndexIs(s: seq<Tid>, t: Tid, i: nat)
    requires NoDup(s) && i < |s| && s[i] == t
    ensures t in s && Index(s, t) == i
  {
  }

  // Removing another thread moves t forward or leaves it where it is.
  lemma IndexWithout(s: seq<Tid>, t: Tid, j: nat, tail: seq<Tid>)
    requires NoDup(s) && j < |s| && NoDup(Without(s, j) + tail) && t in s && s[j] != t
    ensures t in Without(s, j) + tail
    ensures Index(Without(s, j) + tail, t) == if j < Index(s, t) then Index(s, t) - 1 else Index(s, t)
  {
    var i := Index(s, t);
    IndexIs(Without(s, j) + tail, t, if j < i then i - 1 else i);
  }

  // No step but a scan that picks t, or its own exit, moves it back; a scan that finds
  // it ready and picks another moves it forward.
  lemma StepAdvances(s: State, e: Event, t: Tid)
    requires Valid(s) && Allowed(s, e) && t in s.runList
    requires e.Exit? ==> s.current != t
    requires e.Pass? ==> s.Ready(t, e.now) && Pick(s, e.now) != Some(t)
    ensures t in Step(s, e).runList
    ensures var after, before := Index(Step(s, e).runList, t), Index(s.runList, t);
            if e.Pass? then after + 1 == before else after <= before
  {
    StepKeeps(s, e);
    var i := Index(s.runList, t);
    match e
    case Pass(now) =>
      var k := FirstReady(s, now, 0);
      assert k < i;
      IndexWithout(s.runList, t, k, [s.runList[k]]);
    case Create(u) => IndexIs(s.runList + [u], t, i);
    case Exit =>
      var r := Without(s.runList, Index(s.runList, s.current));
      assert r + [] == r;
      IndexWithout(s.runList, t, Index(s.runList, s.current), []);
    case _ =>
  }

  // A thread with k threads ahead of it is chosen within k + 1 scans.
  lemma {:induction false} BoundedWait(s: State, es: seq<Event>, t: Tid)
    requires Valid(s) && AllowedRun(s, es) && t in s.runList && StaysReady(s, es, t)
    requires Passes(es) > Index(s.runList, t)
    ensures ChosenWithin(s, es, t, Index(s.runList, t))
    decreases |es|
  {
    var e, rest := es[0], es[1..];
    if !(e.Pass? && Pick(s, e.now) == Some(t)) {
      StepKeeps(s, e);
      StepAdvances(s, e, t);
      BoundedWait(Step(s, e), rest, t);
      WiderBound(Step(s, e), rest, t, Index(Step(s, e).runList, t),
                 if e.Pass? then Index(s.runList, t) - 1 else Index(s.runList, t));
    }
  }

  lemma {:induction false} WiderBound(s: State, es: seq<Event>, t: Tid, a: nat, b: nat)
    requires AllowedRun(s, es) && ChosenWithin(s, es, t, a) && a <= b
    ensures ChosenWithin(s, es, t, b)
    decreases |es|
  {
    if es[0].Pass? {
      if Pick(s, es[0].now) != Some(t) { WiderBound(Step(s, es[0]), es[1..], t, a - 1, b - 1); }
    } else {
      WiderBound(Step(s, es[0]), es[1..], t, a, b);
    }
  }

  // Nothing takes t's readiness away: no step blocks it, it does not put itself to
  // sleep or exit, and time does not run back past `now`.
  ghost predicate Undisturbed(s: State, es: seq<Event>, t: Tid, now: nat)
    requires AllowedRun(s, es)
    decreases |es|
  {
    es != [] ==>
      && (match es[0]
          case Pass(at) => now <= at
          case Create(u) => u != t
          case Exit => s.current != t
          case Block(u) => u != t
          case Sleep(_) => s.current != t
          case Wake(_) => true)
      && ((es[0].Pass? && Pick(s, es[0].now) == Some(t)) || Undisturbed(Step(s, es[0]), es[1..], t, now))
  }

  // A thread that is runnable, or whose timer has expired, stays ready until it is chosen.
  lemma {:induction false} ReadyPersists(s: State, es: seq<Event>, t: Tid, now: nat)
    requires Valid(s) && AllowedRun(s, es) && s.Ready(t, now) && Undisturbed(s, es, t, now)
    ensures StaysReady(s, es, t)
    decreases |es|
  {
    if es != [] && !(es[0].Pass? && Pick(s, es[0].now) == Some(t)) {
      StepKeeps(s, es[0]);
      assert Step(s, es[0]).Ready(t, now);
      ReadyPersists(Step(s, es[0]), es[1..], t, now);
    }
  }

  // ----- sleeping and blocking

  // No scan of the run picks t.
  ghost predicate NeverPicked(s: State, es: seq<Event>, t: Tid)
    requires AllowedRun(s, es)
    decreases |es|
  {
    es != [] ==>
      && (es[0].Pass? ==> Pick(s, es[0].now) != Some(t))
      && NeverPicked(Step(s, es[0]), es[1..], t)
  }

  // Nobody wakes t or makes it anew, and it does not itself go on to sleep.
  ghost predicate Unwoken(s: State, es: seq<Event>, t: Tid)
    requires AllowedRun(s, es)
    decreases |es|
  {
    es != [] ==>
      && es[0] != Wake(t) && es[0] != Create(t)
      && (es[0].Sleep? ==> s.current != t)
      && Unwoken(Step(s, es[0]), es[1..], t)
  }

  ghost predicate Unready(s: State, t: Tid) { forall now :: !s.Ready(t, now) }

  lemma UnreadyStep(s: State, e: Event, t: Tid)
    requires Allowed(s, e) && Unready(s, t)
    requires e != Wake(t) && e != Create(t) && (e.Sleep? ==> s.current != t)
    ensures Unready(Step(s, e), t) && (e.Pass? ==> Pick(s, e.now) != Some(t))
    ensures s.current != t ==> Step(s, e).current != t
  {
    assert !s.Ready(t, 0) && !s.Ready(t, s.Timer(t));
    if e.Pass? {
      var i := FirstReady(s, e.now, 0);
      if i < |s.runList| { assert s.runList[i] != t by { assert !s.Ready(t, e.now); } }
    }
  }

  // A thread that is ready at no time is ready at no time until it is woken: no timer,
  // scan or other thread's call starts it again.
  lemma {:induction false} StaysBlocked(s: State, es: seq<Event>, t: Tid)
    requires AllowedRun(s, es) && Unready(s, t) && Unwoken(s, es, t)
    ensures Unready(Run(s, es), t) && NeverPicked(s, es, t)
    decreases |es|
  {
    if es != [] {
      UnreadyStep(s, es[0], t);
      StaysBlocked(Step(s, es[0]), es[1..], t);
    }
  }

  // A blocked thread that is not running cannot put itself to sleep either: only a wake
  // can bring it back.
  lemma {:induction false} OnlyWakeHelps(s: State, es: seq<Event>, t: Tid)
    requires AllowedRun(s, es) && Unready(s, t) && s.current != t
    requires Wake(t) !in es && Create(t) !in es
    ensures Unwoken(s, es, t)
    decreases |es|
  {
    if es != [] {
      UnreadyStep(s, es[0], t);
      OnlyWakeHelps(Step(s, es[0]), es[1..], t);
    }
  }

  lemma BlockedUntilWoken(s: State, t: Tid, es: seq<Event>)
    requires AllowedRun(Step(s, Block(t)), es)
    requires Unwoken(Step(s, Block(t)), es, t) || (s.current != t && Wake(t) !in es && Create(t) !in es)
    ensures Unready(Run(Step(s, Block(t)), es), t) && NeverPicked(Step(s, Block(t)), es, t)
  {
    var s' := Step(s, Block(t));
    if s.current != t && Wake(t) !in es && Create(t) !in es { OnlyWakeHelps(s', es, t); }
    StaysBlocked(s', es, t);
  }

  // Up to its timer: nobody wakes, blocks or ends t, and the scans come before `until`.
  ghost predicate SleepsOn(s: State, es: seq<Event>, t: Tid, until: nat)
    requires AllowedRun(s, es)
    decreases |es|
  {
    es != [] ==>
      && (match es[0]
          case Pass(at) => at < until
          case Create(u) => u != t
          case Exit => s.current != t
          case Block(u) => u != t
          case Sleep(_) => s.current != t
          case Wake(u) => u != t)
      && SleepsOn(Step(s, es[0]), es[1..], t, until)
  }

  ghost predicate Asleep(s: State, t: Tid, until: nat) {
    t in s.runList && t !in s.runnable && s.Timer(t) == until
  }

  lemma AsleepStep(s: State, e: Event, t: Tid, until: nat)
    requires Valid(s) && Allowed(s, e) && Asleep(s, t, until)
    requires SleepsOn(s, [e], t, until)
    ensures Asleep(Step(s, e), t, until) && (e.Pass? ==> Pick(s, e.now) != Some(t))
  {
    match e
    case Pass(now) =>
      var i := FirstReady(s, now, 0);
      if i < |s.runList| { WithoutFacts(s.runList, i); }
    case Exit => WithoutFacts(s.runList, Index(s.runList, s.current));
    case _ =>
  }

  // A sleeper keeps its timer and its place in the list, and is not picked early.
  lemma {:induction false} SleepHolds(s: State, es: seq<Event>, t: Tid, until: nat)
    requires Valid(s) && AllowedRun(s, es) && Asleep(s, t, until) && SleepsOn(s, es, t, until)
    ensures Asleep(Run(s, es), t, until) && NeverPicked(s, es, t)
    decreases |es|
  {
    if es != [] {
      assert AllowedRun(Step(s, es[0]), []) && [es[0]][1..] == [];
      StepKeeps(s, es[0]);
      AsleepStep(s, es[0], t, until);
      SleepHolds(Step(s, es[0]), es[1..], t, until);
    }
  }

  // msleep: the thread is not chosen before its time, and once the scans have reached it,
  // with k threads ahead, it is chosen within k + 1 of them, whatever the others do.
  lemma SleeperRunsInTime(s: State, until: nat, before: seq<Event>, after: seq<Event>)
    requires Valid(s) && s.current in s.runList && until > 0
    requires var s1 := Step(s, Sleep(until)); AllowedRun(s1, before) && SleepsOn(s1, before, s.current, until)
    requires var s2 := Run(Step(s, Sleep(until)), before); AllowedRun(s2, after) && Undisturbed(s2, after, s.current, until)
    ensures NeverPicked(Step(s, Sleep(until)), before, s.current)
    ensures var s2 := Run(Step(s, Sleep(until)), before);
            && s.current in s2.runList
            && (Passes(after) > Index(s2.runList, s.current) ==>
                  ChosenWithin(s2, after, s.current, Index(s2.runList, s.current)))
  {
    var s1 := Step(s, Sleep(until));
    StepKeeps(s, Sleep(until));
    SleepHolds(s1, before, s.current, until);
    RunKeeps(s1, before);
    var s2 := Run(s1, before);
    ReadyPersists(s2, after, s.current, until);
    if Passes(after) > Index(s2.runList, s.current) { BoundedWait(s2, after, s.current); }
  }

  // wake and create_thread: the thread is ready from then on at any time, and with k
  // threads ahead is chosen within k + 1 scans.
  lemma WokenRunsInTime(s: State, e: Event, after: seq<Event>)
    requires Valid(s) && Allowed(s, e) && (e.Create? || (e.Wake? && e.thread in s.runList))
    requires AllowedRun(Step(s, e), after) && Undisturbed(Step(s, e), after, e.thread, 0)
    ensures e.thread in Step(s, e).runList
    ensures var k := Index(Step(s, e).runList, e.thread);
            Passes(after) > k ==> ChosenWithin(Step(s, e), after, e.thread, k)
  {
    StepKeeps(s, e);
    ReadyPersists(Step(s, e), after, e.thread, 0);
    if Passes(after) > Index(Step(s, e).runList, e.thread) { BoundedWait(Step(s, e), after, e.thread); }
  }

  // ----- the code

  // Walks the exited threads: all but prev are freed.
  method Sweep(exited: seq<Tid>, prev: Tid) returns (kept: seq<Tid>, gone: set<Tid>)
    ensures kept == Kept(exited, prev) && gone == set t | t in exited && t != prev
  {
    kept, gone := [], {};
    for i := 0 to |exited|
      invariant kept + Kept(exited[i..], prev) == Kept(exited, prev)
      invariant gone == set t | t in exited[..i] && t != prev
    {
      assert exited[i..][1..] == exited[i + 1..] && exited[..i + 1] == exited[..i] + [exited[i]];
      if exited[i] != prev {
        gone := gone + {exited[i]};
      } else {
        kept := kept + [exited[i]];
      }
    }
    assert exited[..|exited|] == exited;
  }

  class Scheduler {
    var runList: seq<Tid>
    var runnable: set<Tid>
    var wakeup: map<Tid, nat>
    var exited: seq<Tid>
    var freed: set<Tid>
    var started: set<Tid>
    var current: Tid

    function Now(): State
      reads this
    {
      State(runList, runnable, wakeup, exited, freed, started, current)
    }

    // init_sched: only the idle thread, which heads the list and is not on it.
    constructor (idle: Tid)
      ensures Valid(Now()) && Now() == State([], {idle}, map[], [], {}, {idle}, idle)
    {
      runList, runnable, wakeup, exited, freed, started, current := [], {idle}, map[], [], {}, {idle}, idle;
    }

    method Wake(t: Tid)
      requires Valid(Now()) && t !in freed
      modifies this
      ensures Now() == Step(old(Now()), Event.Wake(t)) && Valid(Now())
      ensures forall at :: Now().Ready(t, at)
      ensures forall u, at :: u != t ==> (Now().Ready(u, at) <==> old(Now()).Ready(u, at))
    {
      wakeup := wakeup[t := 0];
      runnable := runnable + {t};
      StepKeeps(old(Now()), Event.Wake(t));
    }

    method Block(t: Tid)
      requires Valid(Now()) && t !in freed
      modifies this
      ensures Now() == Step(old(Now()), Event.Block(t)) && Valid(Now())
      ensures Unready(Now(), t)
      ensures forall u, at :: u != t ==> (Now().Ready(u, at) <==> old(Now()).Ready(u, at))
    {
      wakeup := wakeup[t := 0];
      runnable := runnable - {t};
      StepKeeps(old(Now()), Event.Block(t));
    }

    method Create(t: Tid)
      requires Valid(Now()) && Allowed(Now(), Event.Create(t))
      modifies this
      ensures Now() == Step(old(Now()), Event.Create(t)) && Valid(Now())
      ensures forall at :: Now().Ready(t, at)
      ensures forall u, at :: u != t ==> (Now().Ready(u, at) <==> old(Now()).Ready(u, at))
    {
      wakeup := wakeup[t := 0];
      runnable := runnable + {t};
      runList := runList + [t];
      StepKeeps(old(Now()), Event.Create(t));
    }

    // exit_thread, up to its call of schedule.
    method Exit()
      requires Valid(Now()) && current in runList
      modifies this
      ensures Now() == Step(old(Now()), Event.Exit) && Valid(Now())
    {
      runList := Without(runList, Index(runList, current));
      runnable := runnable - {current};
      exited := [current] + exited;
      StepKeeps(old(Now()), Event.Exit);
    }

    // msleep, up to its call of schedule.
    method Sleep(now: nat, nanosecs: nat)
      requires Valid(Now())
      modifies this
      ensures Now() == Step(old(Now()), Event.Sleep(now + nanosecs)) && Valid(Now())
      ensures forall at :: Now().Ready(current, at) <==> 0 < now + nanosecs <= at
      ensures forall u, at :: u != current ==> (Now().Ready(u, at) <==> old(Now()).Ready(u, at))
    {
      wakeup := wakeup[current := now + nanosecs];
      runnable := runnable - {current};
      StepKeeps(old(Now()), Event.Sleep(now + nanosecs));
    }

    // The loop that frees threads which exited, as the thread that is back from its
    // switch runs it.
    method Reap()
      requires Valid(Now())
      modifies this
      ensures Now() == Reaped(old(Now()), current) && Valid(Now())
    {
      var kept, gone := Sweep(exited, current);
      exited, freed := kept, freed + gone;
      ReapKeeps(old(Now()), current);
    }

    // One pass of schedule's outer loop at time `now`.  When no thread can run, `alarm`
    // is when the domain must be running again: the earliest timer, or ten seconds on.
    method SchedulePass(now: nat) returns (next: Option<Tid>, alarm: nat)
      requires Valid(Now())
      modifies this
      ensures Now() == Step(old(Now()), Pass(now)) && Valid(Now())
      ensures next == Pick(old(Now()), now)
      ensures next.None? ==>
                && now < alarm <= now + TEN_SECONDS
                && (forall t :: t in runList && Now().Timer(t) != 0 ==> alarm <= Now().Timer(t))
                && (alarm == now + TEN_SECONDS || exists t :: t in runList && Now().Timer(t) == alarm)
    {
      StepKeeps(Now(), Pass(now));
      ghost var s := Now();
      alarm, next := now + TEN_SECONDS, None;
      var i := 0;
      while i < |runList|
        invariant i <= |runList| && Now() == s && FirstReady(s, now, 0) == FirstReady(s, now, i)
        invariant now < alarm <= now + TEN_SECONDS
        invariant forall j :: 0 <= j < i ==> !s.Ready(runList[j], now)
        invariant forall j :: 0 <= j < i && s.Timer(runList[j]) != 0 ==> alarm <= s.Timer(runList[j])
        invariant alarm == now + TEN_SECONDS || exists j :: 0 <= j < i && s.Timer(runList[j]) == alarm
      {
        var t := runList[i];
        var timer := if t in wakeup then wakeup[t] else 0;
        if t !in runnable && timer != 0 {
          if timer <= now {
            Wake(t);
          } else if timer < alarm {
            alarm := timer;
          }
        }
        if t in runnable {
          next := Some(t);
          SwitchTo(i, s);
          return;
        }
        i := i + 1;
      }
    }

    // Moving the chosen thread to the back and switching to it.
    method SwitchTo(i: nat, ghost s: State)
      requires Valid(s) && i < |s.runList|
      requires Now() == if s.runList[i] in s.runnable then s else Woken(s, s.runList[i])
      modifies this
      ensures Now() == Switched(s, i)
    {
      var t, prev := runList[i], current;
      SwitchKeeps(s, i);
      WithoutFacts(runList, i);
      runList := Without(runList, i) + [t];
      current := t;
      var back := t in started || t == prev;
      started := started + {t};
      if back {
        assert t in s.runList;
        Reap();
      }
    }
  }
}
