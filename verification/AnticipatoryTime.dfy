/**
  The anticipatory scheduler's batches with their clock: when a batch's time is up, and
  what an expiry then brings.  A synchronous batch's time starts with its first
  completion.  An asynchronous batch's time starts only if it begins with an idle driver;
  one that has to wait for the driver to drain finds its time already up.
 */
module AnticipatoryTime {
  import opened Sets
  import opened AnticipatoryBatch

  // batch_expire by direction.
  datatype Tunables = Tunables(sync: nat, async: nat)

  // The batch, current_batch_expires and current_write_count.
  datatype Timed = Timed(b: Batch, expires: nat, writes: nat)

  // hints: waiting, anticipation and lateness, with no say on time; count: the number of
  // requests an asynchronous batch is given.
  datatype TimedEvent =
    | Attempt(now: nat, anySync: bool, anyAsync: bool, hints: Oracle, count: nat, id: Id)
    | Done(now: nat, id: Id)

  predicate TimeUp(s: Timed, now: nat) { now > s.expires || (!s.b.sync && s.writes == 0) }

  function Said(s: Timed, e: TimedEvent): Oracle
    requires e.Attempt?
  {
    e.hints.(timeUp := TimeUp(s, e.now))
  }

  // The event without its clock.
  function Untimed(s: Timed, e: TimedEvent): BatchEvent {
    match e
    case Attempt(_, anySync, anyAsync, _, _, id) => Try(anySync, anyAsync, Said(s, e), id)
    case Done(_, id) => Complete(id)
  }

  // An attempt that is not refused at the start and does not hold back.
  predicate Proceeds(s: Timed, e: TimedEvent)
    requires e.Attempt?
  {
    && (e.anySync || e.anyAsync) && !e.hints.waiting && !s.b.changed
    && !Holds(s.b, e.anySync, e.anyAsync, Said(s, e))
  }

  function ExpiresAfter(s: Timed, e: TimedEvent, t: Tunables): nat
    requires e.Done? ==> e.id in s.b.out
  {
    match e
    case Attempt(now, anySync, anyAsync, hints, _, _) =>
      if !Proceeds(s, e) then s.expires
      else if s.b.sync && anySync && !anyAsync && !(hints.anticipates && hints.checkedLate) then now + t.sync
      else if s.b.sync && !WantsSync(s.b, anySync, anyAsync, Said(s, e)) && s.b.nrDispatched == 0 then now + t.async
      else s.expires
    case Done(now, id) =>
      var isNew := s.b.isNew || (s.b.changed && s.b.nrDispatched == 1 && s.b.sync);
      if isNew && s.b.sync == s.b.out[id] then now + t.sync else s.expires
  }

  function WritesAfter(s: Timed, e: TimedEvent): nat {
    if e.Done? || !Proceeds(s, e) || WantsSync(s.b, e.anySync, e.anyAsync, Said(s, e)) then s.writes
    else
      var writes := if s.b.sync then e.count else s.writes;
      if s.b.sync && s.b.nrDispatched != 0 then writes else if writes > 0 then writes - 1 else 0
  }

  function TimedStep(s: Timed, e: TimedEvent, t: Tunables): Timed
    requires e.Done? ==> e.id in s.b.out
  {
    Timed(BatchStep(s.b, Untimed(s, e)), ExpiresAfter(s, e, t), WritesAfter(s, e))
  }

  // ----- runs

  ghost predicate Comes(s: Timed, e: TimedEvent, clock: nat) { e.now >= clock && Possible(s.b, Untimed(s, e)) }

  // Time does not run back.
  ghost predicate TimedRun(s: Timed, es: seq<TimedEvent>, t: Tunables, clock: nat)
    decreases |es|
  {
    es == [] || (Comes(s, es[0], clock) && TimedRun(TimedStep(s, es[0], t), es[1..], t, es[0].now))
  }

  function After(s: Timed, es: seq<TimedEvent>, t: Tunables, clock: nat): Timed
    requires TimedRun(s, es, t, clock)
    decreases |es|
  {
    if es == [] then s else After(TimedStep(s, es[0], t), es[1..], t, es[0].now)
  }

  // Both directions stay queued.
  ghost predicate Both(es: seq<TimedEvent>) { forall i :: 0 <= i < |es| && es[i].Attempt? ==> es[i].anySync && es[i].anyAsync }

  ghost predicate Sends(s: Timed, e: TimedEvent, sync: bool)
    requires Possible(s.b, Untimed(s, e))
  {
    e.Attempt? && BatchStep(s.b, Untimed(s, e)).out == s.b.out[e.id := sync]
  }

  // The direction of the first request that the run sends.
  ghost function FirstSent(s: Timed, es: seq<TimedEvent>, t: Tunables, clock: nat): Option<bool>
    requires TimedRun(s, es, t, clock)
    decreases |es|
  {
    if es == [] then None
    else if Sends(s, es[0], true) then Some(true)
    else if Sends(s, es[0], false) then Some(false)
    else FirstSent(TimedStep(s, es[0], t), es[1..], t, es[0].now)
  }

  // Some attempt finds no change pending and is free to send.
  ghost predicate TriesAgain(s: Timed, es: seq<TimedEvent>, t: Tunables, clock: nat)
    requires TimedRun(s, es, t, clock)
    decreases |es|
  {
    && es != []
    && ((es[0].Attempt? && !s.b.changed && !es[0].hints.waiting && !es[0].hints.anticipates)
        || TriesAgain(TimedStep(s, es[0], t), es[1..], t, es[0].now))
  }

  // The attempt finds both directions queued and the batch's time up, and is free to send.
  ghost predicate Ends(s: Timed, e: TimedEvent) {
    e.Attempt? && e.anySync && e.anyAsync && !e.hints.waiting && !s.b.changed && !s.b.isNew && TimeUp(s, e.now)
  }

  // What an attempt with both directions queued does.
  lemma AttemptWithBoth(s: Timed, e: TimedEvent)
    requires BatchOk(s.b) && Possible(s.b, Untimed(s, e)) && e.Attempt? && e.anySync && e.anyAsync
    ensures var b', ends := BatchStep(s.b, Untimed(s, e)), Ends(s, e);
            var wants := s.b.sync != ends;
            if s.b.changed || e.hints.waiting then b' == s.b && !Sends(s, e, true) && !Sends(s, e, false)
            else
              && b'.sync == wants && !Sends(s, e, !wants)
              && (ends ==> (Sends(s, e, wants) <==> s.b.out == map[]) && (b'.changed <==> s.b.out != map[]) && (b'.changed ==> b'.out == s.b.out))
              && (!ends && !e.hints.anticipates ==> Sends(s, e, wants))
              && (!ends ==> b'.changed == s.b.changed && b'.isNew == s.b.isNew)
  {
    DecidesExactly(s.b, e.anySync, e.anyAsync, Said(s, e));
    assert |s.b.out| == 0 <==> s.b.out == map[];
    assert s.b.out[e.id := true] != s.b.out && s.b.out[e.id := false] != s.b.out;
    assert s.b.out[e.id := true][e.id] != s.b.out[e.id := false][e.id];
  }

  lemma StepsOk(s: Timed, e: TimedEvent, t: Tunables)
    requires BatchOk(s.b) && Possible(s.b, Untimed(s, e))
    ensures BatchOk(TimedStep(s, e, t).b)
  {
    BatchStepOk(s.b, Untimed(s, e));
  }

  // ----- an expiry that serves nobody

  // An asynchronous batch that drains, or has drained and has not been served, and whose
  // time is already up.
  ghost predicate Doomed(s: Timed, clock: nat) {
    BatchOk(s.b) && !s.b.sync && !s.b.isNew && s.expires < clock
  }

  lemma DoomedStep(s: Timed, e: TimedEvent, t: Tunables, clock: nat)
    requires Doomed(s, clock) && (s.b.changed || s.b.out == map[]) && Comes(s, e, clock)
    requires e.Attempt? ==> e.anySync && e.anyAsync
    ensures !Sends(s, e, false)
    ensures var s' := TimedStep(s, e, t);
            Sends(s, e, true) || (Doomed(s', e.now) && (s'.b.changed || s'.b.out == map[]))
    ensures e.Attempt? && !s.b.changed && !e.hints.waiting ==> Sends(s, e, true)
  {
    StepsOk(s, e, t);
    if e.Attempt? {
      AttemptWithBoth(s, e);
    } else {
      DrainBeginsBatch(s.b, e.id);
      assert s.b.out.Keys == {e.id} ==> s.b.out - {e.id} == map[];
    }
  }

  lemma {:induction false} DoomedRun(s: Timed, es: seq<TimedEvent>, t: Tunables, clock: nat)
    requires Doomed(s, clock) && (s.b.changed || s.b.out == map[]) && TimedRun(s, es, t, clock) && Both(es)
    ensures FirstSent(s, es, t, clock) != Some(false)
    ensures TriesAgain(s, es, t, clock) ==> FirstSent(s, es, t, clock) == Some(true)
    decreases |es|
  {
    if es != [] {
      DoomedStep(s, es[0], t, clock);
      if !Sends(s, es[0], true) { DoomedRun(TimedStep(s, es[0], t), es[1..], t, es[0].now); }
    }
  }

  // When a synchronous batch expires with both directions queued, the turn it gives to
  // the other direction is used exactly if the driver is idle at that moment: otherwise
  // the batch that has waited for the drain is over before it begins, and the next request
  // to go out is synchronous again.
  lemma SyncExpiryServesExactly(s: Timed, e: TimedEvent, es: seq<TimedEvent>, t: Tunables, clock: nat)
    requires BatchOk(s.b) && s.b.sync && Ends(s, e) && TimedRun(s, [e] + es, t, clock) && Both(es)
    ensures FirstSent(s, [e] + es, t, clock) == Some(false) <==> s.b.out == map[]
    ensures TimedRun(TimedStep(s, e, t), es, t, e.now)
    ensures s.b.out != map[] && TriesAgain(TimedStep(s, e, t), es, t, e.now) ==>
              FirstSent(s, [e] + es, t, clock) == Some(true)
  {
    assert ([e] + es)[0] == e && ([e] + es)[1..] == es;
    var s' := TimedStep(s, e, t);
    AttemptWithBoth(s, e);
    StepsOk(s, e, t);
    if s.b.out != map[] {
      assert Doomed(s', e.now);
      DoomedRun(s', es, t, e.now);
    }
  }

  // ----- an expiry that is served

  // A synchronous batch that drains, or has drained and has not been served.
  lemma SyncTurnStep(s: Timed, e: TimedEvent, t: Tunables, clock: nat)
    requires BatchOk(s.b) && s.b.sync && (s.b.changed || (s.b.isNew && s.b.out == map[])) && Comes(s, e, clock)
    requires e.Attempt? ==> e.anySync && e.anyAsync
    ensures !Sends(s, e, false)
    ensures var s' := TimedStep(s, e, t);
            Sends(s, e, true) || (s'.b.sync && (s'.b.changed || (s'.b.isNew && s'.b.out == map[])))
    ensures e.Attempt? && !s.b.changed && !e.hints.waiting && !e.hints.anticipates ==> Sends(s, e, true)
  {
    if e.Attempt? {
      AttemptWithBoth(s, e);
      DecidesExactly(s.b, e.anySync, e.anyAsync, Said(s, e));
    } else {
      DrainBeginsBatch(s.b, e.id);
      assert s.b.out.Keys == {e.id} ==> s.b.out - {e.id} == map[];
    }
  }

  lemma {:induction false} SyncTurnRun(s: Timed, es: seq<TimedEvent>, t: Tunables, clock: nat)
    requires BatchOk(s.b) && s.b.sync && (s.b.changed || (s.b.isNew && s.b.out == map[]))
    requires TimedRun(s, es, t, clock) && Both(es)
    ensures FirstSent(s, es, t, clock) != Some(false)
    ensures TriesAgain(s, es, t, clock) ==> FirstSent(s, es, t, clock) == Some(true)
    decreases |es|
  {
    if es != [] {
      StepsOk(s, es[0], t);
      SyncTurnStep(s, es[0], t, clock);
      if !Sends(s, es[0], true) { SyncTurnRun(TimedStep(s, es[0], t), es[1..], t, es[0].now); }
    }
  }

  // When an asynchronous batch expires with both directions queued, the next request to go
  // out is synchronous: at once if the driver is idle, else at the first free attempt once
  // it has drained.
  lemma AsyncExpiryServesSync(s: Timed, e: TimedEvent, es: seq<TimedEvent>, t: Tunables, clock: nat)
    requires BatchOk(s.b) && !s.b.sync && Ends(s, e) && TimedRun(s, [e] + es, t, clock) && Both(es)
    ensures FirstSent(s, [e] + es, t, clock) != Some(false)
    ensures TimedRun(TimedStep(s, e, t), es, t, e.now)
    ensures s.b.out == map[] || TriesAgain(TimedStep(s, e, t), es, t, e.now) ==>
              FirstSent(s, [e] + es, t, clock) == Some(true)
  {
    assert ([e] + es)[0] == e && ([e] + es)[1..] == es;
    AttemptWithBoth(s, e);
    StepsOk(s, e, t);
    if s.b.out != map[] { SyncTurnRun(TimedStep(s, e, t), es, t, e.now); }
  }

  // ----- starvation

  // A request of the other direction is sent somewhere in the run.
  ghost predicate AsyncSent(s: Timed, es: seq<TimedEvent>, t: Tunables, clock: nat)
    requires TimedRun(s, es, t, clock)
    decreases |es|
  {
    es != [] && (Sends(s, es[0], false) || AsyncSent(TimedStep(s, es[0], t), es[1..], t, es[0].now))
  }

  ghost function Endings(s: Timed, es: seq<TimedEvent>, t: Tunables, clock: nat): nat
    requires TimedRun(s, es, t, clock)
    decreases |es|
  {
    if es == [] then 0 else (if Ends(s, es[0]) then 1 else 0) + Endings(TimedStep(s, es[0], t), es[1..], t, es[0].now)
  }

  // Attempts that nothing keeps from sending.
  ghost predicate Free(es: seq<TimedEvent>) {
    forall i :: 0 <= i < |es| && es[i].Attempt? ==>
      es[i].anySync && es[i].anyAsync && !es[i].hints.waiting && !es[i].hints.anticipates
  }

  const NO_HINTS := Oracle(false, false, false, false, false, false)

  function Tries(now: nat, id: Id): TimedEvent { Attempt(now, true, true, NO_HINTS, 1, id) }

  // A run of n expiries or more in which both directions are always queued, every attempt
  // is free to send, and no asynchronous request is ever sent.
  ghost predicate Starves(s: Timed, es: seq<TimedEvent>, t: Tunables, clock: nat, n: nat) {
    TimedRun(s, es, t, clock) && Free(es) && !AsyncSent(s, es, t, clock) && Endings(s, es, t, clock) >= n
  }

  lemma Prepend(s: Timed, e: TimedEvent, es: seq<TimedEvent>, t: Tunables, clock: nat, n: nat)
    requires Comes(s, e, clock) && Free([e]) && !Sends(s, e, false)
    requires Starves(TimedStep(s, e, t), es, t, e.now, n)
    ensures Starves(s, [e] + es, t, clock, if Ends(s, e) then n + 1 else n)
  {
    assert ([e] + es)[0] == e && ([e] + es)[1..] == es;
    assert Free([e] + es) by {
      forall i | 0 <= i < |[e] + es| && ([e] + es)[i].Attempt?
        ensures var x := ([e] + es)[i]; x.anySync && x.anyAsync && !x.hints.waiting && !x.hints.anticipates
      {
        assert ([e] + es)[i] == if i == 0 then [e][0] else es[i - 1];
      }
    }
  }

  // An idle asynchronous batch whose time is up turns to the other direction, which then
  // has one request out and one completed.
  const IDLE := Batch(false, false, false, 0, map[])

  function OneOut(k: Id): Batch { Batch(true, false, false, 1, map[k := true]) }

  lemma TurnsSync(s: Timed, now: nat, t: Tunables)
    requires s.b == IDLE && now > s.expires
    ensures Ends(s, Tries(now, 0)) && !Sends(s, Tries(now, 0), false)
    ensures TimedStep(s, Tries(now, 0), t).b == Batch(true, false, true, 1, map[0 := true])
  {
    AttemptWithBoth(s, Tries(now, 0));
  }

  lemma StaysSync(s: Timed, now: nat, t: Tunables)
    requires s.b == Batch(true, false, true, 1, map[0 := true])
    ensures !Sends(s, Tries(now, 1), false)
    ensures TimedStep(s, Tries(now, 1), t).b == Batch(true, false, true, 2, map[0 := true, 1 := true])
  {
    assert s.b.out[1 := true] != s.b.out[1 := false] by { assert s.b.out[1 := true][1] != s.b.out[1 := false][1]; }
    assert s.b.out[1 := true] == map[0 := true, 1 := true];
  }

  lemma FirstCompletes(s: Timed, now: nat, t: Tunables)
    requires s.b == Batch(true, false, true, 2, map[0 := true, 1 := true])
    ensures TimedStep(s, Done(now, 0), t).b == OneOut(1)
  {
    assert s.b.out - {0} == map[1 := true];
  }

  // The synchronous batch expires with that one request still out.
  lemma TurnsAsync(s: Timed, now: nat, t: Tunables)
    requires s.b == OneOut(1) && now > s.expires
    ensures Ends(s, Tries(now, 2)) && !Sends(s, Tries(now, 2), false)
    ensures TimedStep(s, Tries(now, 2), t).b == Batch(false, true, false, 1, map[1 := true])
  {
    assert 2 in s.b.out[2 := false];
  }

  lemma Drains(s: Timed, now: nat, t: Tunables)
    requires s.b == Batch(false, true, false, 1, map[1 := true])
    ensures TimedStep(s, Done(now, 1), t).b == IDLE
  {
    assert s.b.out - {1} == map[];
  }

  // So asynchronous requests may wait for ever: from an idle start, for every n there is a
  // run with n expiries in which none is sent, whatever the settings.
  lemma {:induction false} WritesMayStarve(s: Timed, t: Tunables, clock: nat, n: nat)
    requires s.b == IDLE
    ensures exists es :: Starves(s, es, t, clock, n)
    decreases n, 1
  {
    if n == 0 {
      assert Starves(s, [], t, clock, 0);
    } else {
      var now := clock + s.expires + 1;
      var e0, e1, e2 := Tries(now, 0), Tries(now, 1), Done(now, 0);
      TurnsSync(s, now, t);
      var s1 := TimedStep(s, e0, t);
      StaysSync(s1, now, t);
      var s2 := TimedStep(s1, e1, t);
      FirstCompletes(s2, now, t);
      var s3 := TimedStep(s2, e2, t);
      LateStarves(s3, t, now, n);
      var es :| Starves(s3, es, t, now, n);
      Prepend(s2, e2, es, t, now, n);
      Prepend(s1, e1, [e2] + es, t, now, n);
      Prepend(s, e0, [e1] + ([e2] + es), t, clock, n);
      assert Starves(s, [e0] + ([e1] + ([e2] + es)), t, clock, n);
    }
  }

  lemma {:induction false} LateStarves(s: Timed, t: Tunables, clock: nat, n: nat)
    requires s.b == OneOut(1) && n > 0
    ensures exists es :: Starves(s, es, t, clock, n)
    decreases n, 0
  {
    var now := clock + s.expires + 1;
    var e0, e1 := Tries(now, 2), Done(now, 1);
    TurnsAsync(s, now, t);
    var s1 := TimedStep(s, e0, t);
    Drains(s1, now, t);
    var s2 := TimedStep(s1, e1, t);
    WritesMayStarve(s2, t, now, n - 1);
    var es :| Starves(s2, es, t, now, n - 1);
    Prepend(s1, e1, es, t, now, n - 1);
    Prepend(s, e0, [e1] + es, t, clock, n - 1);
    assert Starves(s, [e0] + ([e1] + es), t, clock, n);
  }
}
