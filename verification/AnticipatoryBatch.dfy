/**
  The anticipatory scheduler's batches: which direction is being served, and the drain
  of the driver before the direction changes.  Synchronous and asynchronous requests
  are never at the driver together.
 */
module AnticipatoryBatch {
  import opened Sets

  type Id = nat

  // sync: the direction of the current batch; changed: it changed and the other
  // direction has not drained yet; isNew: a batch whose first request has not been
  // served; out: the requests at the driver, and whether each is synchronous.
  datatype Batch = Batch(sync: bool, changed: bool, isNew: bool, nrDispatched: int, out: map<Id, bool>)

  // What time and the anticipation heuristics say during one dispatch.
  datatype Oracle = Oracle(waiting: bool, timeUp: bool, anticipates: bool, checkedLate: bool, canAnticipate: bool, late: bool)

  // Where the request to dispatch is taken from: the cache or the FIFO head.
  datatype Source = Cache(sync: bool) | Head(sync: bool)

  // ----- one dispatch

  // as_batch_expired.
  predicate BatchExpired(b: Batch, o: Oracle) { !b.changed && !b.isNew && o.timeUp }

  // The part of as_dispatch_request from the label dispatch_request on.
  function Launch(b: Batch, from: Source, o: Oracle): (Batch, Option<Source>) {
    var from' := if o.late then Head(b.sync) else from;
    if !b.changed then (b, Some(from'))
    else if b.nrDispatched != 0 then (b, None)
    else (b.(changed := false, isNew := b.isNew || b.sync), Some(from'))
  }

  function ToSync(b: Batch): Batch { b.(changed := b.changed || !b.sync, sync := true) }

  function ToAsync(b: Batch): Batch { b.(changed := b.changed || b.sync, isNew := b.isNew && !b.sync, sync := false) }

  // The direction to serve when no batch is running.
  function Select(b: Batch, anySync: bool, anyAsync: bool, o: Oracle): (Batch, Option<Source>)
    requires anySync || anyAsync
  {
    if anySync && !(anyAsync && b.sync) then Launch(ToSync(b), Head(true), o) else Launch(ToAsync(b), Cache(false), o)
  }

  // as_dispatch_request, unforced: the batch afterwards and what goes to the driver.
  function Decide(b: Batch, anySync: bool, anyAsync: bool, o: Oracle): (Batch, Option<Source>) {
    if !(anySync || anyAsync) || o.waiting || b.changed then (b, None)
    else if anySync && anyAsync && BatchExpired(b, o) then Select(b, anySync, anyAsync, o)
    else if b.sync && o.anticipates && anySync && o.checkedLate then (b, Some(Head(true)))
    else if b.sync && o.anticipates && o.canAnticipate then (b, None)
    else if (if b.sync then anySync else anyAsync) then Launch(b, Cache(b.sync), o)
    else Select(b, anySync, anyAsync, o)
  }

  // ----- when a dispatch must send

  // The direction to be served: with both queued the batch's own until it expires, else
  // the one that is queued.
  predicate WantsSync(b: Batch, anySync: bool, anyAsync: bool, o: Oracle) {
    if anySync && anyAsync then b.sync != (!b.isNew && o.timeUp) else anySync
  }

  // Nothing is sent yet, in hope of a better request: only within a synchronous batch.
  predicate Holds(b: Batch, anySync: bool, anyAsync: bool, o: Oracle) {
    && b.sync && o.anticipates && o.canAnticipate
    && !(anySync && o.checkedLate) && !(anySync && anyAsync && !b.isNew && o.timeUp)
  }

  // The oldest request of the direction goes, rather than the cached one.
  predicate TakesOldest(b: Batch, wants: bool, o: Oracle) {
    o.late || (wants && (!b.sync || (o.anticipates && o.checkedLate)))
  }

  // What an attempt at a dispatch does, from what is queued and what is at the driver:
  // nothing while there is nothing queued, something is anticipated, or a change is
  // pending; otherwise it turns to the direction to be served, and a request of that
  // direction goes out exactly if it was the batch's own or the driver is idle: the oldest
  // if it is late or begins a synchronous batch, else the cached one.
  lemma DecidesExactly(b: Batch, anySync: bool, anyAsync: bool, o: Oracle)
    ensures var (b', go) := Decide(b, anySync, anyAsync, o);
            var wants := WantsSync(b, anySync, anyAsync, o);
            if !(anySync || anyAsync) || o.waiting || b.changed || Holds(b, anySync, anyAsync, o) then
              b' == b && go == None
            else
              && b'.sync == wants
              && (go.Some? <==> wants == b.sync || b.nrDispatched == 0)
              && (b'.changed <==> go.None?)
              && (go.Some? ==> go.value == if TakesOldest(b, wants, o) then Head(wants) else Cache(wants))
  {
  }

  // ----- exclusion

  ghost predicate Exclusive(out: map<Id, bool>) {
    forall a, b :: a in out && b in out ==> out[a] == out[b]
  }

  // Everything at the driver is of the batch's direction or, after a change, of the
  // other; a change is pending only while something is left to drain.
  ghost predicate BatchOk(b: Batch) {
    && b.nrDispatched == |b.out|
    && (forall id :: id in b.out ==> b.out[id] == (b.sync != b.changed))
    && (b.changed ==> b.out != map[])
  }

  function Sent(b: Batch, id: Id, sync: bool): Batch {
    b.(out := b.out[id := sync], nrDispatched := b.nrDispatched + 1)
  }

  // as_completed_request.
  function Completed(b: Batch, id: Id): Batch
    requires id in b.out
  {
    var drained := b.changed && b.nrDispatched == 1;
    var b1 := if drained then b.(changed := false, isNew := b.isNew || b.sync) else b;
    var b2 := b1.(nrDispatched := b1.nrDispatched - 1, out := b1.out - {id});
    if b2.isNew && b2.sync == b.out[id] then b2.(isNew := false) else b2
  }

  // What is decided is of the batch's direction, and there is such a request to take.
  lemma DecisionFits(b: Batch, anySync: bool, anyAsync: bool, o: Oracle)
    requires BatchOk(b)
    ensures var (b', go) := Decide(b, anySync, anyAsync, o);
            && b'.out == b.out && b'.nrDispatched == b.nrDispatched
            && (go.None? ==> BatchOk(b'))
            && (go.Some? ==> go.value.sync == b'.sync && !b'.changed && (if b'.sync then anySync else anyAsync))
            && (go.Some? && b'.sync != b.sync ==> b.out == map[])
  {
    assert |b.out| == 0 <==> b.out == map[];
  }

  lemma SentOk(b: Batch, anySync: bool, anyAsync: bool, o: Oracle, id: Id)
    requires BatchOk(b) && id !in b.out && Decide(b, anySync, anyAsync, o).1.Some?
    ensures var (b', go) := Decide(b, anySync, anyAsync, o);
            BatchOk(Sent(b', id, go.value.sync))
  {
    DecisionFits(b, anySync, anyAsync, o);
    var (b', go) := Decide(b, anySync, anyAsync, o);
    assert b'.out[id := go.value.sync].Keys == b'.out.Keys + {id};
  }

  lemma CompletedOk(b: Batch, id: Id)
    requires BatchOk(b) && id in b.out
    ensures BatchOk(Completed(b, id))
  {
    assert (b.out - {id}).Keys == b.out.Keys - {id};
    assert |b.out| == |b.out.Keys| && |b.out - {id}| == |(b.out - {id}).Keys|;
  }

  // ----- runs

  datatype BatchEvent = Try(anySync: bool, anyAsync: bool, o: Oracle, id: Id) | Complete(id: Id)

  ghost predicate Possible(b: Batch, e: BatchEvent) {
    match e
    case Try(_, _, _, id) => id !in b.out
    case Complete(id) => id in b.out
  }

  function BatchStep(b: Batch, e: BatchEvent): Batch
    requires e.Complete? ==> e.id in b.out
  {
    match e
    case Try(r, w, o, id) =>
      var (b', go) := Decide(b, r, w, o);
      if go.Some? then Sent(b', id, go.value.sync) else b'
    case Complete(id) => Completed(b, id)
  }

  lemma BatchStepOk(b: Batch, e: BatchEvent)
    requires BatchOk(b) && Possible(b, e)
    ensures BatchOk(BatchStep(b, e))
  {
    match e
    case Try(r, w, o, id) =>
      DecisionFits(b, r, w, o);
      if Decide(b, r, w, o).1.Some? { SentOk(b, r, w, o, id); }
    case Complete(id) => CompletedOk(b, id);
  }

  ghost predicate BatchRun(b: Batch, es: seq<BatchEvent>)
    decreases |es|
  {
    es == [] || (Possible(b, es[0]) && BatchRun(BatchStep(b, es[0]), es[1..]))
  }

  function BatchAfter(b: Batch, es: seq<BatchEvent>): Batch
    requires BatchRun(b, es)
    decreases |es|
  {
    if es == [] then b else BatchAfter(BatchStep(b, es[0]), es[1..])
  }

  // In every run of dispatches and completions, whatever is queued and whatever the
  // heuristics say, only one direction is at the driver.
  lemma {:induction false} NeverBothOutstanding(b: Batch, es: seq<BatchEvent>)
    requires BatchOk(b) && BatchRun(b, es)
    ensures BatchOk(BatchAfter(b, es)) && Exclusive(BatchAfter(b, es).out)
    decreases |es|
  {
    if es != [] {
      BatchStepOk(b, es[0]);
      NeverBothOutstanding(BatchStep(b, es[0]), es[1..]);
    }
  }

  // A change of direction is never stuck: completing what is out ends it.
  lemma {:induction false} ChangeDrains(b: Batch)
    requires BatchOk(b) && b.changed
    ensures exists es :: DrainsBy(b, es)
    decreases |b.out|
  {
    var id :| id in b.out;
    var b' := Completed(b, id);
    CompletedOk(b, id);
    if b'.changed {
      assert (b.out - {id}).Keys == b.out.Keys - {id};
      ChangeDrains(b');
      var es :| DrainsBy(b', es);
      assert ([Complete(id)] + es)[1..] == es;
      assert DrainsBy(b, [Complete(id)] + es);
    } else {
      var es := [Complete(id)];
      assert es[1..] == [] && BatchRun(b', []) && BatchAfter(b, es) == BatchAfter(b', es[1..]) == b';
      assert DrainsBy(b, [Complete(id)]);
    }
  }

  ghost predicate DrainsBy(b: Batch, es: seq<BatchEvent>) {
    && (forall i :: 0 <= i < |es| ==> es[i].Complete?)
    && BatchRun(b, es) && !BatchAfter(b, es).changed
  }

  // A request dispatched because another came for its sector bypasses the batch: the
  // driver then holds one direction only exactly if everything there is of its own.
  lemma AliasExclusiveExactly(b: Batch, id: Id, sync: bool)
    requires BatchOk(b) && id !in b.out
    ensures Exclusive(Sent(b, id, sync).out) <==> b.out == map[] || sync == (b.sync != b.changed)
    ensures BatchOk(Sent(b, id, sync)) <==> sync == (b.sync != b.changed)
  {
    var out := b.out[id := sync];
    assert out.Keys == b.out.Keys + {id};
    if b.out != map[] {
      var a :| a in b.out;
      assert a in out && id in out && out[id] == sync;
    }
    assert forall x :: x in b.out ==> out[x] == b.out[x];
  }

  // ----- turns

  // An attempt that finds both directions queued, is free to send, and finds the batch's
  // time up.
  ghost predicate Expires(b: Batch, e: BatchEvent) {
    && e.Try? && e.anySync && e.anyAsync && !e.o.waiting
    && !b.changed && !b.isNew && e.o.timeUp
  }

  // Both directions stay queued.
  ghost predicate BothQueued(es: seq<BatchEvent>) {
    forall i :: 0 <= i < |es| && es[i].Try? ==> es[i].anySync && es[i].anyAsync
  }

  ghost function Expiries(b: Batch, es: seq<BatchEvent>): nat
    requires BatchRun(b, es)
    decreases |es|
  {
    if es == [] then 0 else (if Expires(b, es[0]) then 1 else 0) + Expiries(BatchStep(b, es[0]), es[1..])
  }

  lemma StepTurns(b: Batch, e: BatchEvent)
    requires Possible(b, e) && (e.Try? ==> e.anySync && e.anyAsync)
    ensures BatchStep(b, e).sync == (b.sync != Expires(b, e))
  {
  }

  // While both directions stay queued, the batch's direction changes with each expiry and
  // at no other time, so expired batches alternate.
  lemma {:induction false} ExpiredBatchesAlternate(b: Batch, es: seq<BatchEvent>)
    requires BatchRun(b, es) && BothQueued(es)
    ensures BatchAfter(b, es).sync == (b.sync != (Expiries(b, es) % 2 == 1))
    decreases |es|
  {
    if es != [] {
      StepTurns(b, es[0]);
      ExpiredBatchesAlternate(BatchStep(b, es[0]), es[1..]);
    }
  }

  // A synchronous batch begins with the end of the drain, and however long it lasts does
  // not expire before one of its requests has been completed.
  lemma {:induction false} SyncBatchIsServed(b: Batch, es: seq<BatchEvent>)
    requires BatchRun(b, es) && b.isNew && b.sync && !b.changed
    requires BothQueued(es) && NoneCompleted(b, es, true)
    ensures Expiries(b, es) == 0 && BatchAfter(b, es).isNew && BatchAfter(b, es).sync
    decreases |es|
  {
    if es != [] {
      SyncBatchIsServed(BatchStep(b, es[0]), es[1..]);
    }
  }

  ghost predicate NoneCompleted(b: Batch, es: seq<BatchEvent>, sync: bool)
    requires BatchRun(b, es)
    decreases |es|
  {
    es != [] ==>
      && (es[0].Complete? ==> b.out[es[0].id] != sync)
      && NoneCompleted(BatchStep(b, es[0]), es[1..], sync)
  }

  // A new batch has been served, and may expire, once a request of its direction completes.
  lemma NewUntilServed(b: Batch, id: Id)
    requires BatchOk(b) && id in b.out && !b.changed
    ensures Completed(b, id).sync == b.sync && !Completed(b, id).changed && !Completed(b, id).isNew
    ensures Completed(b, id).out == b.out - {id}
  {
  }

  lemma DrainBeginsBatch(b: Batch, id: Id)
    requires BatchOk(b) && b.changed && id in b.out
    ensures !Completed(b, id).changed <==> b.out.Keys == {id}
    ensures b.sync && b.out.Keys == {id} ==> Completed(b, id).isNew && Completed(b, id).sync
  {
    assert |b.out| == |b.out.Keys|;
    assert b.out.Keys == {id} + (b.out.Keys - {id});
    assert |b.out.Keys| == 1 + |b.out.Keys - {id}|;
  }
}
