/**
  The guest's side of event delivery as it runs undisturbed: the callback with its
  two nested scans, masking and unmasking, and the forced callback.  Each callback
  is a run of steps of the shared protocol, and delivers every due port once, in
  ascending order.
 */
module EventGuest {
  import opened Sets
  import opened EventChannel

  const NR_EVS: nat := 1024

  predicate HasAction(port: nat) { port < NR_EVS }

  // The ports that a callback has to deliver.
  function Due(pending: set<nat>, mask: set<nat>, sel: set<nat>): set<nat> {
    set p | p in pending && p !in mask && Word(p) in sel
  }

  function Active(pending: set<nat>, mask: set<nat>, word: nat): set<nat> {
    InWord(pending, word) - mask
  }

  // The elements of a set in ascending order, as repeated bit scans find them.
  function SortedList(s: set<nat>): seq<nat>
    decreases |s|
  {
    if s == {} then [] else [Least(s)] + SortedList(s - {Least(s)})
  }

  ghost predicate Ascending(s: seq<nat>) {
    forall i, j :: 0 <= i < j < |s| ==> s[i] < s[j]
  }

  lemma {:induction false} SortedListFacts(s: set<nat>)
    ensures Ascending(SortedList(s))
    ensures forall p :: p in SortedList(s) <==> p in s
    decreases |s|
  {
    if s != {} {
      var m := Least(s);
      SortedListFacts(s - {m});
      var rest := SortedList(s - {m});
      forall i | 0 <= i < |rest| ensures m < rest[i] {
        assert rest[i] in rest;
      }
    }
  }

  // Two sets, one wholly below the other, are listed one after the other.
  lemma {:induction false} SortedListJoin(a: set<nat>, b: set<nat>)
    requires forall x, y :: x in a && y in b ==> x < y
    ensures SortedList(a + b) == SortedList(a) + SortedList(b)
    decreases |a|
  {
    if a == {} {
      assert a + b == b;
    } else {
      var m := Least(a);
      assert Least(a + b) == m;
      assert (a + b) - {m} == (a - {m}) + b;
      SortedListJoin(a - {m}, b);
    }
  }

  // do_event's counter, for one port and for a list of ports.
  function CountUp(count: map<nat, nat>, port: nat): map<nat, nat> {
    if port in count then count[port := count[port] + 1] else count
  }

  function CountAll(count: map<nat, nat>, order: seq<nat>): map<nat, nat> {
    if order == [] then count else CountUp(CountAll(count, order[..|order| - 1]), order[|order| - 1])
  }

  lemma CountNext(count: map<nat, nat>, order: seq<nat>, port: nat)
    ensures CountAll(count, order + [port]) == CountUp(CountAll(count, order), port)
  {
    assert (order + [port])[..|order|] == order;
  }

  lemma {:induction false} CountJoin(count: map<nat, nat>, a: seq<nat>, b: seq<nat>)
    ensures CountAll(count, a + b) == CountAll(CountAll(count, a), b)
    decreases |b|
  {
    if b == [] {
      assert a + b == a;
    } else {
      var b', x := b[..|b| - 1], b[|b| - 1];
      CountJoin(count, a, b');
      assert a + b == (a + b') + [x];
      CountNext(count, a + b', x);
    }
  }

  // Along an ascending list every counter goes up by one for each listed port.
  lemma {:induction false} CountAllFacts(count: map<nat, nat>, order: seq<nat>)
    requires Ascending(order)
    ensures CountAll(count, order).Keys == count.Keys
    ensures forall p :: p in count ==> CountAll(count, order)[p] == count[p] + if p in order then 1 else 0
    decreases |order|
  {
    if order != [] {
      var front, x := order[..|order| - 1], order[|order| - 1];
      CountAllFacts(count, front);
      assert x !in front;
      assert order == front + [x];
    }
  }

  // n accesses of the activity at the bottom.
  ghost function Iterate(s: State, n: nat): State {
    if n == 0 then s
    else
      var t := Iterate(s, n - 1);
      if t.frames == [] then t else FrameStep(t, 0)
  }

  // The activity started in s gets to t by its own accesses.
  ghost predicate Reaches(s: State, t: State) {
    exists n: nat :: Iterate(s, n) == t
  }

  lemma ReachesSelf(s: State)
    ensures Reaches(s, s)
  {
    assert Iterate(s, 0) == s;
  }

  lemma ReachesNext(s: State, t: State)
    requires Reaches(s, t) && t.frames != []
    ensures Reaches(s, FrameStep(t, 0))
  {
    var n: nat :| Iterate(s, n) == t;
    assert Iterate(s, n + 1) == FrameStep(t, 0);
  }

  class Guest {
    var pending: set<nat>
    var mask: set<nat>
    var sel: set<nat>
    var upcall: bool
    var upcallMask: bool
    var count: map<nat, nat>

    ghost function Shared(frames: seq<Frame>): State
      reads this
    {
      State(pending, mask, sel, upcall, frames, [])
    }

    ghost predicate Valid()
      reads this
    {
      forall p: nat :: p in count <==> HasAction(p)
    }

    // init_events
    constructor ()
      ensures Valid() && Initial(Shared([]))
      ensures forall p: nat :: HasAction(p) ==> p in mask
    {
      pending, sel, upcall, upcallMask := {}, {}, false, true;
      mask := set p: nat | p < NR_EVS && HasAction(p);
      count := map p: nat | p < NR_EVS && HasAction(p) :: 0;
    }

    // mask_evtchn: a step of the shared protocol, after which no scan finds the port active.
    method MaskEvtchn(port: nat)
      modifies this`mask
      ensures Shared([]) == Apply(old(Shared([])), MaskPort(port))
      ensures Inv(old(Shared([]))) ==> Inv(Shared([]))
      ensures forall w :: port !in Active(pending, mask, w)
    {
      if Inv(Shared([])) { StepKeeps(Shared([]), MaskPort(port)); }
      mask := mask + {port};
    }

    // clear_evtchn: likewise, until the port is raised again.
    method ClearEvtchn(port: nat)
      modifies this`pending
      ensures Shared([]) == Apply(old(Shared([])), ClearPort(port))
      ensures Inv(old(Shared([]))) ==> Inv(Shared([]))
      ensures forall w :: port !in Active(pending, mask, w)
    {
      if Inv(Shared([])) { StepKeeps(Shared([]), ClearPort(port)); }
      pending := pending - {port};
    }

    // The hypervisor raises a port, undisturbed.
    method Raise(port: nat)
      modifies this`pending, this`sel, this`upcall
      ensures port in pending && pending == old(pending) + {port}
      ensures Inv(old(Shared([]))) ==> Inv(Shared([]))
    {
      if port !in pending {
        pending := pending + {port};
        if port !in mask && Word(port) !in sel {
          sel := sel + {Word(port)};
          upcall := true;
        }
      }
      RaisedKeeps(old(Shared([])), Shared([]), port);
    }

    method RaiseAll(ports: seq<nat>)
      modifies this`pending, this`sel, this`upcall
      ensures pending == old(pending) + set p | p in ports
      ensures Inv(old(Shared([]))) ==> Inv(Shared([]))
      ensures ports == [] ==> sel == old(sel) && upcall == old(upcall)
    {
      for i := 0 to |ports|
        invariant pending == old(pending) + set p | p in ports[..i]
        invariant Inv(old(Shared([]))) ==> Inv(Shared([]))
        invariant i == 0 ==> sel == old(sel) && upcall == old(upcall)
      {
        assert ports[..i + 1] == ports[..i] + [ports[i]];
        Raise(ports[i]);
      }
      assert ports[..|ports|] == ports;
    }

    // do_event: clear, then count and run the handler if the port has one.
    method DoEvent(port: nat)
      requires Valid()
      modifies this`pending, this`count
      ensures Valid() && pending == old(pending) - {port}
      ensures count == CountUp(old(count), port)
    {
      ClearEvtchn(port);
      if port >= NR_EVS {
        return;
      }
      count := count[port := count[port] + 1];
    }

    // The inner loop of do_hypervisor_callback: deliver what is active in one word.
    method ScanWord(w: nat, ghost l1: set<nat>, ghost s0: State)
      returns (order: seq<nat>)
      requires Valid() && Reaches(s0, Shared([ReadPending(l1, w)]))
      modifies this`pending, this`count
      ensures order == SortedList(Active(old(pending), mask, w))
      ensures pending == old(pending) - Active(old(pending), mask, w)
      ensures Valid() && count == CountAll(old(count), order)
      ensures Reaches(s0, Shared([Scanning(l1)]))
    {
      order := [];
      ghost var due := Active(pending, mask, w);
      var l2 := Active(pending, mask, w);
      ReadWord(s0, Shared([]), l1, w);
      while l2 != {}
        invariant order + SortedList(l2) == SortedList(due)
        invariant l2 == Active(pending, mask, w) && l2 <= due && pending == old(pending) - (due - l2)
        invariant Valid() && count == CountAll(old(count), order)
        invariant Reaches(s0, Shared([AtPort(l1, w, l2)]))
        decreases l2
      {
        var port := Least(l2);
        assert order + SortedList(l2) == (order + [port]) + SortedList(l2 - {port});
        HandlePort(s0, Shared([]), l1, w, port);
        DoEvent(port);
        CountNext(old(count), order, port);
        order := order + [port];
        ReadWord(s0, Shared([]), l1, w);
        assert Active(pending, mask, w) == l2 - {port};
        l2 := Active(pending, mask, w);
      }
    }

    // The next selected word: its due ports join those delivered.
    method DeliverNext(l1: set<nat>, order: seq<nat>, ghost done: set<nat>, ghost s0: State,
                       ghost pending0: set<nat>, ghost count0: map<nat, nat>)
      returns (order': seq<nat>)
      requires l1 != {} && Valid() && Reaches(s0, Shared([Scanning(l1)])) && !upcall
      requires forall x, y :: x in done && y in l1 ==> x < y
      requires order == SortedList(Due(pending0, mask, done)) && pending == pending0 - Due(pending0, mask, done)
      requires count == CountAll(count0, order)
      modifies this`pending, this`count
      ensures Valid() && Reaches(s0, Shared([Scanning(l1 - {Least(l1)})]))
      ensures order' == SortedList(Due(pending0, mask, done + {Least(l1)}))
      ensures pending == pending0 - Due(pending0, mask, done + {Least(l1)})
      ensures count == CountAll(count0, order')
    {
      var w := Least(l1);
      NextWord(s0, Shared([]), l1);
      DeliverWord(pending0, mask, done, w);
      var part := ScanWord(w, l1 - {w}, s0);
      CountJoin(count0, order, part);
      order' := order + part;
    }

    // do_hypervisor_callback
    method Callback() returns (order: seq<nat>)
      requires Valid()
      modifies this`pending, this`sel, this`upcall, this`count
      ensures Valid() && !upcall && sel == {}
      ensures order == SortedList(Due(old(pending), mask, old(sel)))
      ensures pending == old(pending) - Due(old(pending), mask, old(sel))
      ensures count == CountAll(old(count), order)
      ensures Reaches(old(Shared([Entered])), Shared([]))
    {
      ghost var s0 := Shared([Entered]);
      upcall := false;
      var l1 := sel;
      sel := {};
      order := [];
      Fetch(s0);
      ghost var done := {};
      while l1 != {}
        invariant !upcall && sel == {} && l1 + done == old(sel)
        invariant forall x, y :: x in done && y in l1 ==> x < y
        invariant Reaches(s0, Shared([Scanning(l1)]))
        invariant order == SortedList(Due(old(pending), mask, done))
        invariant pending == old(pending) - Due(old(pending), mask, done)
        invariant Valid() && count == CountAll(old(count), order)
        decreases l1
      {
        order := DeliverNext(l1, order, done, s0, old(pending), old(count));
        done := done + {Least(l1)};
        l1 := l1 - {Least(l1)};
      }
      NextWord(s0, Shared([]), l1);
    }

    // One turn of force_evtchn_callback's loop.
    method ForcedTurn() returns (order: seq<nat>)
      requires Valid()
      modifies this
      ensures Valid() && !upcall && sel == {} && mask == old(mask) && upcallMask == old(upcallMask)
      ensures order == SortedList(Due(old(pending), mask, old(sel)))
      ensures pending == old(pending) - Due(old(pending), mask, old(sel))
      ensures count == CountAll(old(count), order)
      ensures Inv(old(Shared([]))) ==> Inv(Shared([]))
    {
      ghost var s := Shared([]);
      var save := upcallMask;
      upcallMask := true;
      order := Callback();
      upcallMask := save;
      if Inv(s) { CallbackDeliversAll(s); }
    }

    // force_evtchn_callback, with the ports that the hypervisor raises after each turn:
    // it goes on until no upcall is left, and then no unmasked port is pending.
    method ForceCallback(raises: seq<seq<nat>>) returns (order: seq<nat>)
      requires Valid()
      modifies this
      ensures Valid() && !upcall && mask == old(mask) && upcallMask == old(upcallMask)
      ensures count == CountAll(old(count), order)
      ensures Inv(old(Shared([]))) ==> Inv(Shared([])) && pending <= mask
      ensures old(upcall) && raises == [] ==>
                && sel == {} && order == SortedList(Due(old(pending), mask, old(sel)))
                && pending == old(pending) - Due(old(pending), mask, old(sel))
      ensures !old(upcall) ==> order == [] && pending == old(pending) && sel == old(sel)
    {
      order := [];
      var turn := 0;
      while upcall
        invariant turn <= |raises| && Valid() && mask == old(mask) && upcallMask == old(upcallMask)
        invariant count == CountAll(old(count), order)
        invariant Inv(old(Shared([]))) ==> Inv(Shared([]))
        invariant raises == [] && upcall ==> order == [] && pending == old(pending) && sel == old(sel)
        invariant raises == [] && !upcall && old(upcall) ==>
                    && sel == {} && order == SortedList(Due(old(pending), mask, old(sel)))
                    && pending == old(pending) - Due(old(pending), mask, old(sel))
        invariant !old(upcall) ==> !upcall && order == [] && pending == old(pending) && sel == old(sel)
        decreases |raises| - turn, upcall
      {
        var part := ForcedTurn();
        CountJoin(old(count), order, part);
        assert order == [] ==> order + part == part;
        order := order + part;
        if turn < |raises| {
          RaiseAll(raises[turn]);
          turn := turn + 1;
        }
      }
      if Inv(Shared([])) { Quiet(Shared([])); }
    }

    // unmask_evtchn: a port found pending is selected again, and delivered at once
    // when upcalls are allowed.
    method UnmaskEvtchn(port: nat, raises: seq<seq<nat>>) returns (order: seq<nat>)
      requires Valid()
      modifies this
      ensures Valid() && mask == old(mask) - {port} && upcallMask == old(upcallMask)
      ensures count == CountAll(old(count), order)
      ensures Inv(old(Shared([]))) ==> Inv(Shared([]))
      ensures port in old(pending) && Word(port) !in old(sel) && !upcallMask ==>
                && !upcall && (Inv(old(Shared([]))) ==> pending <= mask)
                && (raises == [] ==>
                      && sel == {} && port !in pending
                      && order == SortedList(Due(old(pending), mask, old(sel) + {Word(port)}))
                      && pending == old(pending) - Due(old(pending), mask, old(sel) + {Word(port)}))
      ensures port in old(pending) && Word(port) !in old(sel) && upcallMask ==>
                order == [] && upcall && sel == old(sel) + {Word(port)} && pending == old(pending)
      ensures port !in old(pending) || Word(port) in old(sel) ==>
                order == [] && upcall == old(upcall) && sel == old(sel) && pending == old(pending)
    {
      order := [];
      mask := mask - {port};
      if port in pending && Word(port) !in sel {
        sel := sel + {Word(port)};
        upcall := true;
        if !upcallMask {
          order := ForceCallback(raises);
        }
      }
    }
  }

  // A raise keeps every other pending port covered and covers its own.
  lemma RaisedKeeps(s: State, t: State, port: nat)
    requires s.frames == [] && s.raises == [] && t.pending == s.pending + {port} && t.mask == s.mask && t.frames == [] && t.raises == []
    requires if port !in s.pending && port !in s.mask && Word(port) !in s.sel then t.sel == s.sel + {Word(port)} && t.upcall
             else t.sel == s.sel && t.upcall == s.upcall
    ensures Inv(s) ==> Inv(t)
  {
    if Inv(s) {
      forall p | p in t.pending && p !in t.mask ensures Covered(t, p) {
        assert p in s.pending ==> Covered(s, p);
      }
    }
  }

  // With nothing running and no upcall pending, no unmasked port is pending.
  lemma Quiet(s: State)
    requires Inv(s) && s.frames == [] && s.raises == [] && !s.upcall
    ensures s.pending <= s.mask
  {
    forall p | p in s.pending ensures p in s.mask {
      assert p !in s.mask ==> Covered(s, p);
    }
  }

  // A callback alone is a run of the shared protocol.
  lemma CallbackRuns(s: State, t: State) returns (actions: seq<Action>)
    requires s.frames == [] && Reaches(s.(frames := [Entered]), t)
    ensures RunsTo(s, actions, t)
  {
    var s1 := s.(frames := [Entered]);
    var n: nat :| Iterate(s1, n) == t;
    var steps := IterateRuns(s1, n);
    actions := [BeginCallback] + steps;
    assert Apply(s, BeginCallback) == s1;
    assert actions[1..] == steps;
  }

  lemma {:induction false} IterateRuns(s: State, n: nat) returns (actions: seq<Action>)
    ensures RunsTo(s, actions, Iterate(s, n))
  {
    actions := [];
    if n > 0 {
      actions := IterateRuns(s, n - 1);
      var t := Iterate(s, n - 1);
      if t.frames != [] {
        RunExtends(s, actions, t, StepFrame(0));
        actions := actions + [StepFrame(0)];
      }
    }
  }

  lemma {:induction false} RunExtends(s: State, actions: seq<Action>, t: State, a: Action)
    requires RunsTo(s, actions, t) && Enabled(t, a)
    ensures RunsTo(s, actions + [a], Apply(t, a))
    decreases |actions|
  {
    if actions == [] {
      assert actions + [a] == [a] && [a][1..] == [];
    } else {
      RunExtends(Apply(s, actions[0]), actions[1..], t, a);
      assert (actions + [a])[1..] == actions[1..] + [a];
    }
  }

  // Whatever happened before, once nothing else is running a callback leaves no
  // unmasked port pending: it delivers every event that is due.
  lemma CallbackDeliversAll(s: State)
    requires Inv(s) && s.frames == [] && s.raises == []
    ensures Due(s.pending, s.mask, s.sel) == s.pending - s.mask
    ensures s.pending - Due(s.pending, s.mask, s.sel) <= s.mask
  {
    forall p | p in s.pending && p !in s.mask ensures Word(p) in s.sel {
      assert Covered(s, p);
    }
  }

  // Delivering one more word: its active ports come after all that came before.
  lemma DeliverWord(pending: set<nat>, mask: set<nat>, done: set<nat>, w: nat)
    requires forall x :: x in done ==> x < w
    ensures var left := pending - Due(pending, mask, done);
            && Active(left, mask, w) == Active(pending, mask, w)
            && SortedList(Due(pending, mask, done + {w})) ==
               SortedList(Due(pending, mask, done)) + SortedList(Active(left, mask, w))
            && left - Active(left, mask, w) == pending - Due(pending, mask, done + {w})
  {
    var a, b := Due(pending, mask, done), Active(pending, mask, w);
    assert Due(pending, mask, done + {w}) == a + b;
    assert Active(pending - a, mask, w) == b;
    forall x, y | x in a && y in b ensures x < y {
      assert Word(x) < Word(y);
    }
    SortedListJoin(a, b);
  }

  // Clearing the flag and fetching the selector.
  lemma Fetch(s0: State)
    requires s0.frames == [Entered]
    ensures Reaches(s0, s0.(upcall := false, sel := {}, frames := [Scanning(s0.sel)]))
  {
    ReachesSelf(s0);
    ReachesNext(s0, s0);
    ReachesNext(s0, s0.(upcall := false, frames := [Exchanging]));
  }

  lemma NextWord(s0: State, s: State, l1: set<nat>)
    requires s.frames == [] && Reaches(s0, s.(frames := [Scanning(l1)]))
    ensures Reaches(s0, if l1 == {} then s else s.(frames := [ReadPending(l1 - {Least(l1)}, Least(l1))]))
  {
    ReachesNext(s0, s.(frames := [Scanning(l1)]));
    assert l1 == {} ==> FrameStep(s.(frames := [Scanning(l1)]), 0) == s;
  }

  // Where a scan stands once it has read both words of bits.
  function AtPort(l1: set<nat>, w: nat, l2: set<nat>): Frame {
    if l2 == {} then Scanning(l1) else Clearing(l1, w, Least(l2))
  }

  lemma ReadWord(s0: State, s: State, l1: set<nat>, w: nat)
    requires s.frames == [] && Reaches(s0, s.(frames := [ReadPending(l1, w)]))
    ensures Reaches(s0, s.(frames := [AtPort(l1, w, Active(s.pending, s.mask, w))]))
  {
    ReachesNext(s0, s.(frames := [ReadPending(l1, w)]));
    ReachesNext(s0, s.(frames := [ReadMask(l1, w, InWord(s.pending, w))]));
  }

  lemma HandlePort(s0: State, s: State, l1: set<nat>, w: nat, port: nat)
    requires s.frames == [] && Reaches(s0, s.(frames := [Clearing(l1, w, port)]))
    ensures Reaches(s0, s.(pending := s.pending - {port}, frames := [ReadPending(l1, w)]))
  {
    ReachesNext(s0, s.(frames := [Clearing(l1, w, port)]));
    ReachesNext(s0, s.(pending := s.pending - {port}, frames := [Handling(l1, w, port)]));
  }
}
