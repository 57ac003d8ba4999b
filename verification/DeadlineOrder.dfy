/**
  The deadline scheduler's promises: the FIFOs stay in order of expiry, so their
  heads decide what has expired, and reads cannot hold back writes for long.
 */
module DeadlineOrder {
  import opened Lists
  import opened Sets
  import opened Deadline

  // ----- FIFO order

  ghost predicate Sorted(rqs: map<Id, Rq>, fifo: seq<Id>) {
    forall i, j :: 0 <= i < j < |fifo| && fifo[i] in rqs && fifo[j] in rqs ==> rqs[fifo[i]].expires <= rqs[fifo[j]].expires
  }

  ghost predicate InOrder(q: Queue) { Sorted(q.rqs, q.fifo.read) && Sorted(q.rqs, q.fifo.write) }

  // No deadline lies further ahead than the setting for its direction.
  ghost predicate Timely(q: Queue, expire: Both<nat>, now: nat) {
    forall id :: id in q.rqs ==> q.rqs[id].expires <= now + expire.At(q.rqs[id].dir)
  }

  predicate Expired(q: Queue, id: Id, now: nat)
    requires id in q.rqs
  {
    now > q.rqs[id].expires
  }

  // Looking at the head alone decides whether anything of that direction has expired.
  lemma HeadDecides(q: Queue, h: HashFn, d: Dir, now: nat)
    requires Agrees(q, h, {}) && InOrder(q) && q.fifo.At(d) != []
    ensures var head := q.fifo.At(d)[0];
            && head in q.rqs && q.rqs[head].dir == d
            && (Expired(q, head, now) <==> exists id :: id in q.rqs && q.rqs[id].dir == d && Expired(q, id, now))
            && (forall id :: id in q.rqs && q.rqs[id].dir == d ==> q.rqs[head].expires <= q.rqs[id].expires)
  {
    var fifo := q.fifo.At(d);
    assert ViewOk(q, h, {}, Fifos) && fifo[0] in fifo;
    forall id | id in q.rqs && q.rqs[id].dir == d ensures q.rqs[fifo[0]].expires <= q.rqs[id].expires {
      assert id in fifo;
      var k :| 0 <= k < |fifo| && fifo[k] == id;
    }
  }

  lemma SortedMinus(rqs: map<Id, Rq>, fifo: seq<Id>, id: Id)
    requires Sorted(rqs, fifo)
    ensures Sorted(rqs - {id}, Minus(fifo, id))
  {
    var s := Minus(fifo, id);
    forall i, j | 0 <= i < j < |s| && s[i] in rqs - {id} && s[j] in rqs - {id} ensures rqs[s[i]].expires <= rqs[s[j]].expires {
      MinusOrder(fifo, id, i, j);
    }
  }

  lemma RemovedInOrder(q: Queue, id: Id)
    requires InOrder(q) && id in q.rqs
    ensures InOrder(Removed(q, id))
  {
    SortedMinus(q.rqs, q.fifo.read, id);
    SortedMinus(q.rqs, q.fifo.write, id);
  }

  lemma MovedInOrder(q: Queue, id: Id)
    requires InOrder(q) && id in q.rqs
    ensures InOrder(Moved(q, id))
  {
    SortedMinus(q.rqs, q.fifo.read, id);
    SortedMinus(q.rqs, q.fifo.write, id);
  }

  lemma MadeRoomInOrder(q: Queue, key: Key, expire: Both<nat>, now: nat)
    requires InOrder(q) && Timely(q, expire, now) && (key in q.tree ==> q.tree[key] in q.rqs)
    ensures InOrder(MadeRoom(q, key)) && Timely(MadeRoom(q, key), expire, now)
  {
    if key in q.tree { MovedInOrder(q, q.tree[key]); }
  }

  // A request added now expires last.
  lemma AddedInOrder(q: Queue, h: HashFn, id: Id, rq: Rq, expire: Both<nat>, now: nat)
    requires Agrees(q, h, {}) && id !in q.rqs && InOrder(q) && Timely(q, expire, now)
    requires rq.expires == now + expire.At(rq.dir)
    ensures InOrder(Added(q, h, id, rq)) && Timely(Added(q, h, id, rq), expire, now)
  {
    MadeRoomAgrees(q, h, {}, rq.Node());
    MadeRoomInOrder(q, rq.Node(), expire, now);
    var q1 := MadeRoom(q, rq.Node());
    LinkedInOrder(q1, h, id, rq, expire, now);
  }

  lemma LinkedInOrder(q: Queue, h: HashFn, id: Id, rq: Rq, expire: Both<nat>, now: nat)
    requires Agrees(q, h, {}) && id !in q.rqs && InOrder(q) && Timely(q, expire, now)
    requires rq.expires == now + expire.At(rq.dir)
    ensures |q.hash| == HASH_ENTRIES
    ensures InOrder(Linked(q, h, id, rq)) && Timely(Linked(q, h, id, rq), expire, now)
  {
    assert ViewOk(q, h, {}, Fifos) && ViewOk(q, h, {}, Chains);
    AppendedInOrder(q.rqs, q.fifo, id, rq);
  }

  lemma AppendedInOrder(rqs: map<Id, Rq>, fifo: Both<seq<Id>>, id: Id, rq: Rq)
    requires FifoOk(rqs, fifo.read, Read) && FifoOk(rqs, fifo.write, Write) && id !in rqs
    requires Sorted(rqs, fifo.read) && Sorted(rqs, fifo.write)
    requires forall x :: x in rqs && rqs[x].dir == rq.dir ==> rqs[x].expires <= rq.expires
    ensures var fifo' := fifo.With(rq.dir, fifo.At(rq.dir) + [id]);
            Sorted(rqs[id := rq], fifo'.read) && Sorted(rqs[id := rq], fifo'.write)
  {
    SortedAppend(rqs, fifo.At(rq.dir), id, rq);
    SortedElsewhere(rqs, fifo.read, id, rq);
    SortedElsewhere(rqs, fifo.write, id, rq);
  }

  lemma SortedAppend(rqs: map<Id, Rq>, fifo: seq<Id>, id: Id, rq: Rq)
    requires Sorted(rqs, fifo) && id !in fifo && (forall x :: x in fifo ==> x in rqs && rqs[x].expires <= rq.expires)
    ensures Sorted(rqs[id := rq], fifo + [id])
  {
  }

  lemma SortedElsewhere(rqs: map<Id, Rq>, fifo: seq<Id>, id: Id, rq: Rq)
    requires Sorted(rqs, fifo) && (id in fifo ==> id in rqs && rq.expires == rqs[id].expires)
    ensures Sorted(rqs[id := rq], fifo)
  {
  }

  lemma RegrownInOrder(q: Queue, h: HashFn, id: Id, sector: nat, sectors: nat, expire: Both<nat>, now: nat)
    requires |q.hash| == HASH_ENTRIES && id in q.rqs && InOrder(q) && Timely(q, expire, now)
    ensures InOrder(Regrown(q, h, id, sector, sectors)) && Timely(Regrown(q, h, id, sector, sectors), expire, now)
  {
    var rq := q.rqs[id].(sector := sector, sectors := sectors);
    SortedElsewhere(q.rqs, q.fifo.read, id, rq);
    SortedElsewhere(q.rqs, q.fifo.write, id, rq);
  }

  lemma MergedInOrder(q: Queue, h: HashFn, id: Id, sector: nat, sectors: nat, expire: Both<nat>, now: nat)
    requires Agrees(q, h, {}) && id in q.rqs && InOrder(q) && Timely(q, expire, now)
    ensures InOrder(Merged(q, h, id, sector, sectors)) && Timely(Merged(q, h, id, sector, sectors), expire, now)
  {
    RegrownAgrees(q, h, id, sector, sectors);
    RegrownInOrder(q, h, id, sector, sectors, expire, now);
    if sector != q.rqs[id].sector {
      var q2 := DelRb(Regrown(q, h, id, sector, sectors), id, q.rqs[id].Node());
      MadeRoomAgrees(q2, h, {id}, q2.rqs[id].Node());
      MadeRoomInOrder(q2, q2.rqs[id].Node(), expire, now);
    }
  }

  // Taking the other's deadline and the place just behind it keeps the order.
  lemma {:induction false} SortedPutAfter(rqs: map<Id, Rq>, fifo: seq<Id>, id: Id, after: Id)
    requires Sorted(rqs, fifo) && (forall x :: x in fifo ==> x in rqs)
    requires after in fifo && id in rqs && rqs[id].expires == rqs[after].expires
    ensures Sorted(rqs, PutAfter(fifo, id, after))
  {
    var first, tail := fifo[0], fifo[1..];
    SortedHead(rqs, fifo);
    if first == after {
      SortedCons(rqs, id, tail);
      SortedCons(rqs, after, [id] + tail);
      assert PutAfter(fifo, id, after) == [after] + ([id] + tail);
    } else {
      SortedPutAfter(rqs, tail, id, after);
      PutAfterMembers(tail, id, after);
      assert after in tail;
      SortedCons(rqs, first, PutAfter(tail, id, after));
    }
  }

  lemma SortedHead(rqs: map<Id, Rq>, fifo: seq<Id>)
    requires Sorted(rqs, fifo) && fifo != [] && forall x :: x in fifo ==> x in rqs
    ensures Sorted(rqs, fifo[1..]) && fifo == [fifo[0]] + fifo[1..]
    ensures forall x :: x in fifo[1..] ==> x in fifo && rqs[fifo[0]].expires <= rqs[x].expires
  {
    assert fifo[0] in fifo;
    forall x | x in fifo[1..] ensures rqs[fifo[0]].expires <= rqs[x].expires {
      var k :| 0 <= k < |fifo[1..]| && fifo[1..][k] == x;
      assert fifo[k + 1] == x;
    }
  }

  lemma SortedCons(rqs: map<Id, Rq>, first: Id, rest: seq<Id>)
    requires Sorted(rqs, rest) && first in rqs
    requires forall x :: x in rest ==> x in rqs && rqs[first].expires <= rqs[x].expires
    ensures Sorted(rqs, [first] + rest)
  {
  }

  lemma {:induction false} PutAfterMembers(s: seq<Id>, id: Id, after: Id)
    ensures forall x :: x in PutAfter(s, id, after) ==> x in s || (x == id && after in s)
  {
    if s != [] {
      assert s == [s[0]] + s[1..];
      PutAfterMembers(s[1..], id, after);
    }
  }

  lemma MovedAfterInOrder(rqs: map<Id, Rq>, fifo: Both<seq<Id>>, id: Id, other: Id, rq: Rq)
    requires FifoOk(rqs, fifo.read, Read) && FifoOk(rqs, fifo.write, Write)
    requires Sorted(rqs, fifo.read) && Sorted(rqs, fifo.write)
    requires id in rqs && other in rqs && id != other && rqs[id].dir == rqs[other].dir == rq.dir
    requires rq.expires == rqs[other].expires
    ensures var fifo' := fifo.With(rq.dir, MovedAfter(fifo.At(rq.dir), id, other));
            Sorted(rqs[id := rq], fifo'.read) && Sorted(rqs[id := rq], fifo'.write)
  {
    var s, rqs' := fifo.At(rq.dir), rqs[id := rq];
    SortedMinus(rqs, s, id);
    MinusMembers(s, id);
    assert Sorted(rqs', Minus(s, id));
    SortedPutAfter(rqs', Minus(s, id), id, other);
    SortedElsewhere(rqs, fifo.At(if rq.dir == Read then Write else Read), id, rq);
  }

  lemma InheritedTimely(q: Queue, id: Id, other: Id, expire: Both<nat>, now: nat)
    requires Timely(q, expire, now) && id in q.rqs && other in q.rqs
    ensures Timely(Inherited(q, id, other), expire, now)
  {
  }

  lemma InheritedInOrder(q: Queue, h: HashFn, id: Id, other: Id, expire: Both<nat>, now: nat)
    requires Agrees(q, h, {}) && InOrder(q) && Timely(q, expire, now)
    requires id in q.rqs && other in q.rqs && id != other && q.rqs[id].dir == q.rqs[other].dir
    ensures InOrder(Inherited(q, id, other)) && Timely(Inherited(q, id, other), expire, now)
  {
    if q.rqs[other].expires < q.rqs[id].expires {
      assert ViewOk(q, h, {}, Fifos);
      MovedAfterInOrder(q.rqs, q.fifo, id, other, q.rqs[id].(expires := q.rqs[other].expires));
    }
    InheritedTimely(q, id, other, expire, now);
  }

  lemma AbsorbedInOrder(q: Queue, h: HashFn, id: Id, other: Id, sector: nat, sectors: nat, expire: Both<nat>, now: nat)
    requires Agrees(q, h, {}) && MayAbsorb(q, id, other, sector) && InOrder(q) && Timely(q, expire, now)
    ensures InOrder(Absorbed(q, h, id, other, sector, sectors)) && Timely(Absorbed(q, h, id, other, sector, sectors), expire, now)
  {
    MergedKeepsOther(q, h, id, other, sector, sectors);
    MergedAgrees(q, h, id, sector, sectors);
    MergedInOrder(q, h, id, sector, sectors, expire, now);
    var q1 := Merged(q, h, id, sector, sectors);
    InheritedInOrder(q1, h, id, other, expire, now);
    RemovedInOrder(Inherited(q1, id, other), other);
  }

  // The merged request waits no longer than either would have.
  lemma AbsorbedDeadline(q: Queue, h: HashFn, id: Id, other: Id, sector: nat, sectors: nat)
    requires Agrees(q, h, {}) && MayAbsorb(q, id, other, sector)
    ensures var rqs := Absorbed(q, h, id, other, sector, sectors).rqs;
            && id in rqs && other !in rqs && rqs[id].sector == sector && rqs[id].sectors == sectors
            && rqs[id].expires <= q.rqs[id].expires && rqs[id].expires <= q.rqs[other].expires
            && (rqs[id].expires == q.rqs[id].expires || rqs[id].expires == q.rqs[other].expires)
  {
    MergedKeepsOther(q, h, id, other, sector, sectors);
    var q1 := Merged(q, h, id, sector, sectors);
    assert Absorbed(q, h, id, other, sector, sectors).rqs == Inherited(q1, id, other).rqs - {other};
  }

  // ----- dispatch

  // The candidate to go on with, and whether the batch it belongs to may go on.
  function Candidate(q: Queue): Option<Id> {
    if q.next.write.Some? then q.next.write else q.next.read
  }

  function Batching(q: Queue, t: Tunables, h: HashFn): nat
    requires Agrees(q, h, {})
  {
    CandidateQueued(q, h);
    if Candidate(q).Some? && q.lastSector != q.rqs[Candidate(q).value].sector then q.batching + t.fifoBatch else q.batching
  }

  lemma CandidateQueued(q: Queue, h: HashFn)
    requires Agrees(q, h, {})
    ensures Candidate(q).Some? ==> Candidate(q).value in q.rqs
    ensures forall d :: q.next.At(d).Some? ==> q.next.At(d).value in q.rqs && q.rqs[q.next.At(d).value].dir == d
    ensures forall d :: q.next.At(d).Some? ==> Candidate(q) == q.next.At(d)
  {
    assert ViewOk(q, h, {}, Cursor);
  }

  predicate InBatch(q: Queue, t: Tunables, h: HashFn)
    requires Agrees(q, h, {})
  {
    Candidate(q).Some? && Batching(q, t, h) < t.fifoBatch
  }

  predicate WritesTurn(q: Queue, t: Tunables) {
    q.fifo.write != [] && (q.fifo.read == [] || q.starved >= t.writesStarved)
  }

  function Turn(q: Queue, t: Tunables): Dir { if WritesTurn(q, t) then Write else Read }

  // How often writes have been passed over once the turn is taken.
  function Hunger(q: Queue, t: Tunables): nat {
    if WritesTurn(q, t) then 0 else if q.fifo.write != [] then q.starved + 1 else q.starved
  }

  // What a dispatch decides: the request, and the two counters afterwards.
  datatype Choice = Choice(id: Id, batching: nat, starved: nat)

  // The best request of a direction when no batch is running.
  function Find(q: Queue, t: Tunables, h: HashFn, d: Dir, now: nat, starved: nat): Choice
    requires Agrees(q, h, {}) && q.fifo.At(d) != []
  {
    FifoInTree(q, h, d);
    var head := q.fifo.At(d)[0];
    if Expired(q, head, now) then Choice(head, 1, starved)
    else if q.next.At(d).Some? then Choice(q.next.At(d).value, Batching(q, t, h) + 1, starved)
    else Choice(First(q.tree, d), 1, starved)
  }

  lemma FifoInTree(q: Queue, h: HashFn, d: Dir)
    requires Agrees(q, h, {}) && q.fifo.At(d) != []
    ensures q.fifo.At(d)[0] in q.rqs && q.rqs[q.fifo.At(d)[0]].dir == d && Sectors(q.tree, d) != {}
  {
    assert ViewOk(q, h, {}, Fifos) && ViewOk(q, h, {}, Trees);
    var id := q.fifo.At(d)[0];
    assert id in q.fifo.At(d);
    assert q.rqs[id].sector in Sectors(q.tree, d);
  }

  function Chosen(q: Queue, t: Tunables, h: HashFn, now: nat): Option<Choice>
    requires Agrees(q, h, {})
  {
    if InBatch(q, t, h) then Some(Choice(Candidate(q).value, Batching(q, t, h) + 1, q.starved))
    else if q.fifo.read == [] && q.fifo.write == [] then None
    else Some(Find(q, t, h, Turn(q, t), now, Hunger(q, t)))
  }

  // The request found is of the direction asked for.
  lemma FindQueued(q: Queue, t: Tunables, h: HashFn, d: Dir, now: nat, starved: nat)
    requires Agrees(q, h, {}) && q.fifo.At(d) != []
    ensures var id := Find(q, t, h, d, now, starved).id;
            id in q.rqs && q.rqs[id].dir == d
  {
    FifoInTree(q, h, d);
    CandidateQueued(q, h);
    FirstIsLowest(q.tree, d);
    assert ViewOk(q, h, {}, Trees);
  }

  lemma NothingQueued(q: Queue, h: HashFn)
    requires Agrees(q, h, {})
    ensures q.fifo.read == [] && q.fifo.write == [] <==> q.rqs == map[]
  {
    assert ViewOk(q, h, {}, Fifos);
    forall id | id in q.rqs ensures q.fifo.read != [] || q.fifo.write != [] {
      assert id in q.fifo.At(q.rqs[id].dir);
    }
    assert q.fifo.read != [] ==> q.fifo.read[0] in q.fifo.read;
    assert q.fifo.write != [] ==> q.fifo.write[0] in q.fifo.write;
  }

  // A dispatch takes a queued request, and refuses only when nothing is queued.
  lemma ChosenQueued(q: Queue, t: Tunables, h: HashFn, now: nat)
    requires Agrees(q, h, {})
    ensures Chosen(q, t, h, now).None? <==> q.rqs == map[]
    ensures Chosen(q, t, h, now).Some? ==> Chosen(q, t, h, now).value.id in q.rqs
  {
    NothingQueued(q, h);
    if InBatch(q, t, h) {
      CandidateQueued(q, h);
    } else if q.rqs != map[] {
      FindQueued(q, t, h, Turn(q, t), now, Hunger(q, t));
    }
  }

  // Outside a batch, if anything of the chosen direction has expired, the request that
  // expired first goes out.
  lemma ExpiredFirst(q: Queue, t: Tunables, h: HashFn, now: nat, late: Id)
    requires Agrees(q, h, {}) && InOrder(q) && !InBatch(q, t, h)
    requires late in q.rqs && Expired(q, late, now)
    requires Chosen(q, t, h, now).Some? && Chosen(q, t, h, now).value.id in q.rqs
    requires q.rqs[Chosen(q, t, h, now).value.id].dir == q.rqs[late].dir
    ensures q.rqs[Chosen(q, t, h, now).value.id].expires <= q.rqs[late].expires
    ensures [Chosen(q, t, h, now).value.id] <= q.fifo.At(q.rqs[late].dir)
  {
    var d := q.rqs[late].dir;
    assert late in q.fifo.At(d) by { assert ViewOk(q, h, {}, Fifos); }
    HeadDecides(q, h, d, now);
    ChosenDirection(q, t, h, now);
  }

  lemma ChosenDirection(q: Queue, t: Tunables, h: HashFn, now: nat)
    requires Agrees(q, h, {}) && !InBatch(q, t, h) && Chosen(q, t, h, now).Some?
    ensures Chosen(q, t, h, now).value.id in q.rqs
    ensures q.rqs[Chosen(q, t, h, now).value.id].dir == Turn(q, t)
  {
    FindQueued(q, t, h, Turn(q, t), now, Hunger(q, t));
  }

  // deadline_dispatch_requests.
  function Dispatched(q: Queue, t: Tunables, h: HashFn, now: nat): Queue
    requires Agrees(q, h, {})
  {
    ChosenQueued(q, t, h, now);
    match Chosen(q, t, h, now)
    case None => q
    case Some(c) => Moved(q.(batching := c.batching, starved := c.starved), c.id)
  }

  lemma DispatchedKeeps(q: Queue, t: Tunables, h: HashFn, now: nat)
    requires Agrees(q, h, {})
    ensures Agrees(Dispatched(q, t, h, now), h, {})
    ensures InOrder(q) ==> InOrder(Dispatched(q, t, h, now))
    ensures Timely(q, t.expire, now) ==> Timely(Dispatched(q, t, h, now), t.expire, now)
  {
    ChosenQueued(q, t, h, now);
    if Chosen(q, t, h, now).Some? {
      var c := Chosen(q, t, h, now).value;
      var q1 := q.(batching := c.batching, starved := c.starved);
      SameViews(q, q1, h, {});
      MovedAgrees(q1, h, {}, c.id);
      if InOrder(q) { MovedInOrder(q1, c.id); }
    }
  }

  // A new request is queued, last in its FIFO; one that was at its place is dispatched, and
  // nothing else changes.
  ghost predicate Joined(q: Queue, id: Id, rq: Rq, q': Queue) {
    && q'.fifo.At(rq.dir) != [] && q'.fifo.At(rq.dir)[|q'.fifo.At(rq.dir)| - 1] == id
    && (if rq.Node() in q.tree then
          q'.rqs == (q.rqs - {q.tree[rq.Node()]})[id := rq] && q'.dispatched == q.dispatched + [q.tree[rq.Node()]]
        else q'.rqs == q.rqs[id := rq] && q'.dispatched == q.dispatched)
  }

  lemma RoomJoins(q: Queue, key: Key)
    requires key in q.tree ==> q.tree[key] in q.rqs
    ensures var q1 := MadeRoom(q, key);
            if key in q.tree then q1.rqs == q.rqs - {q.tree[key]} && q1.dispatched == q.dispatched + [q.tree[key]]
            else q1 == q
  {
  }

  lemma LinkedJoins(q: Queue, h: HashFn, id: Id, rq: Rq)
    requires |q.hash| == HASH_ENTRIES
    ensures var q' := Linked(q, h, id, rq);
            && q'.rqs == q.rqs[id := rq] && q'.dispatched == q.dispatched
            && q'.fifo.At(rq.dir) == q.fifo.At(rq.dir) + [id]
  {
  }

  lemma RoomThenLinked(q: Queue, h: HashFn, id: Id, rq: Rq)
    requires rq.Node() in q.tree ==> q.tree[rq.Node()] in q.rqs
    requires |MadeRoom(q, rq.Node()).hash| == HASH_ENTRIES
    ensures Joined(q, id, rq, Linked(MadeRoom(q, rq.Node()), h, id, rq))
  {
    RoomJoins(q, rq.Node());
    LinkedJoins(MadeRoom(q, rq.Node()), h, id, rq);
  }

  lemma AddedJoins(q: Queue, h: HashFn, id: Id, rq: Rq)
    requires Agrees(q, h, {}) && id !in q.rqs
    ensures Joined(q, id, rq, Added(q, h, id, rq))
  {
    MadeRoomAgrees(q, h, {}, rq.Node());
    var q1 := MadeRoom(q, rq.Node());
    assert ViewOk(q1, h, {}, Chains);
    RoomThenLinked(q, h, id, rq);
    assert Added(q, h, id, rq) == Linked(q1, h, id, rq);
  }

  // ----- which request goes out

  // The batch goes on with direction d: its request next in line starts where the last
  // one ended, and the batch is not full.
  ghost predicate Continues(q: Queue, t: Tunables, d: Dir) {
    && q.next.At(d).Some? && q.next.At(d).value in q.rqs
    && q.rqs[q.next.At(d).value].sector == q.lastSector && q.batching < t.fifoBatch
  }

  ghost predicate GoesOn(q: Queue, t: Tunables) { Continues(q, t, Read) || Continues(q, t, Write) }

  ghost predicate Waiting(q: Queue, d: Dir) { exists id :: id in q.rqs && q.rqs[id].dir == d }

  lemma WaitingInFifo(q: Queue, h: HashFn, d: Dir)
    requires Agrees(q, h, {})
    ensures Waiting(q, d) <==> q.fifo.At(d) != []
  {
    assert ViewOk(q, h, {}, Fifos);
    if q.fifo.At(d) != [] { FifoInTree(q, h, d); }
    forall id | id in q.rqs && q.rqs[id].dir == d ensures q.fifo.At(d) != [] {
      assert id in q.fifo.At(d);
    }
  }

  lemma GoesOnIsBatch(q: Queue, t: Tunables, h: HashFn)
    requires Agrees(q, h, {})
    ensures InBatch(q, t, h) <==> GoesOn(q, t)
    ensures Continues(q, t, Read) ==> Candidate(q) == q.next.read
    ensures Continues(q, t, Write) ==> Candidate(q) == q.next.write
  {
    CandidateQueued(q, h);
  }

  // What a dispatch sends, from the queue and its counters alone.  The direction: that of
  // a batch that goes on; else writes exactly if one waits and either no read does or
  // reads have been preferred writes_starved times.
  ghost predicate DueTurn(q: Queue, t: Tunables, d: Dir) {
    if GoesOn(q, t) then Continues(q, t, d)
    else d == Write <==> Waiting(q, Write) && (Waiting(q, Read) ==> q.starved >= t.writesStarved)
  }

  ghost predicate AnyExpired(q: Queue, d: Dir, now: nat) {
    exists x :: x in q.rqs && q.rqs[x].dir == d && now > q.rqs[x].expires
  }

  // The request: the next of the batch; else the one that expired first, else the next in
  // line, else the lowest.
  ghost predicate DueRequest(q: Queue, t: Tunables, now: nat, id: Id)
    requires id in q.rqs
  {
    var d := q.rqs[id].dir;
    if GoesOn(q, t) then q.next.At(d) == Some(id)
    else if AnyExpired(q, d, now) then
      now > q.rqs[id].expires && forall x :: x in q.rqs && q.rqs[x].dir == d ==> q.rqs[id].expires <= q.rqs[x].expires
    else if q.next.At(d).Some? then q.next.At(d) == Some(id)
    else forall x :: x in q.rqs && q.rqs[x].dir == d ==> q.rqs[id].sector <= q.rqs[x].sector
  }

  ghost predicate Due(q: Queue, t: Tunables, now: nat, id: Id) {
    id in q.rqs && DueTurn(q, t, q.rqs[id].dir) && DueRequest(q, t, now, id)
  }

  lemma TurnIsDue(q: Queue, t: Tunables, h: HashFn)
    requires Agrees(q, h, {}) && !GoesOn(q, t)
    ensures DueTurn(q, t, Turn(q, t))
  {
    WaitingInFifo(q, h, Read);
    WaitingInFifo(q, h, Write);
  }

  lemma LowestOf(q: Queue, h: HashFn, d: Dir)
    requires Agrees(q, h, {}) && q.fifo.At(d) != []
    ensures Sectors(q.tree, d) != {} && First(q.tree, d) in q.rqs
    ensures forall x :: x in q.rqs && q.rqs[x].dir == d ==> q.rqs[First(q.tree, d)].sector <= q.rqs[x].sector
  {
    FifoInTree(q, h, d);
    FirstIsLowest(q.tree, d);
    assert ViewOk(q, h, {}, Trees);
    forall x | x in q.rqs && q.rqs[x].dir == d ensures q.rqs[First(q.tree, d)].sector <= q.rqs[x].sector {
      assert q.rqs[x].sector in Sectors(q.tree, d);
    }
  }

  lemma FindIsDue(q: Queue, t: Tunables, h: HashFn, d: Dir, now: nat, starved: nat)
    requires Agrees(q, h, {}) && InOrder(q) && q.fifo.At(d) != [] && !GoesOn(q, t)
    ensures var id := Find(q, t, h, d, now, starved).id;
            id in q.rqs && q.rqs[id].dir == d && DueRequest(q, t, now, id)
  {
    HeadDecides(q, h, d, now);
    FindQueued(q, t, h, d, now, starved);
    LowestOf(q, h, d);
    var head := q.fifo.At(d)[0];
    if AnyExpired(q, d, now) { assert Expired(q, head, now); }
    if Expired(q, head, now) { assert AnyExpired(q, d, now); }
  }

  // next is the lowest request above id in its direction, if there is one.
  ghost predicate Follows(q: Queue, id: Id, next: Option<Id>)
    requires id in q.rqs
  {
    match next
    case None => forall x :: x in q.rqs && q.rqs[x].dir == q.rqs[id].dir ==> q.rqs[x].sector <= q.rqs[id].sector
    case Some(n) =>
      && n in q.rqs && q.rqs[n].dir == q.rqs[id].dir && q.rqs[n].sector > q.rqs[id].sector
      && forall x :: x in q.rqs && q.rqs[x].dir == q.rqs[id].dir && q.rqs[x].sector > q.rqs[id].sector ==>
           q.rqs[n].sector <= q.rqs[x].sector
  }

  // What is left behind: the successor next in line, and the counters.
  ghost predicate Leaves(q: Queue, t: Tunables, id: Id, q': Queue)
    requires id in q.rqs
  {
    var d := q.rqs[id].dir;
    && q'.rqs == q.rqs - {id} && q'.dispatched == q.dispatched + [id]
    && q'.lastSector == q.rqs[id].End() && Follows(q, id, q'.next.At(d))
    && q'.next.At(if d == Read then Write else Read) == None
    && (if GoesOn(q, t) then q'.batching == q.batching + 1 && q'.starved == q.starved
        else
          && (q'.batching == 1 || (q.next.At(d) == Some(id) && q'.batching > t.fifoBatch))
          && q'.starved == if d == Write then 0 else if Waiting(q, Write) then q.starved + 1 else q.starved)
  }

  lemma NextFollows(q: Queue, h: HashFn, id: Id)
    requires Agrees(q, h, {}) && id in q.rqs
    ensures Follows(q, id, NextAfter(q.tree, q.rqs[id].dir, q.rqs[id].sector))
  {
    assert ViewOk(q, h, {}, Trees);
    var d, s := q.rqs[id].dir, q.rqs[id].sector;
    NextAfterIsLowest(q.tree, d, s);
    NextAfterOk(q.rqs, q.tree, {}, id);
    assert forall x :: x in q.rqs ==> q.rqs[x].Node() in q.tree;
  }

  lemma MovedFollows(q: Queue, h: HashFn, id: Id)
    requires Agrees(q, h, {}) && id in q.rqs
    ensures Follows(q, id, Moved(q, id).next.At(q.rqs[id].dir))
    ensures Moved(q, id).next.At(if q.rqs[id].dir == Read then Write else Read) == None
  {
    NextFollows(q, h, id);
    assert ViewOk(q, h, {}, Trees);
    NextAfterOk(q.rqs, q.tree, {}, id);
  }

  lemma FindCounters(q: Queue, t: Tunables, h: HashFn, d: Dir, now: nat, starved: nat)
    requires Agrees(q, h, {}) && q.fifo.At(d) != [] && !InBatch(q, t, h)
    ensures var c := Find(q, t, h, d, now, starved);
            c.starved == starved && (c.batching == 1 || (q.next.At(d) == Some(c.id) && c.batching > t.fifoBatch))
  {
    CandidateQueued(q, h);
  }

  lemma HungerCounts(q: Queue, t: Tunables, h: HashFn)
    requires Agrees(q, h, {})
    ensures Hunger(q, t) == if Turn(q, t) == Write then 0 else if Waiting(q, Write) then q.starved + 1 else q.starved
  {
    WaitingInFifo(q, h, Write);
  }

  lemma DueCounters(q: Queue, t: Tunables, h: HashFn, now: nat)
    requires Agrees(q, h, {}) && Chosen(q, t, h, now).Some?
    ensures Chosen(q, t, h, now).value.id in q.rqs
    ensures var c := Chosen(q, t, h, now).value;
            var d := q.rqs[c.id].dir;
            if InBatch(q, t, h) then c.batching == q.batching + 1 && c.starved == q.starved
            else
              && (c.batching == 1 || (q.next.At(d) == Some(c.id) && c.batching > t.fifoBatch))
              && c.starved == if d == Write then 0 else if Waiting(q, Write) then q.starved + 1 else q.starved
  {
    if InBatch(q, t, h) {
      CandidateQueued(q, h);
    } else {
      ChosenDirection(q, t, h, now);
      FindCounters(q, t, h, Turn(q, t), now, Hunger(q, t));
      HungerCounts(q, t, h);
    }
  }

  ghost predicate Sends(q: Queue, t: Tunables, now: nat, id: Id, q': Queue) {
    Due(q, t, now, id) && Leaves(q, t, id, q')
  }

  lemma ChosenIsDue(q: Queue, t: Tunables, h: HashFn, now: nat)
    requires Agrees(q, h, {}) && InOrder(q) && Chosen(q, t, h, now).Some?
    ensures Due(q, t, now, Chosen(q, t, h, now).value.id)
  {
    GoesOnIsBatch(q, t, h);
    CandidateQueued(q, h);
    if !GoesOn(q, t) {
      TurnIsDue(q, t, h);
      FindIsDue(q, t, h, Turn(q, t), now, Hunger(q, t));
    }
  }

  lemma ChosenMeans(q: Queue, t: Tunables, h: HashFn, now: nat)
    requires Agrees(q, h, {})
    ensures Chosen(q, t, h, now).None? <==> q.rqs == map[]
    ensures Chosen(q, t, h, now).Some? && InOrder(q) ==> Due(q, t, now, Chosen(q, t, h, now).value.id)
  {
    ChosenQueued(q, t, h, now);
    if Chosen(q, t, h, now).Some? && InOrder(q) { ChosenIsDue(q, t, h, now); }
  }

  lemma ChosenLeaves(q: Queue, t: Tunables, h: HashFn, now: nat)
    requires Agrees(q, h, {}) && Chosen(q, t, h, now).Some?
    ensures var id := Chosen(q, t, h, now).value.id; id in q.rqs && Leaves(q, t, id, Dispatched(q, t, h, now))
  {
    ChosenQueued(q, t, h, now);
    var c := Chosen(q, t, h, now).value;
    var q1 := q.(batching := c.batching, starved := c.starved);
    SameViews(q, q1, h, {});
    MovedFollows(q1, h, c.id);
    assert Follows(q, c.id, Moved(q1, c.id).next.At(q.rqs[c.id].dir));
    GoesOnIsBatch(q, t, h);
    DueCounters(q, t, h, now);
  }

  // deadline_dispatch_requests sends what is due, and nothing only when nothing is queued.
  lemma DispatchesDue(q: Queue, t: Tunables, h: HashFn, now: nat)
    requires Agrees(q, h, {}) && InOrder(q)
    ensures q.rqs == map[] ==> Dispatched(q, t, h, now) == q
    ensures q.rqs != map[] ==> exists id :: Sends(q, t, now, id, Dispatched(q, t, h, now))
  {
    ChosenQueued(q, t, h, now);
    if q.rqs != map[] {
      ChosenIsDue(q, t, h, now);
      ChosenLeaves(q, t, h, now);
      assert Sends(q, t, now, Chosen(q, t, h, now).value.id, Dispatched(q, t, h, now));
    }
  }

  // Two dispatches in a row: when no batch goes on and nothing of the second's direction
  // has expired, the second is the tree successor of the first if it is of that direction
  // and has one, else the lowest.
  lemma ScanGoesUp(q: Queue, t: Tunables, now: nat, a: Id, q': Queue, then_: nat, b: Id, q'': Queue)
    requires Sends(q, t, now, a, q') && Sends(q', t, then_, b, q'')
    requires !GoesOn(q', t)
    requires !AnyExpired(q', q'.rqs[b].dir, then_)
    ensures if q.rqs[a].dir == q.rqs[b].dir && !Follows(q, a, None) then Follows(q, a, Some(b))
            else forall x :: x in q.rqs && x != a && q.rqs[x].dir == q.rqs[b].dir ==> q.rqs[b].sector <= q.rqs[x].sector
  {
    var d := q.rqs[a].dir;
    if q.rqs[b].dir == d {
      if q'.next.At(d) == None { assert Follows(q, a, None); }
    } else {
      assert q'.next.At(q.rqs[b].dir) == None;
    }
    assert forall x :: x in q.rqs && x != a ==> x in q'.rqs && q'.rqs[x] == q.rqs[x];
  }

  // After a dispatch, the batch may go on exactly if the request next above starts where
  // the dispatched one ended and the batch is not full.
  lemma BatchGoesOn(q: Queue, t: Tunables, h: HashFn, id: Id)
    requires Agrees(q, h, {}) && id in q.rqs
    ensures Agrees(Moved(q, id), h, {})
    ensures var next := NextAfter(q.tree, q.rqs[id].dir, q.rqs[id].sector);
            InBatch(Moved(q, id), t, h) <==>
              next.Some? && next.value in q.rqs && q.rqs[next.value].sector == q.rqs[id].End() && q.batching < t.fifoBatch
  {
    MovedAgrees(q, h, {}, id);
    var q', rq := Moved(q, id), q.rqs[id];
    var next := NextAfter(q.tree, rq.dir, rq.sector);
    assert q'.rqs == q.rqs - {id} && q'.lastSector == rq.End() && q'.batching == q.batching;
    assert ViewOk(q, h, {}, Trees);
    NextAfterOk(q.rqs, q.tree, {}, id);
    assert q'.next.At(rq.dir) == next && Candidate(q') == next;
  }

  // ----- the starvation bound

  function Max(a: int, b: int): int { if a > b then a else b }

  // How many more dispatches can go to reads while a write waits.
  function Patience(batching: nat, starved: nat, t: Tunables): nat {
    MulNonneg(Max(0, t.writesStarved - starved), Max(1, t.fifoBatch));
    Max(0, t.writesStarved - starved) * Max(1, t.fifoBatch) + Max(0, t.fifoBatch - batching)
  }

  lemma MulNonneg(a: nat, b: nat)
    ensures a * b >= 0
  {
  }

  lemma PatienceBound(batching: nat, starved: nat, t: Tunables)
    ensures Patience(batching, starved, t) <= (t.writesStarved + 1) * Max(1, t.fifoBatch)
  {
    var left, f := Max(0, t.writesStarved - starved), Max(1, t.fifoBatch);
    assert (t.writesStarved - left) * f >= 0 by { MulNonneg(t.writesStarved - left, f); }
    assert (t.writesStarved + 1) * f == left * f + (t.writesStarved - left) * f + f;
  }

  // What a dispatch of a read does to the counters while a write waits.
  lemma ReadCounters(q: Queue, t: Tunables, h: HashFn, now: nat)
    requires Agrees(q, h, {}) && q.fifo.write != [] && Chosen(q, t, h, now).Some?
    requires PicksRead(q, t, h, now)
    ensures var c := Chosen(q, t, h, now).value;
            || (c.starved == q.starved && q.batching < t.fifoBatch && c.batching == q.batching + 1)
            || (q.starved < t.writesStarved && c.starved == q.starved + 1 && (c.batching == 1 || c.batching > t.fifoBatch))
  {
    CandidateQueued(q, h);
    if !InBatch(q, t, h) {
      ChosenDirection(q, t, h, now);
    }
  }

  // A dispatch that picks a read while a write waits uses some of it up.
  lemma ReadUsesPatience(q: Queue, t: Tunables, h: HashFn, now: nat)
    requires Agrees(q, h, {}) && PicksRead(q, t, h, now)
    ensures var q' := Dispatched(q, t, h, now);
            Patience(q'.batching, q'.starved, t) < Patience(q.batching, q.starved, t)
  {
    var c := Chosen(q, t, h, now).value;
    ReadCounters(q, t, h, now);
    LessPatience(q.batching, q.starved, c.batching, c.starved, t);
  }

  lemma LessPatience(batching: nat, starved: nat, batching': nat, starved': nat, t: Tunables)
    requires || (starved' == starved && batching < t.fifoBatch && batching' == batching + 1)
             || (starved < t.writesStarved && starved' == starved + 1 && (batching' == 1 || batching' > t.fifoBatch))
    ensures Patience(batching', starved', t) < Patience(batching, starved, t)
  {
    var left, f := t.writesStarved - starved, Max(1, t.fifoBatch);
    assert left * f == (left - 1) * f + f;
  }

  // One step of a run: a dispatch, or anything else the scheduler does, none of which
  // touches the two counters.
  datatype Step = Dispatch(now: nat) | Other

  ghost predicate StepOk(q: Queue, s: Step, q': Queue, t: Tunables, h: HashFn) {
    && Agrees(q, h, {}) && Agrees(q', h, {})
    && (s.Dispatch? ==> q' == Dispatched(q, t, h, s.now))
    && (s.Other? ==> q'.batching == q.batching && q'.starved == q.starved)
  }

  // The operations between dispatches are such steps, even when they dispatch a request
  // that was in the way.
  lemma AddedIsStep(q: Queue, t: Tunables, h: HashFn, id: Id, rq: Rq)
    requires Agrees(q, h, {}) && id !in q.rqs
    ensures StepOk(q, Other, Added(q, h, id, rq), t, h)
  {
    AddedAgrees(q, h, id, rq);
  }

  lemma MergedIsStep(q: Queue, t: Tunables, h: HashFn, id: Id, sector: nat, sectors: nat)
    requires Agrees(q, h, {}) && id in q.rqs
    ensures StepOk(q, Other, Merged(q, h, id, sector, sectors), t, h)
  {
    MergedAgrees(q, h, id, sector, sectors);
  }

  lemma AbsorbedIsStep(q: Queue, t: Tunables, h: HashFn, id: Id, other: Id, sector: nat, sectors: nat)
    requires Agrees(q, h, {}) && MayAbsorb(q, id, other, sector)
    ensures StepOk(q, Other, Absorbed(q, h, id, other, sector, sectors), t, h)
  {
    AbsorbedAgrees(q, h, id, other, sector, sectors);
    MergedIsStep(q, t, h, id, sector, sectors);
    MergedKeepsOther(q, h, id, other, sector, sectors);
  }

  ghost predicate RunOk(qs: seq<Queue>, steps: seq<Step>, t: Tunables, h: HashFn) {
    && |qs| == |steps| + 1
    && (forall i :: 0 <= i < |steps| ==> StepOk(qs[i], steps[i], qs[i + 1], t, h))
  }

  ghost predicate PicksRead(q: Queue, t: Tunables, h: HashFn, now: nat)
    requires Agrees(q, h, {})
  {
    && q.fifo.write != [] && Chosen(q, t, h, now).Some?
    && Chosen(q, t, h, now).value.id in q.rqs && q.rqs[Chosen(q, t, h, now).value.id].dir == Read
  }

  // Every dispatch of the run finds a write waiting and picks a read.
  ghost predicate OnlyReads(qs: seq<Queue>, steps: seq<Step>, t: Tunables, h: HashFn) {
    && |qs| == |steps| + 1
    && (forall i :: 0 <= i < |steps| && steps[i].Dispatch? ==> Agrees(qs[i], h, {}) && PicksRead(qs[i], t, h, steps[i].now))
  }

  function Dispatches(steps: seq<Step>): nat {
    if steps == [] then 0 else Dispatches(steps[..|steps| - 1]) + if steps[|steps| - 1].Dispatch? then 1 else 0
  }

  lemma {:induction false} PatienceRuns(qs: seq<Queue>, steps: seq<Step>, t: Tunables, h: HashFn)
    requires RunOk(qs, steps, t, h) && OnlyReads(qs, steps, t, h)
    ensures Dispatches(steps) + Patience(qs[|steps|].batching, qs[|steps|].starved, t) <= Patience(qs[0].batching, qs[0].starved, t)
  {
    if steps != [] {
      var n := |steps| - 1;
      assert RunOk(qs[..n + 1], steps[..n], t, h);
      PatienceRuns(qs[..n + 1], steps[..n], t, h);
      assert StepOk(qs[n], steps[n], qs[n + 1], t, h);
      if steps[n].Dispatch? { ReadUsesPatience(qs[n], t, h, steps[n].now); }
    }
  }

  // Writes are not starved: in any run, while a write waits, at most
  // (writes_starved + 1) * max(1, fifo_batch) dispatches in a row pick reads.
  lemma WriteStarvationBound(qs: seq<Queue>, steps: seq<Step>, t: Tunables, h: HashFn)
    requires RunOk(qs, steps, t, h) && OnlyReads(qs, steps, t, h)
    ensures Dispatches(steps) <= (t.writesStarved + 1) * Max(1, t.fifoBatch)
  {
    PatienceRuns(qs, steps, t, h);
    PatienceBound(qs[0].batching, qs[0].starved, t);
  }

  // ----- reads come first

  // A dispatch that takes a turn, rather than going on with a batch, while a read waits.
  ghost predicate ReadTurn(q: Queue, s: Step, t: Tunables) {
    s.Dispatch? && Waiting(q, Read) && !GoesOn(q, t)
  }

  ghost predicate SendsDir(q: Queue, q': Queue, d: Dir) {
    exists id :: id in q.rqs && q.rqs[id].dir == d && q'.dispatched == q.dispatched + [id]
  }

  // A dispatch that takes a turn and sends a write.
  ghost predicate WriteTurn(q: Queue, s: Step, q': Queue, t: Tunables) {
    s.Dispatch? && !GoesOn(q, t) && SendsDir(q, q', Write)
  }

  // How many of the steps a, ..., b - 1 are such turns.
  ghost function ReadTurns(qs: seq<Queue>, steps: seq<Step>, t: Tunables, a: nat, b: nat): nat
    requires a <= b <= |steps| < |qs|
  {
    if a == b then 0 else ReadTurns(qs, steps, t, a, b - 1) + if ReadTurn(qs[b - 1], steps[b - 1], t) then 1 else 0
  }

  lemma SentOnce(q: Queue, q': Queue, id: Id, d: Dir)
    requires id in q.rqs && q'.dispatched == q.dispatched + [id]
    ensures SendsDir(q, q', d) <==> q.rqs[id].dir == d
  {
    if SendsDir(q, q', d) {
      var x :| x in q.rqs && q.rqs[x].dir == d && q'.dispatched == q.dispatched + [x];
      assert (q.dispatched + [x])[|q.dispatched|] == (q.dispatched + [id])[|q.dispatched|];
    }
  }

  lemma ChosenTurn(q: Queue, t: Tunables, h: HashFn, now: nat)
    requires Agrees(q, h, {}) && Chosen(q, t, h, now).Some?
    ensures Chosen(q, t, h, now).value.id in q.rqs
    ensures DueTurn(q, t, q.rqs[Chosen(q, t, h, now).value.id].dir)
  {
    GoesOnIsBatch(q, t, h);
    CandidateQueued(q, h);
    if !GoesOn(q, t) {
      TurnIsDue(q, t, h);
      ChosenDirection(q, t, h, now);
    }
  }

  // What a step does to the count of times writes were passed over.
  ghost predicate Counted(q: Queue, s: Step, q': Queue, t: Tunables) {
    && q'.starved <= q.starved + (if ReadTurn(q, s, t) then 1 else 0)
    && (ReadTurn(q, s, t) && q.starved < t.writesStarved ==> SendsDir(q, q', Read))
    && (WriteTurn(q, s, q', t) ==> q'.starved == 0)
  }

  lemma StepCounted(q: Queue, s: Step, q': Queue, t: Tunables, h: HashFn)
    requires StepOk(q, s, q', t, h)
    ensures Counted(q, s, q', t)
  {
    if s.Dispatch? {
      ChosenQueued(q, t, h, s.now);
      if q.rqs != map[] {
        ChosenTurn(q, t, h, s.now);
        ChosenLeaves(q, t, h, s.now);
        TurnCounted(q, t, Chosen(q, t, h, s.now).value.id, s, q');
      } else {
        NoneSent(q);
      }
    }
  }

  lemma NoneSent(q: Queue)
    ensures !SendsDir(q, q, Write)
  {
    assert forall x :: |q.dispatched + [x]| != |q.dispatched|;
  }

  lemma TurnCounted(q: Queue, t: Tunables, id: Id, s: Step, q': Queue)
    requires id in q.rqs && DueTurn(q, t, q.rqs[id].dir) && Leaves(q, t, id, q') && s.Dispatch?
    ensures Counted(q, s, q', t)
  {
    SentOnce(q, q', id, Read);
    SentOnce(q, q', id, Write);
    assert Waiting(q, q.rqs[id].dir);
  }

  ghost predicate CountedRun(qs: seq<Queue>, steps: seq<Step>, t: Tunables) {
    && |qs| == |steps| + 1
    && (forall i :: 0 <= i < |steps| ==> Counted(qs[i], steps[i], qs[i + 1], t))
  }

  lemma RunCounted(qs: seq<Queue>, steps: seq<Step>, t: Tunables, h: HashFn)
    requires RunOk(qs, steps, t, h)
    ensures CountedRun(qs, steps, t)
  {
    forall i | 0 <= i < |steps| ensures Counted(qs[i], steps[i], qs[i + 1], t) {
      StepCounted(qs[i], steps[i], qs[i + 1], t, h);
    }
  }

  lemma {:induction false} StarvedRuns(qs: seq<Queue>, steps: seq<Step>, t: Tunables, a: nat, b: nat)
    requires CountedRun(qs, steps, t) && a <= b <= |steps|
    ensures qs[b].starved <= qs[a].starved + ReadTurns(qs, steps, t, a, b)
    decreases b
  {
    if a < b {
      StarvedRuns(qs, steps, t, a, b - 1);
      assert Counted(qs[b - 1], steps[b - 1], qs[b], t);
    }
  }

  lemma CountedPrefers(qs: seq<Queue>, steps: seq<Step>, t: Tunables, a: nat, b: nat)
    requires CountedRun(qs, steps, t) && a < b < |steps|
    requires WriteTurn(qs[a], steps[a], qs[a + 1], t)
    requires ReadTurn(qs[b], steps[b], t) && ReadTurns(qs, steps, t, a + 1, b) < t.writesStarved
    ensures SendsDir(qs[b], qs[b + 1], Read)
  {
    assert Counted(qs[a], steps[a], qs[a + 1], t);
    StarvedRuns(qs, steps, t, a + 1, b);
    assert Counted(qs[b], steps[b], qs[b + 1], t);
  }

  // Reads are preferred: once a turn has gone to writes, the next writes_starved turns
  // that find a read waiting all go to reads, whatever else happens in between.
  lemma ReadsPreferred(qs: seq<Queue>, steps: seq<Step>, t: Tunables, h: HashFn, a: nat, b: nat)
    requires RunOk(qs, steps, t, h) && a < b < |steps|
    requires WriteTurn(qs[a], steps[a], qs[a + 1], t)
    requires ReadTurn(qs[b], steps[b], t) && ReadTurns(qs, steps, t, a + 1, b) < t.writesStarved
    ensures SendsDir(qs[b], qs[b + 1], Read)
  {
    RunCounted(qs, steps, t, h);
    CountedPrefers(qs, steps, t, a, b);
  }
}
