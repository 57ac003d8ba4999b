/**
  The deadline scheduler as it runs: hash chains scanned and purged, trees, FIFOs and
  counters updated in place.  Each method is proved against the value it leaves.
 */
module DeadlineScheduler {
  import opened Lists
  import opened Sets
  import opened Deadline
  import opened DeadlineOrder

  // The mergeable request ending at a sector that a scan of everything would look for.
  ghost predicate Mergeable(rqs: map<Id, Rq>, id: Id, offset: nat) {
    id in rqs && rqs[id].mergeable && rqs[id].End() == offset
  }

  // A purged chain: requests that can no longer merge may have gone, no other has.
  ghost predicate Purged(rqs: map<Id, Rq>, chain: seq<Id>, kept: seq<Id>) {
    && NoDup(kept)
    && (forall id :: id in kept ==> id in chain)
    && (forall id :: id in chain && id in rqs && rqs[id].mergeable ==> id in kept)
  }

  // The walk along one chain.
  method ScanChain(rqs: map<Id, Rq>, chain: seq<Id>, offset: nat) returns (found: Option<Id>, kept: seq<Id>)
    requires NoDup(chain) && forall id :: id in chain ==> id in rqs
    ensures Purged(rqs, chain, kept)
    ensures found.Some? ==> found.value in chain && Mergeable(rqs, found.value, offset)
    ensures found.None? ==> forall id :: id in chain ==> !Mergeable(rqs, id, offset)
  {
    kept := [];
    for i := 0 to |chain|
      invariant Purged(rqs, chain[..i], kept)
      invariant forall id :: id in chain[..i] ==> !Mergeable(rqs, id, offset)
    {
      var id := chain[i];
      assert chain[..i + 1] == chain[..i] + [id] && id !in chain[..i];
      if !rqs[id].mergeable {
        continue;
      }
      if rqs[id].End() == offset {
        PurgedPrefix(rqs, chain, i, kept);
        return Some(id), kept + chain[i..];
      }
      kept := kept + [id];
    }
    assert chain[..|chain|] == chain;
    found := None;
  }

  lemma PurgedPrefix(rqs: map<Id, Rq>, chain: seq<Id>, i: nat, kept: seq<Id>)
    requires NoDup(chain) && i <= |chain| && Purged(rqs, chain[..i], kept)
    ensures Purged(rqs, chain, kept + chain[i..])
  {
    assert chain == chain[..i] + chain[i..];
    forall a, b | 0 <= a < |kept| && 0 <= b < |chain[i..]| ensures kept[a] != chain[i..][b] {
      assert kept[a] in kept;
    }
  }

  lemma PurgedAgrees(q: Queue, h: HashFn, b: nat, kept: seq<Id>)
    requires Agrees(q, h, {}) && b < |q.hash| && Purged(q.rqs, q.hash[b], kept)
    ensures Agrees(q.(hash := q.hash[b := kept]), h, {})
  {
    var q' := q.(hash := q.hash[b := kept]);
    forall v ensures ViewOk(q', h, {}, v) {
      assert ViewOk(q, h, {}, v);
      if v == Chains {
        forall c | 0 <= c < HASH_ENTRIES ensures ChainOk(q'.rqs, q'.hash[c], c, h) {
          assert ChainOk(q.rqs, q.hash[c], c, h);
        }
      }
    }
  }

  // Looking along its own chain finds every mergeable request that ends at a sector.
  lemma ChainComplete(q: Queue, h: HashFn, offset: nat)
    requires Agrees(q, h, {})
    ensures |q.hash| == HASH_ENTRIES && NoDup(q.hash[h(offset)])
    ensures forall id :: id in q.hash[h(offset)] ==> id in q.rqs
    ensures forall id :: Mergeable(q.rqs, id, offset) ==> id in q.hash[h(offset)]
  {
    assert ViewOk(q, h, {}, Chains);
    assert ChainOk(q.rqs, q.hash[h(offset)], h(offset), h);
  }

  lemma HotAgrees(q: Queue, h: HashFn, b: nat, id: Id)
    requires Agrees(q, h, {}) && b < |q.hash| && id in q.hash[b]
    ensures Agrees(q.(hash := q.hash[b := [id] + Minus(q.hash[b], id)]), h, {})
  {
    assert ViewOk(q, h, {}, Chains);
    assert ChainOk(q.rqs, q.hash[b], b, h);
    MinusMembers(q.hash[b], id);
    MinusNoDup(q.hash[b], id);
    PurgedAgrees(q, h, b, [id] + Minus(q.hash[b], id));
  }

  // A request that may no longer merge stays where it is; only its chain may drop it.
  lemma ForbidAgrees(q: Queue, h: HashFn, id: Id)
    requires Agrees(q, h, {}) && id in q.rqs
    ensures Agrees(q.(rqs := q.rqs[id := q.rqs[id].(mergeable := false)]), h, {})
  {
    var rq := q.rqs[id].(mergeable := false);
    Views(q, h, {});
    TreeRegrown(q.rqs, q.tree, id, rq);
    FifoKept(q.rqs, q.fifo.read, Read, id, rq);
    FifoKept(q.rqs, q.fifo.write, Write, id, rq);
    NextKept(q.rqs, q.next, {}, id, rq);
    HashForbid(q.rqs, q.hash, h, id, rq);
    Views(q.(rqs := q.rqs[id := rq]), h, {});
  }

  lemma HashForbid(rqs: map<Id, Rq>, hash: seq<seq<Id>>, h: HashFn, id: Id, rq: Rq)
    requires HashOk(rqs, hash, h) && id in rqs && rq.End() == rqs[id].End() && !rq.mergeable
    ensures HashOk(rqs[id := rq], hash, h)
  {
    forall b | 0 <= b < HASH_ENTRIES ensures ChainOk(rqs[id := rq], hash[b], b, h) {
      assert ChainOk(rqs, hash[b], b, h);
    }
  }

  // ----- all that every operation keeps

  datatype Promise = Agreement | Order | Deadlines

  ghost predicate Kept(q: Queue, h: HashFn, expire: Both<nat>, now: nat, p: Promise) {
    match p
    case Agreement => Agrees(q, h, {})
    case Order => InOrder(q)
    case Deadlines => Timely(q, expire, now)
  }

  ghost predicate Good(q: Queue, h: HashFn, expire: Both<nat>, now: nat) {
    forall p :: Kept(q, h, expire, now, p)
  }

  lemma Promises(q: Queue, h: HashFn, expire: Both<nat>, now: nat)
    ensures Good(q, h, expire, now) <==> Agrees(q, h, {}) && InOrder(q) && Timely(q, expire, now)
  {
    if Good(q, h, expire, now) {
      assert Kept(q, h, expire, now, Agreement) && Kept(q, h, expire, now, Order) && Kept(q, h, expire, now, Deadlines);
    }
  }

  lemma AddedGood(q: Queue, h: HashFn, id: Id, rq: Rq, expire: Both<nat>, was: nat, now: nat)
    requires Good(q, h, expire, was) && was <= now && id !in q.rqs && rq.expires == now + expire.At(rq.dir)
    ensures Agrees(q, h, {}) && Good(Added(q, h, id, rq), h, expire, now)
  {
    Promises(q, h, expire, was);
    AddedAgrees(q, h, id, rq);
    AddedInOrder(q, h, id, rq, expire, now);
    Promises(Added(q, h, id, rq), h, expire, now);
  }

  lemma MergedGood(q: Queue, h: HashFn, id: Id, sector: nat, sectors: nat, expire: Both<nat>, now: nat)
    requires Good(q, h, expire, now) && id in q.rqs
    ensures Agrees(q, h, {}) && Good(Merged(q, h, id, sector, sectors), h, expire, now)
  {
    Promises(q, h, expire, now);
    MergedAgrees(q, h, id, sector, sectors);
    MergedInOrder(q, h, id, sector, sectors, expire, now);
    Promises(Merged(q, h, id, sector, sectors), h, expire, now);
  }

  lemma AbsorbedGood(q: Queue, h: HashFn, id: Id, other: Id, sector: nat, sectors: nat, expire: Both<nat>, now: nat)
    requires Good(q, h, expire, now) && MayAbsorb(q, id, other, sector)
    ensures Agrees(q, h, {}) && Good(Absorbed(q, h, id, other, sector, sectors), h, expire, now)
  {
    Promises(q, h, expire, now);
    AbsorbedAgrees(q, h, id, other, sector, sectors);
    AbsorbedInOrder(q, h, id, other, sector, sectors, expire, now);
    Promises(Absorbed(q, h, id, other, sector, sectors), h, expire, now);
  }

  lemma DispatchedGood(q: Queue, h: HashFn, t: Tunables, was: nat, now: nat)
    requires Good(q, h, t.expire, was) && was <= now
    ensures Agrees(q, h, {}) && Good(Dispatched(q, t, h, now), h, t.expire, now)
  {
    Promises(q, h, t.expire, was);
    DispatchedKeeps(q, t, h, now);
    Promises(Dispatched(q, t, h, now), h, t.expire, now);
  }

  // Only the chains change.
  lemma RechainedGood(q: Queue, hash: seq<seq<Id>>, h: HashFn, expire: Both<nat>, now: nat)
    requires Good(q, h, expire, now) && Agrees(q.(hash := hash), h, {})
    ensures Good(q.(hash := hash), h, expire, now)
  {
    Promises(q, h, expire, now);
    Promises(q.(hash := hash), h, expire, now);
  }

  lemma ForbidGood(q: Queue, h: HashFn, id: Id, expire: Both<nat>, now: nat)
    requires Good(q, h, expire, now) && id in q.rqs
    ensures Good(q.(rqs := q.rqs[id := q.rqs[id].(mergeable := false)]), h, expire, now)
  {
    Promises(q, h, expire, now);
    ForbidAgrees(q, h, id);
    var rq := q.rqs[id].(mergeable := false);
    SortedElsewhere(q.rqs, q.fifo.read, id, rq);
    SortedElsewhere(q.rqs, q.fifo.write, id, rq);
    Promises(q.(rqs := q.rqs[id := rq]), h, expire, now);
  }

  datatype MergeResult = NoMerge | BackMerge(id: Id) | FrontMerge(id: Id)

  class Scheduler {
    const h: HashFn
    const tun: Tunables
    var rqs: map<Id, Rq>
    var tree: map<Key, Id>
    var fifo: Both<seq<Id>>
    var next: Both<Option<Id>>
    var hash: seq<seq<Id>>
    var dispatched: seq<Id>
    var lastSector: nat
    var batching: nat
    var starved: nat
    ghost var clock: nat

    ghost function State(): Queue
      reads this
    {
      Queue(rqs, tree, fifo, next, hash, dispatched, lastSector, batching, starved)
    }

    ghost predicate Valid()
      reads this
    {
      Good(State(), h, tun.expire, clock)
    }

    constructor (h: HashFn, tun: Tunables)
      ensures Valid() && rqs == map[] && clock == 0 && this.h == h && this.tun == tun
      ensures batching == 0 && starved == 0
    {
      this.h, this.tun, clock := h, tun, 0;
      rqs, tree, fifo, next, dispatched := map[], map[], Both([], []), Both(None, None), [];
      lastSector, batching, starved := 0, 0, 0;
      hash := seq(HASH_ENTRIES, i => []);
      new;
      Views(State(), h, {});
      Promises(State(), h, tun.expire, 0);
    }

    // deadline_find_drq_hash: a request is found exactly when a queued, mergeable
    // request ends at the offset; the walk drops requests that can no longer merge.
    method FindHash(offset: nat) returns (r: Option<Id>)
      requires Valid()
      modifies this`hash
      ensures Valid()
      ensures r.Some? ==> Mergeable(rqs, r.value, offset)
      ensures r.None? <==> !exists id :: Mergeable(rqs, id, offset)
      ensures |hash| == |old(hash)| == HASH_ENTRIES
      ensures forall b :: 0 <= b < HASH_ENTRIES ==> Purged(rqs, old(hash[b]), hash[b])
    {
      assert Kept(State(), h, tun.expire, clock, Agreement);
      ChainComplete(State(), h, offset);
      var b := h(offset);
      var found, kept := ScanChain(rqs, hash[b], offset);
      PurgedAgrees(State(), h, b, kept);
      assert forall c :: 0 <= c < HASH_ENTRIES ==> Purged(rqs, hash[c], hash[c]) by {
        assert ViewOk(State(), h, {}, Chains);
        forall c | 0 <= c < HASH_ENTRIES ensures Purged(rqs, hash[c], hash[c]) {
          assert ChainOk(rqs, hash[c], c, h);
        }
      }
      RechainedGood(State(), hash[b := kept], h, tun.expire, clock);
      hash := hash[b := kept];
      r := found;
    }

    // deadline_hot_drq_hash.
    method HotHash(id: Id)
      requires Valid() && id in rqs
      modifies this`hash
      ensures Valid()
      ensures |hash| == |old(hash)| && forall c, x :: 0 <= c < |hash| ==> (x in hash[c] <==> x in old(hash[c]))
    {
      assert Kept(State(), h, tun.expire, clock, Agreement);
      ChainComplete(State(), h, rqs[id].End());
      var b := h(rqs[id].End());
      if id in hash[b] && hash[b][0] != id {
        HotAgrees(State(), h, b, id);
        MinusMembers(hash[b], id);
        RechainedGood(State(), hash[b := [id] + Minus(hash[b], id)], h, tun.expire, clock);
        hash := hash[b := [id] + Minus(hash[b], id)];
      }
    }

    // deadline_merge: which queued request a bio could join, and at which end.
    method Merge(sector: nat, sectors: nat, dir: Dir, mergeOk: Id -> bool) returns (r: MergeResult)
      requires Valid()
      modifies this`hash
      ensures Valid()
      ensures r.BackMerge? ==> Mergeable(rqs, r.id, sector) && mergeOk(r.id)
      ensures r.FrontMerge? ==>
                tun.frontMerges && r.id in rqs && rqs[r.id].Node() == Key(dir, sector + sectors) && mergeOk(r.id)
      ensures r.NoMerge? ==>
                && ((forall id :: !Mergeable(rqs, id, sector)) || exists id :: Mergeable(rqs, id, sector) && !mergeOk(id))
                && (tun.frontMerges ==> forall id :: id in rqs && rqs[id].Node() == Key(dir, sector + sectors) ==> !mergeOk(id))
    {
      var found := FindHash(sector);
      if found.Some? && mergeOk(found.value) {
        HotHash(found.value);
        return BackMerge(found.value);
      }
      assert Kept(State(), h, tun.expire, clock, Agreement) && ViewOk(State(), h, {}, Trees);
      if tun.frontMerges {
        var key := Key(dir, sector + sectors);
        if key in tree && mergeOk(tree[key]) {
          var id := tree[key];
          HotHash(id);
          return FrontMerge(id);
        }
      }
      r := NoMerge;
    }

    // deadline_remove_request.
    method RemoveRequest(id: Id)
      requires id in rqs
      modifies this
      ensures State() == Removed(old(State()), id) && clock == old(clock)
    {
      var rq := rqs[id];
      fifo := fifo.With(rq.dir, Minus(fifo.At(rq.dir), id));
      if next.At(rq.dir) == Some(id) {
        next := next.With(rq.dir, NextAfter(tree, rq.dir, rq.sector));
      }
      tree := tree - {rq.Node()};
      hash := Unhash(hash, id);
      rqs := rqs - {id};
    }

    // deadline_move_request.
    method MoveRequest(id: Id)
      requires id in rqs
      modifies this
      ensures State() == Moved(old(State()), id) && clock == old(clock)
    {
      var rq := rqs[id];
      var after := NextAfter(tree, rq.dir, rq.sector);
      next := Both(None, None);
      next := next.With(rq.dir, after);
      lastSector := rq.End();
      RemoveRequest(id);
      dispatched := dispatched + [id];
    }

    // The retry loop of deadline_add_drq_rb: requests in the way are dispatched.
    method MakeRoom(key: Key, ghost hole: set<Id>)
      requires Agrees(State(), h, hole)
      modifies this
      ensures Agrees(old(State()), h, hole) && (key in old(tree) ==> old(tree)[key] in old(rqs))
      ensures State() == MadeRoom(old(State()), key) && key !in tree && clock == old(clock)
      ensures Agrees(State(), h, hole)
    {
      MadeRoomAgrees(State(), h, hole, key);
      ghost var q := State();
      while key in tree
        invariant clock == old(clock) && (State() == q || (key !in tree && State() == MadeRoom(q, key)))
        decreases key in tree
      {
        MoveRequest(tree[key]);
      }
    }

    // deadline_add_request.
    method AddRequest(id: Id, dir: Dir, sector: nat, sectors: nat, mergeable: bool, now: nat)
      requires Valid() && id !in rqs && now >= clock
      modifies this
      ensures Valid() && clock == now
      ensures Agrees(old(State()), h, {})
      ensures State() == Added(old(State()), h, id, Rq(dir, sector, sectors, mergeable, now + tun.expire.At(dir)))
      ensures Joined(old(State()), id, Rq(dir, sector, sectors, mergeable, now + tun.expire.At(dir)), State())
    {
      var rq := Rq(dir, sector, sectors, mergeable, now + tun.expire.At(dir));
      AddedGood(State(), h, id, rq, tun.expire, clock, now);
      AddedJoins(State(), h, id, rq);
      Enqueue(id, rq);
      clock := now;
    }

    method Enqueue(id: Id, rq: Rq)
      requires Agrees(State(), h, {}) && id !in rqs
      modifies this
      ensures Agrees(old(State()), h, {}) && State() == Added(old(State()), h, id, rq) && clock == old(clock)
    {
      MakeRoom(rq.Node(), {});
      assert ViewOk(State(), h, {}, Chains);
      Link(id, rq);
    }

    method Link(id: Id, rq: Rq)
      requires |hash| == HASH_ENTRIES
      modifies this
      ensures State() == Linked(old(State()), h, id, rq) && clock == old(clock)
    {
      tree := tree[rq.Node() := id];
      rqs := rqs[id := rq];
      fifo := fifo.With(rq.dir, fifo.At(rq.dir) + [id]);
      if rq.mergeable {
        hash := Hashed(hash, h(rq.End()), id);
      }
    }

    // A request has grown: off the hash and on again under its new end.
    method Regrow(id: Id, sector: nat, sectors: nat)
      requires id in rqs && |hash| == HASH_ENTRIES
      modifies this
      ensures State() == Regrown(old(State()), h, id, sector, sectors) && clock == old(clock)
    {
      var rq := rqs[id].(sector := sector, sectors := sectors);
      rqs := rqs[id := rq];
      hash := Unhash(hash, id);
      hash := Hashed(hash, h(rq.End()), id);
    }

    // deadline_del_drq_rb.
    method DeleteRb(id: Id, key: Key)
      modifies this
      ensures State() == DelRb(old(State()), id, key) && clock == old(clock)
    {
      if next.At(key.dir) == Some(id) {
        next := next.With(key.dir, NextAfter(tree, key.dir, key.sector));
      }
      tree := tree - {key};
    }

    // deadline_add_drq_rb of a request that is queued but out of the tree.
    method AddRb(id: Id)
      requires Agrees(State(), h, {id}) && id in rqs
      modifies this
      ensures Agrees(old(State()), h, {id}) && State() == Placed(old(State()), h, id) && clock == old(clock)
    {
      var key := rqs[id].Node();
      MakeRoom(key, {id});
      tree := tree[key := id];
    }

    // deadline_merged_request, after a bio has joined a queued request.
    method MergedRequest(id: Id, sector: nat, sectors: nat)
      requires Valid() && id in rqs
      modifies this
      ensures Valid() && clock == old(clock)
      ensures Agrees(old(State()), h, {})
      ensures State() == Merged(old(State()), h, id, sector, sectors)
    {
      MergedGood(State(), h, id, sector, sectors, tun.expire, clock);
      Reposition(id, sector, sectors);
    }

    // Rehashing the grown request and, if its start changed, moving it in the tree.
    method Reposition(id: Id, sector: nat, sectors: nat)
      requires Agrees(State(), h, {}) && id in rqs
      modifies this
      ensures Agrees(old(State()), h, {}) && State() == Merged(old(State()), h, id, sector, sectors) && clock == old(clock)
    {
      RegrownAgrees(State(), h, id, sector, sectors);
      var was := rqs[id];
      Regrow(id, sector, sectors);
      if was.sector != sector {
        DeleteRb(id, was.Node());
        AddRb(id);
      }
    }

    // The merged request takes over an earlier deadline and its place.
    method Inherit(id: Id, other: Id)
      requires id in rqs && other in rqs
      modifies this
      ensures State() == Inherited(old(State()), id, other) && clock == old(clock)
    {
      if rqs[other].expires < rqs[id].expires {
        var dir := rqs[id].dir;
        fifo := fifo.With(dir, MovedAfter(fifo.At(dir), id, other));
        rqs := rqs[id := rqs[id].(expires := rqs[other].expires)];
      }
    }

    // deadline_merged_requests: `other` is absorbed.
    method MergedRequests(id: Id, other: Id, sector: nat, sectors: nat)
      requires Valid() && MayAbsorb(State(), id, other, sector)
      modifies this
      ensures Valid() && clock == old(clock) && Agrees(old(State()), h, {})
      ensures State() == Absorbed(old(State()), h, id, other, sector, sectors)
    {
      AbsorbedGood(State(), h, id, other, sector, sectors, tun.expire, clock);
      MergedKeepsOther(State(), h, id, other, sector, sectors);
      Reposition(id, sector, sectors);
      Inherit(id, other);
      RemoveRequest(other);
    }

    // A queued request reaches a limit and may not merge any more.
    method ForbidMerge(id: Id)
      requires Valid() && id in rqs
      modifies this`rqs
      ensures Valid() && rqs == old(rqs)[id := old(rqs)[id].(mergeable := false)]
    {
      ForbidGood(State(), h, id, tun.expire, clock);
      rqs := rqs[id := rqs[id].(mergeable := false)];
    }

    // deadline_check_fifo.
    method CheckFifo(d: Dir, now: nat) returns (expired: bool)
      requires Valid() && fifo.At(d) != []
      ensures expired <==> exists id :: id in rqs && rqs[id].dir == d && Expired(State(), id, now)
    {
      assert Kept(State(), h, tun.expire, clock, Agreement) && Kept(State(), h, tun.expire, clock, Order);
      HeadDecides(State(), h, d, now);
      expired := now > rqs[fifo.At(d)[0]].expires;
    }

    // deadline_dispatch_requests.
    method DispatchRequests(now: nat) returns (any: bool)
      requires Valid() && now >= clock
      modifies this
      ensures Valid() && clock == now
      ensures Agrees(old(State()), h, {}) && State() == Dispatched(old(State()), tun, h, now)
      ensures any <==> old(rqs) != map[]
      ensures any ==> exists id :: Sends(old(State()), tun, now, id, State())
    {
      assert Kept(State(), h, tun.expire, clock, Agreement) && Kept(State(), h, tun.expire, clock, Order);
      DispatchesDue(State(), tun, h, now);
      DispatchedGood(State(), h, tun, clock, now);
      ChosenQueued(State(), tun, h, now);
      var c := Choose(now);
      any := c.Some?;
      if any {
        Dispatch(c.value);
      }
      clock := now;
    }

    method Dispatch(c: Choice)
      requires c.id in rqs
      modifies this
      ensures State() == Moved(old(State()).(batching := c.batching, starved := c.starved), c.id) && clock == old(clock)
    {
      batching, starved := c.batching, c.starved;
      MoveRequest(c.id);
    }

    // Which request goes next: the running batch, or the best of the direction whose
    // turn it is.
    method Choose(now: nat) returns (c: Option<Choice>)
      requires Agrees(State(), h, {})
      ensures c == Chosen(State(), tun, h, now) && (c.None? <==> rqs == map[])
      ensures c.Some? && InOrder(State()) ==> Due(State(), tun, now, c.value.id)
    {
      ChosenMeans(State(), tun, h, now);
      var batch, inBatch, drq := CountBatch();
      if inBatch {
        c := Some(Choice(drq.value, batch + 1, starved));
      } else if fifo.read == [] && fifo.write == [] {
        c := None;
      } else {
        var found := Search(batch, now);
        c := Some(found);
      }
    }

    method Search(batch: nat, now: nat) returns (c: Choice)
      requires Agrees(State(), h, {}) && (fifo.read != [] || fifo.write != []) && batch == Batching(State(), tun, h)
      ensures c == Find(State(), tun, h, Turn(State(), tun), now, Hunger(State(), tun))
    {
      var dir, hungry := TakeTurn();
      c := FindRequest(dir, batch, now, hungry);
    }

    // The batch count, ended by a next request that does not follow on, and whether the
    // batch may go on.
    method CountBatch() returns (batch: nat, inBatch: bool, drq: Option<Id>)
      requires Agrees(State(), h, {})
      ensures batch == Batching(State(), tun, h) && inBatch == InBatch(State(), tun, h) && drq == Candidate(State())
    {
      CandidateQueued(State(), h);
      drq := if next.write.Some? then next.write else next.read;
      batch, inBatch := batching, false;
      if drq.Some? {
        if lastSector != rqs[drq.value].sector {
          batch := batch + tun.fifoBatch;
        }
        inBatch := batch < tun.fifoBatch;
      }
    }

    // Whose turn it is, and how often writes have then been passed over.
    method TakeTurn() returns (dir: Dir, hungry: nat)
      requires fifo.read != [] || fifo.write != []
      ensures dir == Turn(State(), tun) && hungry == Hunger(State(), tun) && fifo.At(dir) != []
    {
      dir, hungry := Read, starved;
      if fifo.read != [] {
        if fifo.write != [] {
          var turn := hungry >= tun.writesStarved;
          hungry := hungry + 1;
          if turn {
            hungry, dir := 0, Write;
          }
        }
      } else {
        hungry, dir := 0, Write;
      }
    }

    // The best request of a direction when no batch is running.
    method FindRequest(d: Dir, batch: nat, now: nat, hungry: nat) returns (c: Choice)
      requires Agrees(State(), h, {}) && fifo.At(d) != [] && batch == Batching(State(), tun, h)
      ensures c == Find(State(), tun, h, d, now, hungry)
    {
      FifoInTree(State(), h, d);
      var batch', id := 0, 0;
      if now > rqs[fifo.At(d)[0]].expires {
        id := fifo.At(d)[0];
      } else if next.At(d).Some? {
        id, batch' := next.At(d).value, batch;
      } else {
        id := First(tree, d);
      }
      c := Choice(id, batch' + 1, hungry);
    }
  }
}
