/**
  The deadline scheduler's four views of one set of requests: the sort trees, the
  FIFOs in order of expiry, the hash of end sectors, and the cached next request.
  Every operation keeps them in agreement.
 */
module Deadline {
  import opened Lists
  import opened Sets

  type Id = nat

  datatype Dir = Read | Write

  datatype Both<T> = Both(read: T, write: T) {
    function At(d: Dir): T { if d == Read then read else write }
    function With(d: Dir, v: T): Both<T> { if d == Read then Both(v, write) else Both(read, v) }
  }

  const HASH_ENTRIES: nat := 32

  type HashFn = f: nat -> nat | forall k :: f(k) < HASH_ENTRIES witness k => 0

  datatype Rq = Rq(dir: Dir, sector: nat, sectors: nat, mergeable: bool, expires: nat) {
    function End(): nat { sector + sectors }
    function Node(): Key { Key(dir, sector) }
  }

  // Where a request hangs: the tree of its direction, by starting sector.
  datatype Key = Key(dir: Dir, sector: nat)

  datatype Queue = Queue(
    rqs: map<Id, Rq>,
    tree: map<Key, Id>,
    fifo: Both<seq<Id>>,
    next: Both<Option<Id>>,
    hash: seq<seq<Id>>,
    dispatched: seq<Id>,
    lastSector: nat,
    batching: nat,
    starved: nat)

  datatype Tunables = Tunables(expire: Both<nat>, fifoBatch: nat, writesStarved: nat, frontMerges: bool)

  // ----- agreement

  // The trees hold every request but those in `hole`, under direction and sector.
  ghost predicate TreeOk(rqs: map<Id, Rq>, tree: map<Key, Id>, hole: set<Id>) {
    && (forall k :: k in tree ==> tree[k] in rqs && rqs[tree[k]].Node() == k && tree[k] !in hole)
    && (forall id :: id in rqs && id !in hole ==> rqs[id].Node() in tree && tree[rqs[id].Node()] == id)
  }

  ghost predicate FifoOk(rqs: map<Id, Rq>, fifo: seq<Id>, d: Dir) {
    && NoDup(fifo)
    && (forall id :: id in fifo <==> id in rqs && rqs[id].dir == d)
  }

  ghost predicate PointsAt(rqs: map<Id, Rq>, next: Option<Id>, d: Dir, hole: set<Id>) {
    next.Some? ==> next.value in rqs && rqs[next.value].dir == d && next.value !in hole
  }

  ghost predicate NextOk(rqs: map<Id, Rq>, next: Both<Option<Id>>, hole: set<Id>) {
    && (next.read.None? || next.write.None?)
    && PointsAt(rqs, next.read, Read, hole) && PointsAt(rqs, next.write, Write, hole)
  }

  // A chain holds queued requests that hash there; a mergeable request is on its chain.
  ghost predicate HashOk(rqs: map<Id, Rq>, hash: seq<seq<Id>>, h: HashFn) {
    && |hash| == HASH_ENTRIES
    && (forall b :: 0 <= b < HASH_ENTRIES ==> ChainOk(rqs, hash[b], b, h))
  }

  ghost predicate ChainOk(rqs: map<Id, Rq>, chain: seq<Id>, b: nat, h: HashFn) {
    && NoDup(chain)
    && (forall id :: id in chain ==> id in rqs && h(rqs[id].End()) == b)
    && (forall id :: id in rqs && rqs[id].mergeable && h(rqs[id].End()) == b ==> id in chain)
  }

  datatype View = Trees | Fifos | Cursor | Chains

  ghost predicate ViewOk(q: Queue, h: HashFn, hole: set<Id>, v: View) {
    match v
    case Trees => TreeOk(q.rqs, q.tree, hole)
    case Fifos => FifoOk(q.rqs, q.fifo.read, Read) && FifoOk(q.rqs, q.fifo.write, Write)
    case Cursor => NextOk(q.rqs, q.next, hole)
    case Chains => HashOk(q.rqs, q.hash, h)
  }

  // All views are of the same requests.
  ghost predicate Agrees(q: Queue, h: HashFn, hole: set<Id>) {
    forall v :: ViewOk(q, h, hole, v)
  }

  lemma Views(q: Queue, h: HashFn, hole: set<Id>)
    ensures Agrees(q, h, hole) <==>
              && TreeOk(q.rqs, q.tree, hole)
              && FifoOk(q.rqs, q.fifo.read, Read) && FifoOk(q.rqs, q.fifo.write, Write)
              && NextOk(q.rqs, q.next, hole)
              && HashOk(q.rqs, q.hash, h)
  {
    if Agrees(q, h, hole) {
      assert ViewOk(q, h, hole, Trees) && ViewOk(q, h, hole, Fifos) && ViewOk(q, h, hole, Cursor) && ViewOk(q, h, hole, Chains);
    }
  }

  // ----- tree neighbours

  function Above(tree: map<Key, Id>, d: Dir, sector: nat): set<nat> {
    set k | k in tree && k.dir == d && k.sector > sector :: k.sector
  }

  // rb_next of the node at a sector.
  function NextAfter(tree: map<Key, Id>, d: Dir, sector: nat): Option<Id> {
    var above := Above(tree, d, sector);
    if above == {} then None else
      var key := Key(d, Least(above));
      Some(tree[key])
  }

  // It is the lowest request above, and is missing only when there is none.
  lemma NextAfterIsLowest(tree: map<Key, Id>, d: Dir, sector: nat)
    ensures NextAfter(tree, d, sector).None? <==> forall k :: k in tree && k.dir == d ==> k.sector <= sector
    ensures NextAfter(tree, d, sector).Some? ==>
              exists k :: k in tree && k.dir == d && k.sector > sector && tree[k] == NextAfter(tree, d, sector).value
                && forall j :: j in tree && j.dir == d && j.sector > sector ==> k.sector <= j.sector
  {
    var above := Above(tree, d, sector);
    assert forall k :: k in tree && k.dir == d && k.sector > sector ==> k.sector in above;
    if above != {} {
      var key := Key(d, Least(above));
      assert key in tree && key.dir == d && key.sector > sector;
    }
  }

  function Sectors(tree: map<Key, Id>, d: Dir): set<nat> {
    set k | k in tree && k.dir == d :: k.sector
  }

  // deadline_find_first_drq.
  function First(tree: map<Key, Id>, d: Dir): Id
    requires Sectors(tree, d) != {}
  {
    tree[Key(d, Least(Sectors(tree, d)))]
  }

  lemma FirstIsLowest(tree: map<Key, Id>, d: Dir)
    requires Sectors(tree, d) != {}
    ensures exists k :: k in tree && k.dir == d && tree[k] == First(tree, d)
              && forall j :: j in tree && j.dir == d ==> k.sector <= j.sector
  {
    var key := Key(d, Least(Sectors(tree, d)));
    assert key in tree && key.dir == d;
    assert forall j :: j in tree && j.dir == d ==> j.sector in Sectors(tree, d);
  }

  // ----- removal

  function UnlinkNext(next: Both<Option<Id>>, tree: map<Key, Id>, id: Id, key: Key): Both<Option<Id>> {
    if next.At(key.dir) == Some(id) then next.With(key.dir, NextAfter(tree, key.dir, key.sector)) else next
  }

  // deadline_del_drq_rb.
  function DelRb(q: Queue, id: Id, key: Key): Queue {
    q.(next := UnlinkNext(q.next, q.tree, id, key), tree := q.tree - {key})
  }

  function Unhash(hash: seq<seq<Id>>, id: Id): seq<seq<Id>> {
    seq(|hash|, b requires 0 <= b < |hash| => Minus(hash[b], id))
  }

  // deadline_remove_request.
  function Removed(q: Queue, id: Id): Queue
    requires id in q.rqs
  {
    var d := q.rqs[id].dir;
    var q1 := q.(fifo := q.fifo.With(d, Minus(q.fifo.At(d), id)));
    var q2 := DelRb(q1, id, q.rqs[id].Node());
    q2.(hash := Unhash(q.hash, id), rqs := q.rqs - {id})
  }

  // deadline_move_request.
  function Moved(q: Queue, id: Id): Queue
    requires id in q.rqs
  {
    var key := q.rqs[id].Node();
    var next: Both<Option<Id>> := Both(None, None).With(key.dir, NextAfter(q.tree, key.dir, key.sector));
    var q1 := q.(next := next, lastSector := q.rqs[id].End());
    Removed(q1, id).(dispatched := q.dispatched + [id])
  }

  lemma TreeRemoved(rqs: map<Id, Rq>, tree: map<Key, Id>, hole: set<Id>, id: Id)
    requires TreeOk(rqs, tree, hole) && id in rqs && id !in hole
    ensures TreeOk(rqs - {id}, tree - {rqs[id].Node()}, hole)
  {
  }

  lemma FifoRemoved(rqs: map<Id, Rq>, fifo: Both<seq<Id>>, id: Id)
    requires FifoOk(rqs, fifo.read, Read) && FifoOk(rqs, fifo.write, Write) && id in rqs
    ensures var d := rqs[id].dir;
            var fifo' := fifo.With(d, Minus(fifo.At(d), id));
            FifoOk(rqs - {id}, fifo'.read, Read) && FifoOk(rqs - {id}, fifo'.write, Write)
  {
    var d := rqs[id].dir;
    MinusMembers(fifo.At(d), id);
    MinusNoDup(fifo.At(d), id);
  }

  lemma HashRemoved(rqs: map<Id, Rq>, hash: seq<seq<Id>>, h: HashFn, id: Id)
    requires HashOk(rqs, hash, h)
    ensures HashOk(rqs - {id}, Unhash(hash, id), h)
  {
    forall b | 0 <= b < HASH_ENTRIES ensures ChainOk(rqs - {id}, Unhash(hash, id)[b], b, h) {
      assert ChainOk(rqs, hash[b], b, h);
      MinusMembers(hash[b], id);
      MinusNoDup(hash[b], id);
    }
  }

  // The node after a removed one is a queued request other than it.
  lemma NextAfterOk(rqs: map<Id, Rq>, tree: map<Key, Id>, hole: set<Id>, id: Id)
    requires TreeOk(rqs, tree, hole) && id in rqs
    ensures PointsAt(rqs - {id}, NextAfter(tree, rqs[id].dir, rqs[id].sector), rqs[id].dir, hole)
  {
    NextAfterIsLowest(tree, rqs[id].dir, rqs[id].sector);
  }

  lemma RemovedAgrees(q: Queue, h: HashFn, hole: set<Id>, id: Id)
    requires Agrees(q, h, hole) && id in q.rqs && id !in hole
    ensures Agrees(Removed(q, id), h, hole)
  {
    Views(q, h, hole);
    TreeRemoved(q.rqs, q.tree, hole, id);
    FifoRemoved(q.rqs, q.fifo, id);
    HashRemoved(q.rqs, q.hash, h, id);
    NextRemoved(q.rqs, q.tree, q.next, hole, id);
    Views(Removed(q, id), h, hole);
  }

  lemma NextRemoved(rqs: map<Id, Rq>, tree: map<Key, Id>, next: Both<Option<Id>>, hole: set<Id>, id: Id)
    requires TreeOk(rqs, tree, hole) && NextOk(rqs, next, hole) && id in rqs
    ensures NextOk(rqs - {id}, UnlinkNext(next, tree, id, rqs[id].Node()), hole)
  {
    NextAfterOk(rqs, tree, hole, id);
  }

  lemma CursorMoved(q: Queue, h: HashFn, hole: set<Id>, next: Both<Option<Id>>, lastSector: nat)
    requires Agrees(q, h, hole) && NextOk(q.rqs, next, hole)
    ensures Agrees(q.(next := next, lastSector := lastSector), h, hole)
  {
    forall v ensures ViewOk(q.(next := next, lastSector := lastSector), h, hole, v) {
      assert ViewOk(q, h, hole, v);
    }
  }

  lemma SameViews(q: Queue, q': Queue, h: HashFn, hole: set<Id>)
    requires Agrees(q, h, hole)
    requires q'.rqs == q.rqs && q'.tree == q.tree && q'.fifo == q.fifo && q'.next == q.next && q'.hash == q.hash
    ensures Agrees(q', h, hole)
  {
    forall v ensures ViewOk(q', h, hole, v) {
      assert ViewOk(q, h, hole, v);
    }
  }

  lemma MovedAgrees(q: Queue, h: HashFn, hole: set<Id>, id: Id)
    requires Agrees(q, h, hole) && id in q.rqs && id !in hole
    ensures Agrees(Moved(q, id), h, hole)
  {
    var key := q.rqs[id].Node();
    var next: Both<Option<Id>> := Both(None, None).With(key.dir, NextAfter(q.tree, key.dir, key.sector));
    assert NextOk(q.rqs, next, hole) by {
      assert ViewOk(q, h, hole, Trees);
      NextAfterOk(q.rqs, q.tree, hole, id);
    }
    var q1 := q.(next := next, lastSector := q.rqs[id].End());
    CursorMoved(q, h, hole, next, q.rqs[id].End());
    RemovedAgrees(q1, h, hole, id);
    SameViews(Removed(q1, id), Moved(q, id), h, hole);
  }

  // ----- insertion

  // deadline_add_drq_rb makes room: a request already at the sector is dispatched.
  function MadeRoom(q: Queue, key: Key): Queue
    requires key in q.tree ==> q.tree[key] in q.rqs
  {
    if key in q.tree then Moved(q, q.tree[key]) else q
  }

  lemma MadeRoomAgrees(q: Queue, h: HashFn, hole: set<Id>, key: Key)
    requires Agrees(q, h, hole)
    ensures key in q.tree ==> q.tree[key] in q.rqs
    ensures Agrees(MadeRoom(q, key), h, hole) && key !in MadeRoom(q, key).tree
    ensures forall id :: id in hole && id in q.rqs ==> id in MadeRoom(q, key).rqs
    ensures forall id :: id in MadeRoom(q, key).rqs ==> id in q.rqs && MadeRoom(q, key).rqs[id] == q.rqs[id]
  {
    assert ViewOk(q, h, hole, Trees);
    if key in q.tree { MovedAgrees(q, h, hole, q.tree[key]); }
  }

  function Hashed(hash: seq<seq<Id>>, b: nat, id: Id): seq<seq<Id>>
    requires b < |hash|
  {
    hash[b := [id] + hash[b]]
  }

  // Into the tree, the tail of the FIFO, and the chain of its end sector.
  function Linked(q: Queue, h: HashFn, id: Id, rq: Rq): Queue
    requires |q.hash| == HASH_ENTRIES
  {
    q.(rqs := q.rqs[id := rq], tree := q.tree[rq.Node() := id],
       fifo := q.fifo.With(rq.dir, q.fifo.At(rq.dir) + [id]),
       hash := if rq.mergeable then Hashed(q.hash, h(rq.End()), id) else q.hash)
  }

  // deadline_add_request.
  function Added(q: Queue, h: HashFn, id: Id, rq: Rq): Queue
    requires Agrees(q, h, {}) && id !in q.rqs
  {
    MadeRoomAgrees(q, h, {}, rq.Node());
    var q1 := MadeRoom(q, rq.Node());
    assert ViewOk(q1, h, {}, Chains);
    Linked(q1, h, id, rq)
  }

  lemma HashAdded(rqs: map<Id, Rq>, hash: seq<seq<Id>>, h: HashFn, id: Id, rq: Rq, onHash: bool)
    requires HashOk(rqs, hash, h) && id !in rqs && (rq.mergeable ==> onHash)
    ensures HashOk(rqs[id := rq], if onHash then Hashed(hash, h(rq.End()), id) else hash, h)
  {
    var hash' := if onHash then Hashed(hash, h(rq.End()), id) else hash;
    forall b | 0 <= b < HASH_ENTRIES ensures ChainOk(rqs[id := rq], hash'[b], b, h) {
      assert ChainOk(rqs, hash[b], b, h);
    }
  }

  lemma FifoAdded(rqs: map<Id, Rq>, fifo: Both<seq<Id>>, id: Id, rq: Rq)
    requires FifoOk(rqs, fifo.read, Read) && FifoOk(rqs, fifo.write, Write) && id !in rqs
    ensures var fifo' := fifo.With(rq.dir, fifo.At(rq.dir) + [id]);
            FifoOk(rqs[id := rq], fifo'.read, Read) && FifoOk(rqs[id := rq], fifo'.write, Write)
  {
  }

  lemma TreeAdded(rqs: map<Id, Rq>, tree: map<Key, Id>, hole: set<Id>, id: Id, rq: Rq)
    requires TreeOk(rqs, tree, hole) && rq.Node() !in tree && (id !in rqs || id in hole)
    ensures TreeOk(rqs[id := rq], tree[rq.Node() := id], hole - {id})
  {
  }

  lemma NextKept(rqs: map<Id, Rq>, next: Both<Option<Id>>, hole: set<Id>, id: Id, rq: Rq)
    requires NextOk(rqs, next, hole) && (id in rqs ==> rq.dir == rqs[id].dir)
    ensures NextOk(rqs[id := rq], next, hole)
  {
  }

  // A request may change in anything but its direction without leaving its FIFO.
  lemma FifoKept(rqs: map<Id, Rq>, fifo: seq<Id>, d: Dir, id: Id, rq: Rq)
    requires FifoOk(rqs, fifo, d) && id in rqs && rq.dir == rqs[id].dir
    ensures FifoOk(rqs[id := rq], fifo, d)
  {
  }

  lemma LinkedAgrees(q: Queue, h: HashFn, id: Id, rq: Rq)
    requires Agrees(q, h, {}) && id !in q.rqs && rq.Node() !in q.tree
    ensures |q.hash| == HASH_ENTRIES && Agrees(Linked(q, h, id, rq), h, {})
  {
    Views(q, h, {});
    HashAdded(q.rqs, q.hash, h, id, rq, rq.mergeable);
    FifoAdded(q.rqs, q.fifo, id, rq);
    TreeAdded(q.rqs, q.tree, {}, id, rq);
    NextKept(q.rqs, q.next, {}, id, rq);
    Views(Linked(q, h, id, rq), h, {});
  }

  lemma AddedAgrees(q: Queue, h: HashFn, id: Id, rq: Rq)
    requires Agrees(q, h, {}) && id !in q.rqs
    ensures Agrees(Added(q, h, id, rq), h, {})
  {
    MadeRoomAgrees(q, h, {}, rq.Node());
    LinkedAgrees(MadeRoom(q, rq.Node()), h, id, rq);
  }

  // ----- merges

  // A queued request grows: off its chain and onto the one of its new end.
  function Regrown(q: Queue, h: HashFn, id: Id, sector: nat, sectors: nat): Queue
    requires id in q.rqs && |q.hash| == HASH_ENTRIES
  {
    var rq := q.rqs[id].(sector := sector, sectors := sectors);
    q.(rqs := q.rqs[id := rq], hash := Hashed(Unhash(q.hash, id), h(rq.End()), id))
  }

  // deadline_merged_request after a bio went into the request.
  function Merged(q: Queue, h: HashFn, id: Id, sector: nat, sectors: nat): Queue
    requires Agrees(q, h, {}) && id in q.rqs
  {
    Views(q, h, {});
    var q1 := Regrown(q, h, id, sector, sectors);
    if sector == q.rqs[id].sector then q1
    else
      RegrownAgrees(q, h, id, sector, sectors);
      Placed(DelRb(q1, id, q.rqs[id].Node()), h, id)
  }

  lemma HashRegrown(rqs: map<Id, Rq>, hash: seq<seq<Id>>, h: HashFn, id: Id, rq: Rq)
    requires HashOk(rqs, hash, h) && id in rqs
    ensures HashOk(rqs[id := rq], Hashed(Unhash(hash, id), h(rq.End()), id), h)
  {
    HashRemoved(rqs, hash, h, id);
    HashAdded(rqs - {id}, Unhash(hash, id), h, id, rq, true);
    assert (rqs - {id})[id := rq] == rqs[id := rq];
  }

  lemma TreeRegrown(rqs: map<Id, Rq>, tree: map<Key, Id>, id: Id, rq: Rq)
    requires TreeOk(rqs, tree, {}) && id in rqs && rq.dir == rqs[id].dir
    ensures rq.sector == rqs[id].sector ==> TreeOk(rqs[id := rq], tree, {})
    ensures TreeOk(rqs[id := rq], tree - {rqs[id].Node()}, {id})
  {
  }

  lemma NextRegrown(rqs: map<Id, Rq>, tree: map<Key, Id>, next: Both<Option<Id>>, id: Id, rq: Rq)
    requires TreeOk(rqs, tree, {}) && NextOk(rqs, next, {}) && id in rqs && rq.dir == rqs[id].dir
    ensures NextOk(rqs[id := rq], UnlinkNext(next, tree, id, rqs[id].Node()), {id})
  {
    NextAfterOk(rqs, tree, {}, id);
  }

  // Growing keeps all but the tree; taken out of the tree it is the only one missing.
  lemma RegrownAgrees(q: Queue, h: HashFn, id: Id, sector: nat, sectors: nat)
    requires Agrees(q, h, {}) && id in q.rqs
    ensures |q.hash| == HASH_ENTRIES
    ensures var q1 := Regrown(q, h, id, sector, sectors);
            if sector == q.rqs[id].sector then Agrees(q1, h, {}) else Agrees(DelRb(q1, id, q.rqs[id].Node()), h, {id})
  {
    var rq := q.rqs[id].(sector := sector, sectors := sectors);
    Views(q, h, {});
    HashRegrown(q.rqs, q.hash, h, id, rq);
    TreeRegrown(q.rqs, q.tree, id, rq);
    FifoKept(q.rqs, q.fifo.read, Read, id, rq);
    FifoKept(q.rqs, q.fifo.write, Write, id, rq);
    NextRegrown(q.rqs, q.tree, q.next, id, rq);
    NextKept(q.rqs, q.next, {}, id, rq);
    var q1 := Regrown(q, h, id, sector, sectors);
    Views(q1, h, {});
    Views(DelRb(q1, id, q.rqs[id].Node()), h, {id});
  }

  // deadline_add_drq_rb of the one request that is out of the tree.
  function Placed(q: Queue, h: HashFn, id: Id): Queue
    requires Agrees(q, h, {id}) && id in q.rqs
  {
    Views(q, h, {id});
    var key := q.rqs[id].Node();
    var q1 := MadeRoom(q, key);
    q1.(tree := q1.tree[key := id])
  }

  lemma PlacedAgrees(q: Queue, h: HashFn, id: Id)
    requires Agrees(q, h, {id}) && id in q.rqs
    ensures Agrees(Placed(q, h, id), h, {})
  {
    MadeRoomAgrees(q, h, {id}, q.rqs[id].Node());
    HoleFilled(MadeRoom(q, q.rqs[id].Node()), h, id);
  }

  lemma HoleFilled(q: Queue, h: HashFn, id: Id)
    requires Agrees(q, h, {id}) && id in q.rqs && q.rqs[id].Node() !in q.tree
    ensures Agrees(q.(tree := q.tree[q.rqs[id].Node() := id]), h, {})
  {
    var q' := q.(tree := q.tree[q.rqs[id].Node() := id]);
    forall v ensures ViewOk(q', h, {}, v) {
      assert ViewOk(q, h, {id}, v);
      if v == Trees {
        TreeAdded(q.rqs, q.tree, {id}, id, q.rqs[id]);
        assert q.rqs[id := q.rqs[id]] == q.rqs && {id} - {id} == {};
      }
    }
  }

  lemma MergedAgrees(q: Queue, h: HashFn, id: Id, sector: nat, sectors: nat)
    requires Agrees(q, h, {}) && id in q.rqs
    ensures Agrees(Merged(q, h, id, sector, sectors), h, {})
  {
    RegrownAgrees(q, h, id, sector, sectors);
    if sector != q.rqs[id].sector {
      PlacedAgrees(DelRb(Regrown(q, h, id, sector, sectors), id, q.rqs[id].Node()), h, id);
    }
  }

  // list_move to just after another element.
  function MovedAfter(s: seq<Id>, id: Id, after: Id): seq<Id> {
    PutAfter(Minus(s, id), id, after)
  }

  function PutAfter(s: seq<Id>, id: Id, after: Id): seq<Id> {
    if s == [] then [] else if s[0] == after then [after, id] + s[1..] else [s[0]] + PutAfter(s[1..], id, after)
  }

  // The merged request takes the earlier of the two places in the FIFO.
  function Inherited(q: Queue, id: Id, other: Id): Queue
    requires id in q.rqs && other in q.rqs
  {
    if q.rqs[other].expires < q.rqs[id].expires then
      var d := q.rqs[id].dir;
      q.(fifo := q.fifo.With(d, MovedAfter(q.fifo.At(d), id, other)),
         rqs := q.rqs[id := q.rqs[id].(expires := q.rqs[other].expires)])
    else q
  }

  // What a merge of two requests asks: two queued requests of one direction, and a start
  // for the merged one that is not the start of the one absorbed.
  ghost predicate MayAbsorb(q: Queue, id: Id, other: Id, sector: nat) {
    && id in q.rqs && other in q.rqs && id != other && q.rqs[id].dir == q.rqs[other].dir
    && sector != q.rqs[other].sector
  }

  // deadline_merged_requests: `other` is absorbed by id.
  function Absorbed(q: Queue, h: HashFn, id: Id, other: Id, sector: nat, sectors: nat): Queue
    requires Agrees(q, h, {}) && MayAbsorb(q, id, other, sector)
  {
    MergedKeepsOther(q, h, id, other, sector, sectors);
    Removed(Inherited(Merged(q, h, id, sector, sectors), id, other), other)
  }

  // Growing a request dispatches at most the one that starts at its new sector.
  lemma MergedKeepsOther(q: Queue, h: HashFn, id: Id, other: Id, sector: nat, sectors: nat)
    requires Agrees(q, h, {}) && MayAbsorb(q, id, other, sector)
    ensures var rqs := Merged(q, h, id, sector, sectors).rqs;
            && id in rqs && rqs[id] == q.rqs[id].(sector := sector, sectors := sectors)
            && other in rqs && rqs[other] == q.rqs[other]
  {
    RegrownAgrees(q, h, id, sector, sectors);
    var q1 := Regrown(q, h, id, sector, sectors);
    assert q1.rqs[other] == q.rqs[other];
    if sector != q.rqs[id].sector {
      var q2 := DelRb(q1, id, q.rqs[id].Node());
      RoomKeeps(q2, h, id, other, q1.rqs[id].Node());
    }
  }

  lemma RoomKeeps(q: Queue, h: HashFn, id: Id, other: Id, key: Key)
    requires Agrees(q, h, {id}) && id in q.rqs && other in q.rqs && q.rqs[other].Node() != key
    ensures key in q.tree ==> q.tree[key] in q.rqs
    ensures var rqs := MadeRoom(q, key).rqs;
            id in rqs && rqs[id] == q.rqs[id] && other in rqs && rqs[other] == q.rqs[other]
  {
    assert ViewOk(q, h, {id}, Trees);
    if key in q.tree {
      assert q.tree[key] != id && q.tree[key] != other;
      MovedRqs(q, q.tree[key]);
    }
  }

  lemma MovedRqs(q: Queue, id: Id)
    requires id in q.rqs
    ensures Moved(q, id).rqs == q.rqs - {id}
  {
  }

  lemma {:induction false} PutAfterFacts(s: seq<Id>, id: Id, after: Id)
    requires NoDup(s) && id !in s && after in s
    ensures NoDup(PutAfter(s, id, after))
    ensures forall x :: x in PutAfter(s, id, after) <==> x in s || x == id
  {
    var r := PutAfter(s, id, after);
    assert s == [s[0]] + s[1..];
    if s[0] == after {
      assert r == [after, id] + s[1..];
    } else {
      PutAfterFacts(s[1..], id, after);
      assert s[0] !in s[1..];
    }
  }

  lemma InheritedAgrees(q: Queue, h: HashFn, id: Id, other: Id)
    requires Agrees(q, h, {}) && id in q.rqs && other in q.rqs && id != other && q.rqs[id].dir == q.rqs[other].dir
    ensures Agrees(Inherited(q, id, other), h, {})
  {
    if q.rqs[other].expires < q.rqs[id].expires {
      var rq := q.rqs[id].(expires := q.rqs[other].expires);
      Views(q, h, {});
      FifoInherited(q.rqs, q.fifo, id, other, rq);
      HashSame(q.rqs, q.hash, h, id, rq);
      TreeRegrown(q.rqs, q.tree, id, rq);
      NextKept(q.rqs, q.next, {}, id, rq);
      Views(Inherited(q, id, other), h, {});
    }
  }

  lemma HashSame(rqs: map<Id, Rq>, hash: seq<seq<Id>>, h: HashFn, id: Id, rq: Rq)
    requires HashOk(rqs, hash, h) && id in rqs && rq.End() == rqs[id].End() && rq.mergeable == rqs[id].mergeable
    ensures HashOk(rqs[id := rq], hash, h)
  {
    forall b | 0 <= b < HASH_ENTRIES ensures ChainOk(rqs[id := rq], hash[b], b, h) {
      assert ChainOk(rqs, hash[b], b, h);
    }
  }

  lemma FifoInherited(rqs: map<Id, Rq>, fifo: Both<seq<Id>>, id: Id, other: Id, rq: Rq)
    requires FifoOk(rqs, fifo.read, Read) && FifoOk(rqs, fifo.write, Write)
    requires id in rqs && other in rqs && id != other && rqs[id].dir == rqs[other].dir == rq.dir
    ensures var fifo' := fifo.With(rq.dir, MovedAfter(fifo.At(rq.dir), id, other));
            FifoOk(rqs[id := rq], fifo'.read, Read) && FifoOk(rqs[id := rq], fifo'.write, Write)
  {
    var s := fifo.At(rq.dir);
    MinusMembers(s, id);
    MinusNoDup(s, id);
    PutAfterFacts(Minus(s, id), id, other);
  }

  lemma AbsorbedAgrees(q: Queue, h: HashFn, id: Id, other: Id, sector: nat, sectors: nat)
    requires Agrees(q, h, {}) && MayAbsorb(q, id, other, sector)
    ensures Agrees(Absorbed(q, h, id, other, sector, sectors), h, {})
  {
    MergedKeepsOther(q, h, id, other, sector, sectors);
    MergedAgrees(q, h, id, sector, sectors);
    var q1 := Merged(q, h, id, sector, sectors);
    InheritedAgrees(q1, h, id, other);
    RemovedAgrees(Inherited(q1, id, other), h, {}, other);
  }
}
