/**
  The anticipatory scheduler at work: a sort tree, a FIFO and a cached next request for
  each direction, updated in place, and the dispatch that serves one direction at a time.
 */
module Anticipatory {
  import opened Lists
  import opened Sets
  import opened AnticipatoryCache
  import opened AnticipatoryBatch

  datatype Rq = Rq(sector: nat, sectors: nat) {
    function End(): nat { sector + sectors }
  }

  // One direction: its queued requests, the sort tree over their starting sectors, the
  // FIFO, the cached next request, and the sector after the last one dispatched.
  datatype Side = Side(rqs: map<Id, Rq>, tree: map<nat, Id>, fifo: seq<Id>, next: Option<Id>, last: nat)

  // ----- agreement of tree, FIFO and cache

  ghost predicate TreeOk(d: Side) {
    && (forall s :: s in d.tree ==> d.tree[s] in d.rqs && d.rqs[d.tree[s]].sector == s)
    && (forall id :: id in d.rqs ==> d.rqs[id].sector in d.tree && d.tree[d.rqs[id].sector] == id)
  }

  ghost predicate FifoOk(d: Side) {
    NoDup(d.fifo) && (forall id :: id in d.fifo <==> id in d.rqs)
  }

  // The cache points at a queued request, and at none only when none is queued.
  ghost predicate CacheSound(d: Side) {
    (d.next.None? <==> d.rqs == map[]) && (d.next.Some? ==> d.next.value in d.rqs)
  }

  datatype View = InTree | InFifo | InCache

  ghost predicate ViewOk(d: Side, v: View) {
    match v
    case InTree => TreeOk(d)
    case InFifo => FifoOk(d)
    case InCache => CacheSound(d)
  }

  ghost predicate SideOk(d: Side) { forall v :: ViewOk(d, v) }

  lemma Views(d: Side)
    ensures SideOk(d) <==> TreeOk(d) && FifoOk(d) && CacheSound(d)
  {
    if SideOk(d) { assert ViewOk(d, InTree) && ViewOk(d, InFifo) && ViewOk(d, InCache); }
  }

  // The direction as the cache sees it: starting sectors, head, and cached sector.
  function LineOf(d: Side): Line
    requires d.next.Some? ==> d.next.value in d.rqs
  {
    Line(d.tree.Keys, d.last, if d.next.Some? then Some(d.rqs[d.next.value].sector) else None)
  }

  function AtSector(d: Side, s: Option<nat>): Option<Id>
    requires s.Some? ==> s.value in d.tree
  {
    if s.Some? then Some(d.tree[s.value]) else None
  }

  // ----- operations on a direction

  // as_find_next_arq with the head at `last`.
  function FindNextArq(d: Side, id: Id, last: nat): Option<Id>
    requires TreeOk(d) && id in d.rqs
  {
    FindNextInLine(d.tree.Keys, d.rqs[id].sector, last);
    AtSector(d, FindNext(d.tree.Keys, d.rqs[id].sector, last))
  }

  function Unlinked(d: Side, id: Id): Side
    requires id in d.rqs
  {
    d.(rqs := d.rqs - {id}, tree := d.tree - {d.rqs[id].sector}, fifo := Minus(d.fifo, id))
  }

  // as_remove_queued_request.
  function Removed(d: Side, id: Id): Side
    requires TreeOk(d) && id in d.rqs
  {
    Unlinked(d.(next := if d.next == Some(id) then FindNextArq(d, id, d.last) else d.next), id)
  }

  // The changes as_move_to_dispatch makes to the direction.
  function MovedOut(d: Side, id: Id): Side
    requires TreeOk(d) && id in d.rqs
  {
    var end := d.rqs[id].End();
    Removed(d.(last := end, next := FindNextArq(d, id, end)), id)
  }

  function Inserted(d: Side, id: Id, rq: Rq): Side {
    d.(rqs := d.rqs[id := rq], tree := d.tree[rq.sector := id], fifo := d.fifo + [id])
  }

  // as_add_request once its sector is free, with as_update_arq.
  function Added(d: Side, id: Id, rq: Rq): Side
    requires d.next.Some? ==> d.next.value in d.rqs
  {
    var keep := d.next.Some? && d.next.value != id && Choose(d.last, rq.sector, d.rqs[d.next.value].sector) != rq.sector;
    Inserted(d, id, rq).(next := if keep then d.next else Some(id))
  }

  lemma UnlinkedOk(d: Side, id: Id)
    requires TreeOk(d) && FifoOk(d) && id in d.rqs
    ensures TreeOk(Unlinked(d, id)) && FifoOk(Unlinked(d, id))
    ensures Unlinked(d, id).tree.Keys == d.tree.Keys - {d.rqs[id].sector}
  {
    MinusMembers(d.fifo, id);
    MinusNoDup(d.fifo, id);
  }

  // What the cache becomes when id leaves is another queued request, if there is one.
  lemma FoundIsQueued(d: Side, id: Id, last: nat)
    requires TreeOk(d) && id in d.rqs
    ensures var r := FindNextArq(d, id, last);
            && (r.None? <==> d.rqs - {id} == map[])
            && (r.Some? ==> r.value in d.rqs - {id})
            && (r.Some? ==> FindNext(d.tree.Keys, d.rqs[id].sector, last) == Some(d.rqs[r.value].sector))
  {
    var s := d.rqs[id].sector;
    FindNextInLine(d.tree.Keys, s, last);
    if FindNextArq(d, id, last).None? {
      forall x | x in d.rqs ensures x == id {
        assert d.rqs[x].sector in d.tree.Keys;
      }
    } else {
      var t := FindNext(d.tree.Keys, s, last).value;
      assert d.tree[t] in d.rqs - {id};
    }
  }

  lemma RemovedOk(d: Side, id: Id)
    requires SideOk(d) && id in d.rqs
    ensures TreeOk(d) && CacheSound(d) && SideOk(Removed(d, id)) && CacheSound(Removed(d, id))
    ensures Removed(d, id).rqs == d.rqs - {id}
    ensures LineOf(Removed(d, id)) == LineStep(LineOf(d), Remove(d.rqs[id].sector))
  {
    Views(d);
    UnlinkedOk(d, id);
    FoundIsQueued(d, id, d.last);
    if d.next != Some(id) { assert d.next.value in d.rqs - {id}; }
    Views(Removed(d, id));
  }

  lemma MovedOutOk(d: Side, id: Id)
    requires TreeOk(d) && FifoOk(d) && id in d.rqs
    ensures SideOk(MovedOut(d, id)) && CacheSound(MovedOut(d, id))
    ensures LineOf(MovedOut(d, id)) == LineStep(Line(d.tree.Keys, d.last, None), Dispatch(d.rqs[id].sector, d.rqs[id].End()))
    ensures MovedOut(d, id).rqs == d.rqs - {id}
  {
    UnlinkedOk(d, id);
    FoundIsQueued(d, id, d.rqs[id].End());
    Views(MovedOut(d, id));
  }

  lemma AddedOk(d: Side, id: Id, rq: Rq)
    requires SideOk(d) && id !in d.rqs && rq.sector !in d.tree
    ensures CacheSound(d) && SideOk(Added(d, id, rq)) && CacheSound(Added(d, id, rq))
    ensures LineOf(Added(d, id, rq)) == LineStep(LineOf(d), Insert(rq.sector))
  {
    Views(d);
    assert Added(d, id, rq).tree.Keys == d.tree.Keys + {rq.sector};
    Views(Added(d, id, rq));
  }

  // ----- front merges

  function TakenOut(d: Side, id: Id): Side
    requires id in d.rqs
  {
    d.(tree := d.tree - {d.rqs[id].sector}, rqs := d.rqs - {id})
  }

  // as_merged_request when the request now starts elsewhere: out of the tree and in
  // again, past whatever starts there; the cache is not looked at.
  function FrontMerged(d: Side, id: Id, rq: Rq): Side
    requires TreeOk(d) && id in d.rqs
  {
    var out := TakenOut(d, id);
    var d1 := if rq.sector in out.tree then MovedOut(out, out.tree[rq.sector]) else out;
    d1.(tree := d1.tree[rq.sector := id], rqs := d1.rqs[id := rq])
  }

  // No other request starts at the sector, or a third is queued.
  predicate LeavesCache(d: Side, id: Id, sector: nat)
    requires id in d.rqs
  {
    sector == d.rqs[id].sector || sector !in d.tree || d.rqs.Keys - {id, d.tree[sector]} != {}
  }

  // The cache survives exactly then.
  lemma FrontMergeSoundExactly(d: Side, id: Id, rq: Rq)
    requires SideOk(d) && id in d.rqs
    ensures TreeOk(d)
    ensures CacheSound(FrontMerged(d, id, rq)) <==> LeavesCache(d, id, rq.sector)
  {
    assert ViewOk(d, InTree) && ViewOk(d, InCache);
    FrontMergeSound(d, id, rq);
  }

  lemma FrontMergeSound(d: Side, id: Id, rq: Rq)
    requires TreeOk(d) && CacheSound(d) && id in d.rqs
    ensures CacheSound(FrontMerged(d, id, rq)) <==> LeavesCache(d, id, rq.sector)
  {
    var out := TakenOut(d, id);
    if rq.sector in out.tree {
      var alias := out.tree[rq.sector];
      AliasMoved(out, alias);
      assert out.rqs.Keys - {alias} == d.rqs.Keys - {id, alias};
      var merged := FrontMerged(d, id, rq);
      assert merged.next == MovedOut(out, alias).next && id in merged.rqs;
    }
  }

  // After a request is moved out, the cache is empty only if nothing is left.
  lemma AliasMoved(d: Side, id: Id)
    requires TreeOk(d) && id in d.rqs
    ensures var d' := MovedOut(d, id);
            && d'.rqs == d.rqs - {id}
            && (d'.next.None? <==> d.rqs.Keys - {id} == {}) && (d'.next.Some? ==> d'.next.value in d'.rqs)
  {
    FoundIsQueued(d, id, d.rqs[id].End());
    assert (d.rqs - {id}).Keys == d.rqs.Keys - {id};
  }

  // What the front merge does to the line of sectors.
  lemma FrontMergedLine(d: Side, id: Id, rq: Rq)
    requires TreeOk(d) && CacheSound(d) && id in d.rqs && rq.sector != d.rqs[id].sector && LeavesCache(d, id, rq.sector)
    ensures var s, d' := d.rqs[id].sector, FrontMerged(d, id, rq);
            && CacheSound(d')
            && LineOf(d') ==
               if rq.sector in d.tree then
                 var others, end := d.tree.Keys - {s}, d.rqs[d.tree[rq.sector]].End();
                 Line(others, end, FindNext(others, rq.sector, end))
               else Line(d.tree.Keys - {s} + {rq.sector}, d.last, Renamed(LineOf(d).next, s, rq.sector))
  {
    FrontMergeSound(d, id, rq);
    var out := TakenOut(d, id);
    assert out.tree.Keys == d.tree.Keys - {d.rqs[id].sector};
    if rq.sector in out.tree {
      var alias := out.tree[rq.sector];
      AliasMoved(out, alias);
      FoundIsQueued(out, alias, out.rqs[alias].End());
      assert FrontMerged(d, id, rq).tree.Keys == out.tree.Keys;
    } else {
      assert FrontMerged(d, id, rq).tree.Keys == out.tree.Keys + {rq.sector};
    }
  }

  // A front merge leaves the cache the best of all exactly under a condition on the line
  // before it.
  lemma FrontMergeBestExactly(d: Side, id: Id, rq: Rq)
    requires TreeOk(d) && CacheSound(d) && Cached(LineOf(d)) && id in d.rqs && rq.sector != d.rqs[id].sector
    ensures var s, line, d' := d.rqs[id].sector, LineOf(d), FrontMerged(d, id, rq);
            CacheSound(d') && Cached(LineOf(d')) <==>
              if rq.sector in d.tree then
                var others, end := line.starts - {s}, d.rqs[d.tree[rq.sector]].End();
                var m := FindNext(others, rq.sector, end);
                && m.Some? && (NothingInside(others, rq.sector, end) || InsideIsBest(others, rq.sector, end))
                && Better(end, m.value, rq.sector)
              else if line.next == Some(s) then
                FindNext(line.starts, s, line.last).None? || Better(line.last, rq.sector, FindNext(line.starts, s, line.last).value)
              else Better(line.last, line.next.value, rq.sector)
  {
    var s, line := d.rqs[id].sector, LineOf(d);
    FrontMergeSound(d, id, rq);
    if LeavesCache(d, id, rq.sector) {
      FrontMergedLine(d, id, rq);
      if rq.sector in d.tree {
        MergedOntoBestExactly(line.starts, s, rq.sector, d.rqs[d.tree[rq.sector]].End());
      } else {
        FrontMergedBestExactly(line.starts, line.last, line.next, s, rq.sector);
      }
    } else {
      OnlyTwo(d, id, rq.sector);
    }
  }

  // With only the two requests, nothing is found beside the one dispatched.
  lemma OnlyTwo(d: Side, id: Id, sector: nat)
    requires TreeOk(d) && id in d.rqs && !LeavesCache(d, id, sector)
    ensures var others := d.tree.Keys - {d.rqs[id].sector};
            sector in others && FindNext(others, sector, d.rqs[d.tree[sector]].End()).None?
  {
    var others := d.tree.Keys - {d.rqs[id].sector};
    forall x | x in others ensures x == sector {
      assert d.tree[x] !in d.rqs.Keys - {id, d.tree[sector]};
    }
    assert others == {sector};
    FindNextInLine(others, sector, d.rqs[d.tree[sector]].End());
  }

  lemma FrontMergeMayEmptyCache()
    ensures var d := Side(map[0 := Rq(8, 8), 1 := Rq(0, 4)], map[8 := 0, 0 := 1], [0, 1], Some(0), 8);
            SideOk(d) && TreeOk(d) && FrontMerged(d, 0, Rq(0, 16)).next == None && FrontMerged(d, 0, Rq(0, 16)).rqs != map[]
  {
    var d := Side(map[0 := Rq(8, 8), 1 := Rq(0, 4)], map[8 := 0, 0 := 1], [0, 1], Some(0), 8);
    Views(d);
    var out := TakenOut(d, 0);
    assert out.tree == map[0 := 1] && out.rqs == map[1 := Rq(0, 4)];
    AliasMoved(out, 1);
    assert 0 in FrontMerged(d, 0, Rq(0, 16)).rqs;
  }

  // ----- the scheduler

  datatype Queue = Queue(sync: Side, async: Side, batch: Batch) {
    function At(isSync: bool): Side { if isSync then sync else async }
    function With(isSync: bool, d: Side): Queue { if isSync then this.(sync := d) else this.(async := d) }
  }

  datatype Promise = SyncAgrees | AsyncAgrees | Apart | Counted

  ghost predicate Kept(q: Queue, p: Promise) {
    match p
    case SyncAgrees => SideOk(q.sync)
    case AsyncAgrees => SideOk(q.async)
    case Apart => q.sync.rqs.Keys !! q.async.rqs.Keys && (q.sync.rqs.Keys + q.async.rqs.Keys) !! q.batch.out.Keys
    case Counted => q.batch.nrDispatched == |q.batch.out|
  }

  // Tree, FIFO and cache of each direction agree, and a request is in one place.
  ghost predicate Good(q: Queue) { forall p :: Kept(q, p) }

  lemma Promises(q: Queue)
    ensures Good(q) <==>
              && SideOk(q.sync) && SideOk(q.async)
              && q.sync.rqs.Keys !! q.async.rqs.Keys && (q.sync.rqs.Keys + q.async.rqs.Keys) !! q.batch.out.Keys
              && q.batch.nrDispatched == |q.batch.out|
  {
    if Good(q) { assert Kept(q, SyncAgrees) && Kept(q, AsyncAgrees) && Kept(q, Apart) && Kept(q, Counted); }
  }

  lemma SideFacts(q: Queue, isSync: bool)
    requires Good(q)
    ensures SideOk(q.At(isSync)) && TreeOk(q.At(isSync)) && FifoOk(q.At(isSync)) && CacheSound(q.At(isSync))
  {
    Promises(q);
    Views(q.At(isSync));
  }

  function Moved(q: Queue, isSync: bool, id: Id): Queue
    requires TreeOk(q.At(isSync)) && id in q.At(isSync).rqs
  {
    q.With(isSync, MovedOut(q.At(isSync), id)).(batch := Sent(q.batch, id, isSync))
  }

  lemma MovedGood(q: Queue, isSync: bool, id: Id)
    requires Good(q) && id in q.At(isSync).rqs
    ensures TreeOk(q.At(isSync)) && Good(Moved(q, isSync, id)) && CacheSound(Moved(q, isSync, id).At(isSync))
    ensures id !in q.batch.out
  {
    SideFacts(q, isSync);
    var d := q.At(isSync);
    MovedOutOk(d, id);
    assert id !in q.batch.out by { assert Kept(q, Apart); }
    MovedPromises(q, isSync, id, MovedOut(d, id));
  }

  lemma MovedApart(here: set<Id>, there: set<Id>, out: set<Id>, id: Id)
    requires id in here && here !! there && (here + there) !! out
    ensures (here - {id}) !! there && (here - {id} + there) !! (out + {id})
  {
  }

  // One direction and the batch may be replaced together.
  lemma GoodWith(q: Queue, isSync: bool, d: Side, batch: Batch)
    requires Good(q) && SideOk(d) && batch.nrDispatched == |batch.out|
    requires d.rqs.Keys !! q.At(!isSync).rqs.Keys && (d.rqs.Keys + q.At(!isSync).rqs.Keys) !! batch.out.Keys
    ensures Good(q.With(isSync, d).(batch := batch))
  {
    var q' := q.With(isSync, d).(batch := batch);
    SideFacts(q, !isSync);
    forall p ensures Kept(q', p) {
    }
  }

  lemma SentKeys(b: Batch, id: Id, isSync: bool)
    requires id !in b.out && b.nrDispatched == |b.out|
    ensures Sent(b, id, isSync).out.Keys == b.out.Keys + {id}
    ensures Sent(b, id, isSync).nrDispatched == |Sent(b, id, isSync).out|
  {
  }

  lemma MovedPromises(q: Queue, isSync: bool, id: Id, d: Side)
    requires Good(q) && id in q.At(isSync).rqs && id !in q.batch.out && SideOk(d) && d.rqs == q.At(isSync).rqs - {id}
    ensures Good(q.With(isSync, d).(batch := Sent(q.batch, id, isSync)))
  {
    assert Kept(q, Apart) && Kept(q, Counted);
    SentKeys(q.batch, id, isSync);
    assert d.rqs.Keys == q.At(isSync).rqs.Keys - {id};
    MovedApart(q.At(isSync).rqs.Keys, q.At(!isSync).rqs.Keys, q.batch.out.Keys, id);
    GoodWith(q, isSync, d, Sent(q.batch, id, isSync));
  }

  lemma MovedCached(q: Queue, isSync: bool, id: Id)
    requires Good(q) && id in q.At(isSync).rqs
    ensures TreeOk(q.At(isSync)) && CacheSound(Moved(q, isSync, id).At(isSync))
    ensures var d := q.At(isSync);
            NothingInside(d.tree.Keys, d.rqs[id].sector, d.rqs[id].End()) ==> Cached(LineOf(Moved(q, isSync, id).At(isSync)))
  {
    SideFacts(q, isSync);
    var d := q.At(isSync);
    MovedOutOk(d, id);
    if NothingInside(d.tree.Keys, d.rqs[id].sector, d.rqs[id].End()) { DispatchedBest(d.tree.Keys, d.rqs[id].sector, d.rqs[id].End()); }
  }

  lemma RemovedGood(q: Queue, isSync: bool, id: Id)
    requires Good(q) && id in q.At(isSync).rqs
    ensures TreeOk(q.At(isSync)) && CacheSound(q.At(isSync)) && CacheSound(Removed(q.At(isSync), id))
    ensures Good(q.With(isSync, Removed(q.At(isSync), id)))
    ensures Cached(LineOf(q.At(isSync))) ==> Cached(LineOf(Removed(q.At(isSync), id)))
  {
    SideFacts(q, isSync);
    Promises(q);
    var d := q.At(isSync);
    RemovedOk(d, id);
    if Cached(LineOf(d)) { LineStepKeeps(LineOf(d), Remove(d.rqs[id].sector)); }
    Promises(q.With(isSync, Removed(d, id)));
  }

  lemma AddedGood(q: Queue, isSync: bool, id: Id, rq: Rq)
    requires Good(q) && id !in q.sync.rqs && id !in q.async.rqs && id !in q.batch.out && rq.sector !in q.At(isSync).tree
    ensures CacheSound(q.At(isSync)) && Good(q.With(isSync, Added(q.At(isSync), id, rq))) && CacheSound(Added(q.At(isSync), id, rq))
    ensures Cached(LineOf(q.At(isSync))) ==> Cached(LineOf(Added(q.At(isSync), id, rq)))
  {
    SideFacts(q, isSync);
    Promises(q);
    var d := q.At(isSync);
    AddedOk(d, id, rq);
    if Cached(LineOf(d)) { LineStepKeeps(LineOf(d), Insert(rq.sector)); }
    Promises(q.With(isSync, Added(d, id, rq)));
  }

  function Grown(d: Side, id: Id, sectors: nat): Side
    requires id in d.rqs
  {
    d.(rqs := d.rqs[id := d.rqs[id].(sectors := sectors)])
  }

  lemma GrownOk(d: Side, id: Id, sectors: nat)
    requires SideOk(d) && id in d.rqs
    ensures Grown(d, id, sectors).rqs.Keys == d.rqs.Keys && SideOk(Grown(d, id, sectors))
    ensures CacheSound(d) && CacheSound(Grown(d, id, sectors)) && LineOf(Grown(d, id, sectors)) == LineOf(d)
  {
    Views(d);
    Views(Grown(d, id, sectors));
  }

  lemma GrownGood(q: Queue, isSync: bool, id: Id, sectors: nat)
    requires Good(q) && id in q.At(isSync).rqs
    ensures CacheSound(q.At(isSync)) && Good(q.With(isSync, Grown(q.At(isSync), id, sectors)))
    ensures CacheSound(Grown(q.At(isSync), id, sectors)) && LineOf(Grown(q.At(isSync), id, sectors)) == LineOf(q.At(isSync))
  {
    SideFacts(q, isSync);
    var d := q.At(isSync);
    GrownOk(d, id, sectors);
    assert Kept(q, Apart) && Kept(q, Counted);
    GoodWith(q, isSync, Grown(d, id, sectors), q.batch);
  }

  lemma CompletedGood(q: Queue, id: Id)
    requires Good(q) && id in q.batch.out
    ensures Good(q.(batch := Completed(q.batch, id)))
    ensures BatchOk(q.batch) ==> BatchOk(Completed(q.batch, id))
  {
    Promises(q);
    if BatchOk(q.batch) { CompletedOk(q.batch, id); }
    var out := q.batch.out;
    assert (out - {id}).Keys == out.Keys - {id};
    assert |out| == |out.Keys| && |out - {id}| == |(out - {id}).Keys|;
    Promises(q.(batch := Completed(q.batch, id)));
  }

  // Changing only the batch flags keeps all that.
  lemma FlagsGood(q: Queue, q': Queue)
    requires Good(q) && q'.sync == q.sync && q'.async == q.async
    requires q'.batch.out == q.batch.out && q'.batch.nrDispatched == q.batch.nrDispatched
    ensures Good(q')
  {
    forall p ensures Kept(q', p) {
      assert Kept(q, p);
    }
  }

  // A front merge in the whole scheduler: an alias in the way goes to the driver.
  function FrontMergedIn(q: Queue, isSync: bool, id: Id, rq: Rq): Queue
    requires TreeOk(q.At(isSync)) && id in q.At(isSync).rqs
  {
    var d := q.At(isSync);
    var q1 := q.With(isSync, FrontMerged(d, id, rq));
    if rq.sector != d.rqs[id].sector && rq.sector in d.tree then q1.(batch := Sent(q.batch, d.tree[rq.sector], isSync)) else q1
  }

  // What lies between taking the request out and putting it back.
  ghost predicate Between(d: Side, id: Id) {
    TreeOk(d) && id !in d.rqs && NoDup(d.fifo) && forall x :: x in d.fifo <==> x in d.rqs || x == id
  }

  lemma TakenOutBetween(d: Side, id: Id)
    requires TreeOk(d) && FifoOk(d) && id in d.rqs
    ensures Between(TakenOut(d, id), id)
  {
  }

  lemma MovedOutBetween(d: Side, id: Id, alias: Id)
    requires Between(d, id) && alias in d.rqs
    ensures Between(MovedOut(d, alias), id) && d.rqs[alias].sector !in MovedOut(d, alias).tree
  {
    AliasMoved(d, alias);
    MinusMembers(d.fifo, alias);
    MinusNoDup(d.fifo, alias);
    assert MovedOut(d, alias).tree == d.tree - {d.rqs[alias].sector} && MovedOut(d, alias).fifo == Minus(d.fifo, alias);
  }

  lemma PutBack(d: Side, id: Id, rq: Rq)
    requires Between(d, id) && rq.sector !in d.tree
    ensures var d' := d.(tree := d.tree[rq.sector := id], rqs := d.rqs[id := rq]);
            TreeOk(d') && FifoOk(d')
  {
  }

  lemma FrontMergedParts(d: Side, id: Id, rq: Rq)
    requires TreeOk(d) && FifoOk(d) && id in d.rqs
    ensures TreeOk(FrontMerged(d, id, rq)) && FifoOk(FrontMerged(d, id, rq))
    ensures FrontMerged(d, id, rq).rqs.Keys ==
              d.rqs.Keys - (if rq.sector != d.rqs[id].sector && rq.sector in d.tree then {d.tree[rq.sector]} else {})
  {
    var out := TakenOut(d, id);
    TakenOutBetween(d, id);
    if rq.sector in out.tree {
      var alias := out.tree[rq.sector];
      MovedOutBetween(out, id, alias);
      AliasMoved(out, alias);
      PutBack(MovedOut(out, alias), id, rq);
    } else {
      PutBack(out, id, rq);
    }
  }

  // All is kept exactly if the cache can be.
  lemma FrontMergedGoodExactly(q: Queue, isSync: bool, id: Id, rq: Rq)
    requires Good(q) && id in q.At(isSync).rqs
    ensures TreeOk(q.At(isSync))
    ensures Good(FrontMergedIn(q, isSync, id, rq)) <==> LeavesCache(q.At(isSync), id, rq.sector)
  {
    SideFacts(q, isSync);
    Promises(q);
    var d, d' := q.At(isSync), FrontMerged(q.At(isSync), id, rq);
    FrontMergedParts(d, id, rq);
    FrontMergeSoundExactly(d, id, rq);
    Views(d');
    FrontMergedPromises(q, isSync, id, rq, d');
  }

  lemma FrontMergedPromises(q: Queue, isSync: bool, id: Id, rq: Rq, d': Side)
    requires Good(q) && TreeOk(q.At(isSync)) && id in q.At(isSync).rqs && d' == FrontMerged(q.At(isSync), id, rq)
    requires var d := q.At(isSync);
             d'.rqs.Keys == d.rqs.Keys - (if rq.sector != d.rqs[id].sector && rq.sector in d.tree then {d.tree[rq.sector]} else {})
    ensures Good(FrontMergedIn(q, isSync, id, rq)) <==> SideOk(d')
  {
    var d, q' := q.At(isSync), FrontMergedIn(q, isSync, id, rq);
    assert Kept(q, Apart) && Kept(q, Counted);
    if rq.sector != d.rqs[id].sector && rq.sector in d.tree {
      SentKeys(q.batch, d.tree[rq.sector], isSync);
      MovedApart(d.rqs.Keys, q.At(!isSync).rqs.Keys, q.batch.out.Keys, d.tree[rq.sector]);
    }
    if SideOk(d') { GoodWith(q, isSync, d', q'.batch); }
    if Good(q') { assert Kept(q', SyncAgrees) && Kept(q', AsyncAgrees); }
  }

  // ----- dispatch

  lemma FifoAndCache(q: Queue, isSync: bool)
    requires Good(q)
    ensures var d := q.At(isSync);
            && (d.fifo != [] <==> d.next.Some?)
            && (d.fifo != [] ==> d.fifo[0] in d.rqs && d.next.value in d.rqs)
  {
    SideFacts(q, isSync);
    var d := q.At(isSync);
    if d.fifo != [] { assert d.fifo[0] in d.fifo; }
    forall id | id in d.rqs ensures d.fifo != [] {
      assert id in d.fifo;
    }
  }

  // Where a source leads: the cached request or the head of the FIFO.
  function Taken(q: Queue, from: Source): (id: Id)
    requires Good(q) && q.At(from.sync).fifo != []
    ensures id in q.At(from.sync).rqs
  {
    FifoAndCache(q, from.sync);
    if from.Cache? then q.At(from.sync).next.value else q.At(from.sync).fifo[0]
  }

  // The queue after a decision has been carried out, and what was dispatched.
  ghost predicate Applied(q: Queue, b: Batch, go: Option<Source>, sent: Option<Id>, q': Queue) {
    match go
    case None => sent == None && q' == q.(batch := b)
    case Some(from) =>
      && Good(q) && q.At(from.sync).fifo != [] && TreeOk(q.At(from.sync))
      && sent == Some(Taken(q, from)) && q' == Moved(q.(batch := b), from.sync, sent.value)
  }

  // as_dispatch_request does what the decision says.
  ghost predicate Dispatches(q: Queue, o: Oracle, sent: Option<Id>, q': Queue) {
    var (b, go) := Decide(q.batch, q.sync.fifo != [], q.async.fifo != [], o);
    Applied(q, b, go, sent, q')
  }

  // What an attempt does, from what is queued: see AnticipatoryBatch.DecidesExactly.
  ghost predicate Attempts(q: Queue, o: Oracle, sent: Option<Id>, q': Queue) {
    var anySync, anyAsync := q.sync.rqs != map[], q.async.rqs != map[];
    var wants := WantsSync(q.batch, anySync, anyAsync, o);
    if !(anySync || anyAsync) || o.waiting || q.batch.changed || Holds(q.batch, anySync, anyAsync, o) then
      sent == None && q' == q
    else
      && q'.batch.sync == wants && (q'.batch.changed <==> sent.None?)
      && (sent.Some? <==> wants == q.batch.sync || q.batch.nrDispatched == 0)
      && (if sent.None? then q'.sync == q.sync && q'.async == q.async && q'.batch.out == q.batch.out
          else SendsFrom(q, wants, TakesOldest(q.batch, wants, o), sent.value, q'))
  }

  // One request of the direction goes: the oldest or the cached one.
  ghost predicate SendsFrom(q: Queue, isSync: bool, oldest: bool, id: Id, q': Queue) {
    var d := q.At(isSync);
    && id in d.rqs && (if oldest then [id] <= d.fifo else d.next == Some(id))
    && q'.At(isSync).rqs == d.rqs - {id} && q'.At(!isSync) == q.At(!isSync)
    && q'.At(isSync).last == d.rqs[id].End() && q'.batch.out == q.batch.out[id := isSync]
  }

  lemma QueuedInFifo(q: Queue, isSync: bool)
    requires Good(q)
    ensures q.At(isSync).rqs != map[] <==> q.At(isSync).fifo != []
  {
    SideFacts(q, isSync);
    var d := q.At(isSync);
    if d.fifo != [] { assert d.fifo[0] in d.fifo; }
    forall id | id in d.rqs ensures d.fifo != [] {
      assert id in d.fifo;
    }
  }

  lemma TakenSends(q: Queue, b: Batch, from: Source)
    requires Good(q) && q.At(from.sync).fifo != [] && b.out == q.batch.out
    ensures TreeOk(q.At(from.sync))
    ensures SendsFrom(q, from.sync, from.Head?, Taken(q, from), Moved(q.(batch := b), from.sync, Taken(q, from)))
  {
    SideFacts(q, from.sync);
    FifoAndCache(q, from.sync);
    AliasMoved(q.At(from.sync), Taken(q, from));
  }

  lemma DispatchAttempts(q: Queue, o: Oracle, sent: Option<Id>, q': Queue)
    requires Good(q) && Dispatches(q, o, sent, q')
    ensures Attempts(q, o, sent, q')
  {
    QueuedInFifo(q, true);
    QueuedInFifo(q, false);
    var anySync, anyAsync := q.sync.fifo != [], q.async.fifo != [];
    DecidesExactly(q.batch, anySync, anyAsync, o);
    var (b, go) := Decide(q.batch, anySync, anyAsync, o);
    if go.Some? { TakenSends(q, b, go.value); }
  }

  lemma DispatchKeepsBatch(q: Queue, o: Oracle, sent: Option<Id>, q': Queue)
    requires Good(q) && BatchOk(q.batch) && Dispatches(q, o, sent, q')
    ensures BatchOk(q'.batch)
  {
    var anySync, anyAsync := q.sync.fifo != [], q.async.fifo != [];
    DecisionFits(q.batch, anySync, anyAsync, o);
    if sent.Some? {
      var from := Decide(q.batch, anySync, anyAsync, o).1.value;
      MovedGood(q, from.sync, sent.value);
      SentOk(q.batch, anySync, anyAsync, o, sent.value);
    }
  }

  class Scheduler {
    var sync: Side
    var async: Side
    var batchSync: bool
    var changedBatch: bool
    var newBatch: bool
    var nrDispatched: int
    var out: map<Id, bool>

    function State(): Queue
      reads this
    {
      Queue(sync, async, Batch(batchSync, changedBatch, newBatch, nrDispatched, out))
    }

    ghost predicate Valid()
      reads this
    {
      Good(State())
    }

    constructor ()
      ensures Valid() && BatchOk(State().batch) && sync == async == Side(map[], map[], [], None, 0) && out == map[]
      ensures Cached(LineOf(sync)) && Cached(LineOf(async))
    {
      var none := Side(map[], map[], [], None, 0);
      sync, async := none, none;
      batchSync, changedBatch, newBatch, nrDispatched, out := false, false, false, 0, map[];
      new;
      Views(sync);
      Promises(State());
    }

    method SetSide(isSync: bool, d: Side)
      modifies this
      ensures State() == old(State()).With(isSync, d)
    {
      if isSync { sync := d; } else { async := d; }
    }

    // as_remove_queued_request.
    method RemoveQueued(isSync: bool, id: Id)
      requires Valid() && id in State().At(isSync).rqs
      modifies this
      ensures Valid()
      ensures var q := old(State());
              && TreeOk(q.At(isSync)) && CacheSound(q.At(isSync)) && CacheSound(State().At(isSync))
              && State() == q.With(isSync, Removed(q.At(isSync), id))
              && (Cached(LineOf(q.At(isSync))) ==> Cached(LineOf(State().At(isSync))))
    {
      RemovedGood(State(), isSync, id);
      var d := State().At(isSync);
      if d.next == Some(id) {
        d := d.(next := FindNextArq(d, id, d.last));
      }
      SetSide(isSync, Unlinked(d, id));
    }

    // as_move_to_dispatch.
    method MoveToDispatch(isSync: bool, id: Id)
      requires Valid() && id in State().At(isSync).rqs
      modifies this
      ensures Valid()
      ensures var q, d := old(State()), old(State()).At(isSync);
              && TreeOk(d) && State() == Moved(q, isSync, id) && CacheSound(State().At(isSync))
              && (NothingInside(d.tree.Keys, d.rqs[id].sector, d.rqs[id].End()) ==> Cached(LineOf(State().At(isSync))))
    {
      ghost var q := State();
      MovedGood(q, isSync, id);
      MovedCached(q, isSync, id);
      var d := State().At(isSync);
      d := d.(last := d.rqs[id].End());
      d := d.(next := FindNextArq(d, id, d.last));
      SetSide(isSync, Removed(d, id));
      out := out[id := isSync];
      nrDispatched := nrDispatched + 1;
      assert State() == Moved(q, isSync, id);
    }

    // The loop of as_add_arq_rb: a request already at the sector is dispatched.
    method MakeRoom(isSync: bool, sector: nat)
      requires Valid()
      modifies this
      ensures Valid() && sector !in State().At(isSync).tree
      ensures var q := old(State());
              && TreeOk(q.At(isSync))
              && State() == if sector in q.At(isSync).tree then Moved(q, isSync, q.At(isSync).tree[sector]) else q
    {
      ghost var q := State();
      SideFacts(q, isSync);
      if sector in q.At(isSync).tree { UnlinkedOk(q.At(isSync), q.At(isSync).tree[sector]); }
      while sector in State().At(isSync).tree
        invariant Valid()
        invariant State() == q ||
                  (sector in q.At(isSync).tree && sector !in State().At(isSync).tree && State() == Moved(q, isSync, q.At(isSync).tree[sector]))
        decreases sector in State().At(isSync).tree
      {
        MoveToDispatch(isSync, State().At(isSync).tree[sector]);
      }
    }

    // as_add_request.
    method AddRequest(isSync: bool, id: Id, sector: nat, sectors: nat)
      requires Valid() && id !in sync.rqs && id !in async.rqs && id !in out
      modifies this
      ensures Valid()
      ensures var q := old(State());
              && TreeOk(q.At(isSync))
              && var q1 := if sector in q.At(isSync).tree then Moved(q, isSync, q.At(isSync).tree[sector]) else q;
              && CacheSound(q1.At(isSync)) && CacheSound(State().At(isSync))
              && State() == q1.With(isSync, Added(q1.At(isSync), id, Rq(sector, sectors)))
              && State().At(isSync).rqs == q1.At(isSync).rqs[id := Rq(sector, sectors)]
              && State().At(isSync).fifo == q1.At(isSync).fifo + [id]
              && (Cached(LineOf(q1.At(isSync))) ==> Cached(LineOf(State().At(isSync))))
    {
      ghost var q := State();
      SideFacts(q, isSync);
      if sector in q.At(isSync).tree { MovedGood(q, isSync, q.At(isSync).tree[sector]); }
      MakeRoom(isSync, sector);
      AddedGood(State(), isSync, id, Rq(sector, sectors));
      SetSide(isSync, Added(State().At(isSync), id, Rq(sector, sectors)));
    }

    // as_merged_request after a back merge: only the size grows.
    method BackMerged(isSync: bool, id: Id, sectors: nat)
      requires Valid() && id in State().At(isSync).rqs
      modifies this
      ensures Valid() && State() == old(State()).With(isSync, Grown(old(State()).At(isSync), id, sectors))
      ensures CacheSound(old(State()).At(isSync)) && CacheSound(State().At(isSync))
      ensures LineOf(State().At(isSync)) == LineOf(old(State()).At(isSync))
    {
      GrownGood(State(), isSync, id, sectors);
      SetSide(isSync, Grown(State().At(isSync), id, sectors));
    }

    // as_merged_request after a front merge: the cache is not looked at, and all is kept
    // exactly if no other request starts at the new sector or a third is queued.
    method FrontMerge(isSync: bool, id: Id, rq: Rq)
      requires Valid() && id in State().At(isSync).rqs
      modifies this
      ensures TreeOk(old(State()).At(isSync)) && State() == FrontMergedIn(old(State()), isSync, id, rq)
      ensures Valid() <==> LeavesCache(old(State()).At(isSync), id, rq.sector)
    {
      ghost var q := State();
      FrontMergedGoodExactly(q, isSync, id, rq);
      var d := State().At(isSync);
      var moved := d.rqs[id].sector != rq.sector && rq.sector in d.tree;
      SetSide(isSync, FrontMerged(d, id, rq));
      if moved {
        out := out[d.tree[rq.sector] := isSync];
        nrDispatched := nrDispatched + 1;
      }
    }

    // as_completed_request of a request the driver had.
    method CompletedRequest(id: Id)
      requires Valid() && id in out
      modifies this
      ensures Valid() && State() == old(State()).(batch := Completed(old(State()).batch, id))
      ensures BatchOk(old(State()).batch) ==> BatchOk(State().batch)
    {
      CompletedGood(State(), id);
      var wasSync := out[id];
      if changedBatch && nrDispatched == 1 {
        changedBatch := false;
        if batchSync {
          newBatch := true;
        }
      }
      nrDispatched := nrDispatched - 1;
      out := out - {id};
      if newBatch && batchSync == wasSync {
        newBatch := false;
      }
    }

    // as_dispatch_request with force: everything goes, and is counted.
    method ForcedDispatch() returns (dispatched: nat)
      requires Valid()
      modifies this
      ensures Valid() && sync.rqs == map[] && async.rqs == map[]
      ensures dispatched == |old(sync.rqs)| + |old(async.rqs)|
      ensures out.Keys == old(out.Keys) + old(sync.rqs.Keys) + old(async.rqs.Keys)
    {
      batchSync, changedBatch, newBatch := true, false, false;
      FlagsGood(old(State()), State());
      dispatched := DrainSide(true);
      var more := DrainSide(false);
      dispatched := dispatched + more;
    }

    method DrainSide(isSync: bool) returns (n: nat)
      requires Valid()
      modifies this
      ensures Valid() && State().At(isSync).rqs == map[] && State().At(!isSync) == old(State()).At(!isSync)
      ensures n == |old(State()).At(isSync).rqs|
      ensures out.Keys == old(out.Keys) + old(State()).At(isSync).rqs.Keys
    {
      n := 0;
      ghost var q := State();
      SideFacts(q, isSync);
      while State().At(isSync).next.Some?
        invariant Valid() && State().At(!isSync) == q.At(!isSync) && CacheSound(State().At(isSync))
        invariant n + |State().At(isSync).rqs| == |q.At(isSync).rqs|
        invariant out.Keys + State().At(isSync).rqs.Keys == q.batch.out.Keys + q.At(isSync).rqs.Keys
        decreases |State().At(isSync).rqs|
      {
        var id := State().At(isSync).next.value;
        assert TreeOk(State().At(isSync)) by { SideFacts(State(), isSync); }
        MovedKeys(State().At(isSync), out, isSync, id);
        MoveToDispatch(isSync, id);
        n := n + 1;
      }
    }

    // From the label dispatch_request on.
    method LaunchRequest(arq: Id, o: Oracle, ghost from: Source) returns (sent: Option<Id>)
      requires Valid() && from.sync == batchSync && State().At(batchSync).fifo != []
      requires arq == Taken(State(), from)
      modifies this
      ensures Valid()
      ensures var (b, go) := Launch(old(State()).batch, from, o);
              Applied(old(State()), b, go, sent, State())
    {
      ghost var q := State();
      SideFacts(q, batchSync);
      var id := arq;
      if o.late {
        id := State().At(batchSync).fifo[0];
      }
      assert id == Taken(q, if o.late then Head(batchSync) else from);
      if changedBatch {
        if nrDispatched != 0 {
          return None;
        }
        if batchSync {
          newBatch := true;
        }
        changedBatch := false;
      }
      FlagsGood(q, State());
      MoveToDispatch(batchSync, id);
      sent := Some(id);
    }

    // as_dispatch_request.  The request to dispatch exists on every path.
    method DispatchRequest(o: Oracle) returns (sent: Option<Id>)
      requires Valid()
      modifies this
      ensures Valid() && Dispatches(old(State()), o, sent, State())
      ensures Attempts(old(State()), o, sent, State())
      ensures BatchOk(old(State()).batch) ==> BatchOk(State().batch)
    {
      ghost var q := State();
      sent := Serve(o);
      DispatchAttempts(q, o, sent, State());
      if BatchOk(q.batch) { DispatchKeepsBatch(q, o, sent, State()); }
    }

    method Serve(o: Oracle) returns (sent: Option<Id>)
      requires Valid()
      modifies this
      ensures Valid() && Dispatches(old(State()), o, sent, State())
    {
      var anySync, anyAsync := sync.fifo != [], async.fifo != [];
      if !(anySync || anyAsync) || o.waiting || changedBatch {
        return None;
      }
      FifoAndCache(State(), true);
      FifoAndCache(State(), false);
      var expired := !changedBatch && !newBatch && o.timeUp;
      if !(anySync && anyAsync && expired) {
        if batchSync && o.anticipates {
          if anySync && o.checkedLate {
            sent := Some(sync.fifo[0]);
            MoveToDispatch(true, sync.fifo[0]);
            return;
          }
          if o.canAnticipate {
            return None;
          }
        }
        var arq := if batchSync then sync.next else async.next;
        if arq.Some? {
          sent := LaunchRequest(arq.value, o, Cache(batchSync));
          return;
        }
      }
      sent := SwitchOrStay(o);
    }

    // No batch is running: choose the direction.
    method SwitchOrStay(o: Oracle) returns (sent: Option<Id>)
      requires Valid() && (sync.fifo != [] || async.fifo != [])
      modifies this
      ensures Valid()
      ensures var (b, go) := Select(old(State()).batch, old(sync.fifo) != [], old(async.fifo) != [], o);
              Applied(old(State()), b, go, sent, State())
    {
      ghost var q := State();
      FifoAndCache(q, true);
      FifoAndCache(q, false);
      var anySync, anyAsync := sync.fifo != [], async.fifo != [];
      if anySync && !(anyAsync && batchSync) {
        if !batchSync {
          changedBatch := true;
        }
        batchSync := true;
        FlagsGood(q, State());
        sent := LaunchRequest(sync.fifo[0], o, Head(true));
      } else {
        if batchSync {
          changedBatch := true;
          newBatch := false;
        }
        batchSync := false;
        FlagsGood(q, State());
        sent := LaunchRequest(async.next.value, o, Cache(false));
      }
    }
  }

  // A request moved out is one fewer queued and one more at the driver.
  lemma MovedKeys(d: Side, out: map<Id, bool>, isSync: bool, id: Id)
    requires TreeOk(d) && id in d.rqs
    ensures |MovedOut(d, id).rqs| == |d.rqs| - 1
    ensures out[id := isSync].Keys + MovedOut(d, id).rqs.Keys == out.Keys + d.rqs.Keys
  {
    AliasMoved(d, id);
    MapLess(d.rqs, id);
    KeysMoved(d.rqs, out, isSync, id);
  }

  lemma KeysMoved(rqs: map<Id, Rq>, out: map<Id, bool>, isSync: bool, id: Id)
    requires id in rqs
    ensures out[id := isSync].Keys + (rqs - {id}).Keys == out.Keys + rqs.Keys
  {
    assert out[id := isSync].Keys == out.Keys + {id} && (rqs - {id}).Keys == rqs.Keys - {id};
  }
}
