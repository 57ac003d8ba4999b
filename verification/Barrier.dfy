/**
  The ordered-write (barrier) protocol of the block layer in its draining modes:
  the dispatch queue, the I/O scheduler behind it, the requests held by the
  driver, and the drain / pre-flush / barrier / post-flush sequence.

  A request carries, besides what the block layer stores, its number in the
  order of addition (`id`) and the number of barriers added before it (`gen`).
  The protocol never reads these two; it sees only the one-bit `color`.
 */
module Barrier {

  // QUEUE_ORDSEQ_*, as bit positions.
  const STARTED: nat := 0
  const DRAIN: nat := 1
  const PREFLUSH: nat := 2
  const BAR: nat := 3
  const POSTFLUSH: nat := 4
  const DONE: nat := 5

  // Fs: a file system request.  The other three are the queue's own proxy requests.
  datatype Kind = Fs | PreFlush | Bar | PostFlush

  datatype Request = Request(
    kind: Kind, id: nat, gen: nat,
    color: bool, barrier: bool, empty: bool, soft: bool, started: bool, sector: nat)

  datatype Mode = Unordered | Draining(preflush: bool, postflush: bool)

  // What has happened, in order.
  datatype Event =
    | Added(id: nat, barrier: bool)
    | Issued(id: nat)               // an fs request is handed to the driver
    | Completed(id: nat)            // an fs request is completed
    | ProxyIssued(id: nat, phase: nat)  // a proxy of barrier id is handed to the driver
    | Absorbed(id: nat)             // the placeholder of an empty barrier is ended
    | PhaseDone(id: nat, phase: nat)
    | PhaseSkipped(id: nat, phase: nat) // at the start: the queue's mode has no such flush
    | Ended(id: nat)                // the original barrier request is ended
    | Rejected(id: nat)             // ended with -EOPNOTSUPP: the queue is unordered

  datatype Queue = Queue(
    head: seq<Request>,      // queue_head, the dispatch queue
    sched: seq<Request>,     // held by the I/O scheduler
    driver: seq<Request>,    // dequeued and not yet completed
    inFlight: nat,
    ordseq: set<nat>,
    nextOrdered: Mode,
    ordcolor: bool,
    orig: Request,           // orig_bar_rq
    added: seq<bool>,        // barrier flags, by id
    epoch: nat,              // barriers ended
    epochs: nat,             // barriers added
    log: seq<Event>)

  // ----- list surgery

  function InsertAt(s: seq<Request>, k: nat, r: Request): seq<Request>
    requires k <= |s|
  {
    s[..k] + [r] + s[k..]
  }

  function RemoveAt(s: seq<Request>, i: nat): seq<Request>
    requires i < |s|
  {
    s[..i] + s[i + 1..]
  }

  // ----- the sequence bits

  // blk_ordered_cur_seq: the lowest bit not yet set.
  function CurSeq(ordseq: set<nat>): nat {
    if STARTED !in ordseq then STARTED
    else if DRAIN !in ordseq then DRAIN
    else if PREFLUSH !in ordseq then PREFLUSH
    else if BAR !in ordseq then BAR
    else if POSTFLUSH !in ordseq then POSTFLUSH
    else DONE
  }

  function PhaseOf(k: Kind): nat {
    match k
    case Fs => DRAIN
    case PreFlush => PREFLUSH
    case Bar => BAR
    case PostFlush => POSTFLUSH
  }

  // blk_ordered_req_seq: proxies by identity, others by colour.
  function ReqSeq(q: Queue, r: Request): nat {
    if r.kind != Fs then PhaseOf(r.kind)
    else if r.color == q.orig.color then DRAIN
    else DONE
  }

  predicate Sequencing(q: Queue) { q.ordseq != {} }

  // blk_account_rq: started fs requests, the barrier proxy included.
  predicate Accounted(r: Request) { r.started && (r.kind == Fs || r.kind == Bar) }

  // A request that elv_dispatch_sort may not pass.
  predicate Fixed(r: Request) { r.soft || r.barrier || r.started }

  // ----- steps

  function NewRequest(q: Queue, barrier: bool, empty: bool, soft: bool, sector: nat): Request {
    Request(Fs, |q.added|, q.epochs, q.ordcolor, barrier, empty, soft, false, sector)
  }

  function Record(q: Queue, barrier: bool): Queue {
    q.(added := q.added + [barrier], log := q.log + [Added(|q.added|, barrier)])
  }

  // __elv_add_request, sort insertion of an ordinary request.
  function AddSorted(q: Queue, sector: nat): Queue {
    Record(q.(sched := q.sched + [NewRequest(q, false, false, false, sector)]), false)
  }

  // __elv_add_request, back insertion; a barrier always goes to the back and toggles
  // the colour.  The I/O scheduler has been drained.
  function AddBack(q: Queue, barrier: bool, empty: bool, sector: nat): Queue
    requires q.sched == []
  {
    var q1 := Record(q.(head := q.head + [NewRequest(q, barrier, empty, true, sector)]), barrier);
    if barrier then q1.(ordcolor := !q.ordcolor, epochs := q.epochs + 1) else q1
  }

  // The I/O scheduler moves its request i to position k of the dispatch queue.
  function Dispatch(q: Queue, i: nat, k: nat): Queue
    requires i < |q.sched| && k <= |q.head|
  {
    q.(head := InsertAt(q.head, k, q.sched[i]), sched := RemoveAt(q.sched, i))
  }

  function BarProxy(orig: Request): Request {
    Request(Bar, orig.id, orig.gen, false, true, orig.empty, true, false, orig.sector)
  }

  function FlushProxy(orig: Request, k: Kind): Request {
    Request(k, orig.id, orig.gen, false, true, false, true, false, 0)
  }

  function Skipped(orig: Request, mode: Mode, inFlight: nat): set<nat>
    requires mode.Draining?
  {
    (if mode.postflush && !orig.empty then {} else {POSTFLUSH})
    + (if mode.preflush then {} else {PREFLUSH})
    + (if inFlight == 0 then {DRAIN} else {})
  }

  function SkippedLog(orig: Request, mode: Mode, inFlight: nat): seq<Event>
    requires mode.Draining?
  {
    (if mode.postflush && !orig.empty then [] else [PhaseSkipped(orig.id, POSTFLUSH)])
    + (if mode.preflush then [] else [PhaseSkipped(orig.id, PREFLUSH)])
    + (if inFlight == 0 then [PhaseDone(orig.id, DRAIN)] else [])
  }

  function Proxies(orig: Request, mode: Mode): seq<Request>
    requires mode.Draining?
  {
    (if mode.preflush then [FlushProxy(orig, PreFlush)] else [])
    + [BarProxy(orig)]
    + (if mode.postflush && !orig.empty then [FlushProxy(orig, PostFlush)] else [])
  }

  // start_ordered: the barrier at the head is replaced by its proxies.
  function StartOrdered(q: Queue): Queue
    requires q.head != [] && q.nextOrdered.Draining?
  {
    var orig := q.head[0];
    q.(orig := orig,
       head := Proxies(orig, q.nextOrdered) + q.head[1..],
       ordseq := {STARTED} + Skipped(orig, q.nextOrdered, q.inFlight),
       log := q.log + SkippedLog(orig, q.nextOrdered, q.inFlight))
  }

  // blk_do_ordered on an unordered queue ends the barrier with -EOPNOTSUPP.
  function RejectBarrier(q: Queue): Queue
    requires q.head != []
  {
    q.(head := q.head[1..], epoch := q.epoch + 1, log := q.log + [Rejected(q.head[0].id)])
  }

  // elv_next_request marks the request at the head and hands it out.
  function HandOut(q: Queue): Queue
    requires q.head != []
  {
    var r := q.head[0];
    q.(head := [r.(started := true)] + q.head[1..],
       log := q.log + [if r.kind == Fs then Issued(r.id) else ProxyIssued(r.id, PhaseOf(r.kind))])
  }

  function PhaseSet(q: Queue, phase: nat): Queue {
    q.(ordseq := q.ordseq + {phase}, log := q.log + [PhaseDone(q.orig.id, phase)])
  }

  function SequenceOver(q: Queue): Queue {
    q.(ordseq := {}, epoch := q.epoch + 1, log := q.log + [Ended(q.orig.id)])
  }

  // blk_ordered_complete_seq, with its BUG_ON as the requirement.
  function CompleteSeq(q: Queue, phase: nat): Queue
    requires phase !in q.ordseq
  {
    var q1 := PhaseSet(q, phase);
    if CurSeq(q1.ordseq) != DONE then q1 else SequenceOver(q1)
  }

  // The drain check at the end of elv_completed_request.
  function DrainCheck(q: Queue): Queue
    requires Sequencing(q) && q.inFlight == 0 && CurSeq(q.ordseq) == DRAIN ==> q.head != []
  {
    if Sequencing(q) && q.inFlight == 0 && CurSeq(q.ordseq) == DRAIN && ReqSeq(q, q.head[0]) > DRAIN
    then CompleteSeq(q, DRAIN)
    else q
  }

  // The empty barrier placeholder is dequeued and ended without the driver seeing it.
  function KillEmpty(q: Queue): Queue
    requires q.head != [] && BAR !in q.ordseq
  {
    CompleteSeq(q.(head := q.head[1..], log := q.log + [Absorbed(q.head[0].id)]), BAR)
  }

  // elv_dequeue_request
  function Dequeue(q: Queue, i: nat): Queue
    requires i < |q.head|
  {
    var r := q.head[i];
    q.(head := RemoveAt(q.head, i), driver := q.driver + [r],
       inFlight := if Accounted(r) then q.inFlight + 1 else q.inFlight)
  }

  function Undriven(q: Queue, i: nat): Queue
    requires i < |q.driver| && (Accounted(q.driver[i]) ==> q.inFlight > 0)
  {
    q.(driver := RemoveAt(q.driver, i),
       inFlight := if Accounted(q.driver[i]) then q.inFlight - 1 else q.inFlight)
  }

  // The counter can be decremented, a head that is looked at exists, and a proxy's
  // phase bit is not yet set.
  predicate CompletionSafe(q: Queue, i: nat)
    requires i < |q.driver|
  {
    && (Accounted(q.driver[i]) ==> q.inFlight > 0)
    && (Sequencing(q) && CurSeq(q.ordseq) == DRAIN ==> q.head != [])
    && (q.driver[i].kind != Fs ==>
          Sequencing(q) && CurSeq(q.ordseq) != DRAIN && PhaseOf(q.driver[i].kind) !in q.ordseq)
  }

  // elv_completed_request, and for the proxies the *_end_io functions.
  function Complete(q: Queue, i: nat): Queue
    requires i < |q.driver| && CompletionSafe(q, i)
  {
    var r, q1 := q.driver[i], Undriven(q, i);
    if r.kind == Fs then DrainCheck(q1.(log := q1.log + [Completed(r.id)]))
    else CompleteSeq(DrainCheck(q1), PhaseOf(r.kind))
  }

  // The first position whose sequence number is not below `s`.
  function FirstAtLeast(q: Queue, h: seq<Request>, s: nat): (k: nat)
    ensures k <= |h|
    ensures forall i :: 0 <= i < k ==> ReqSeq(q, h[i]) < s
    ensures k < |h| ==> ReqSeq(q, h[k]) >= s
  {
    if h == [] || ReqSeq(q, h[0]) >= s then 0 else 1 + FirstAtLeast(q, h[1..], s)
  }

  // elv_requeue_request: to the front, or in sequence order while a sequence runs.
  function Requeue(q: Queue, i: nat): Queue
    requires i < |q.driver| && (Accounted(q.driver[i]) ==> q.inFlight > 0)
  {
    var r := q.driver[i].(started := false, soft := true);
    var k := if Sequencing(q) then FirstAtLeast(q, q.head, ReqSeq(q, r)) else 0;
    Undriven(q, i).(head := InsertAt(q.head, k, r))
  }

  datatype Action =
    | DoAddSorted(sector: nat)
    | DoAddBack(barrier: bool, empty: bool, sector: nat)
    | DoDispatch(i: nat, k: nat)
    | DoNext
    | DoDequeue(i: nat)
    | DoComplete(i: nat)
    | DoRequeue(i: nat)
    | DoSetOrdered(mode: Mode)

  // Whether elv_next_request looks at a head it may hand out now.
  predicate Ready(q: Queue) {
    && q.head != []
    && (if Sequencing(q) then ReqSeq(q, q.head[0]) <= CurSeq(q.ordseq) else !q.head[0].barrier)
  }

  predicate EmptyBarrier(r: Request) { r.barrier && r.empty && (r.kind == Fs || r.kind == Bar) }

  // elv_next_request's last part: the placeholder is killed, anything else handed out.
  function Deliver(q: Queue): Queue
    requires q.head != [] && (EmptyBarrier(q.head[0]) ==> BAR !in q.ordseq)
  {
    if EmptyBarrier(q.head[0]) then KillEmpty(q) else HandOut(q)
  }

  // Only a placeholder whose phase is still open is ever killed.
  predicate NextSafe(q: Queue) {
    Ready(q) && EmptyBarrier(q.head[0]) ==> BAR !in q.ordseq
  }

  // One turn of elv_next_request and blk_do_ordered on the head of the queue.
  function Next(q: Queue): Queue
    requires NextSafe(q)
  {
    if q.head == [] then q
    else if Sequencing(q) then
      if Ready(q) then Deliver(q) else q
    else if !q.head[0].barrier then Deliver(q)
    else if q.nextOrdered == Unordered then RejectBarrier(q)
    else
      var q1 := StartOrdered(q);
      if q.inFlight == 0 then Deliver(q1) else q1
  }

  // What the driver and the I/O scheduler may do.
  predicate Enabled(q: Queue, a: Action) {
    match a
    case DoAddSorted(_) => true
    case DoAddBack(_, _, _) => q.sched == []
    case DoDispatch(i, k) =>
      && i < |q.sched| && k <= |q.head|
      && forall j :: k <= j < |q.head| ==> !Fixed(q.head[j])
    case DoNext => true
    case DoDequeue(i) => i < |q.head| && q.head[i].started
    case DoComplete(i) => i < |q.driver|
    case DoRequeue(i) => i < |q.driver|
    case DoSetOrdered(_) => true
  }

  // No BUG_ON fires, no counter underflows and no missing list head is read.
  predicate NoFault(q: Queue, a: Action)
    requires Enabled(q, a)
  {
    match a
    case DoNext => NextSafe(q)
    case DoComplete(i) => CompletionSafe(q, i)
    case DoRequeue(i) => Accounted(q.driver[i]) ==> q.inFlight > 0
    case _ => true
  }

  function Apply(q: Queue, a: Action): Queue
    requires Enabled(q, a) && NoFault(q, a)
  {
    match a
    case DoAddSorted(sector) => AddSorted(q, sector)
    case DoAddBack(barrier, empty, sector) => AddBack(q, barrier, empty, sector)
    case DoDispatch(i, k) => Dispatch(q, i, k)
    case DoNext => Next(q)
    case DoDequeue(i) => Dequeue(q, i)
    case DoComplete(i) => Complete(q, i)
    case DoRequeue(i) => Requeue(q, i)
    case DoSetOrdered(mode) => q.(nextOrdered := mode)
  }
}
