/**
  Event delivery between the hypervisor and a Mini-OS guest, step by step.  Two
  levels of bits are shared: a pending and a mask bit per port, and a selector
  bit per word of ports, with one upcall flag on top.  Every access that the
  code makes to a shared word is one step; any activity may take the next step.
 */
module EventChannel {
  import opened Sets

  const BITS_PER_WORD: nat := 64

  function Word(port: nat): nat { port / BITS_PER_WORD }

  // A running activity of the guest: a callback or an unmask, at its next access.
  datatype Frame =
    | Entered                                        // before the upcall flag is cleared
    | Exchanging                                     // before the selector is fetched and zeroed
    | Scanning(l1: set<nat>)                         // words still to be scanned
    | ReadPending(l1: set<nat>, word: nat)           // before pending[word] is read
    | ReadMask(l1: set<nat>, word: nat, seen: set<nat>)  // before mask[word] is read
    | Clearing(l1: set<nat>, word: nat, port: nat)   // do_event, before the pending bit is cleared
    | Handling(l1: set<nat>, word: nat, port: nat)   // the port's handler runs
    | UnmaskClear(port: nat)                         // before the mask bit is cleared
    | UnmaskTest(port: nat)                          // before the pending bit is tested
    | UnmaskSelect(port: nat)                        // before the selector bit is tested and set
    | UnmaskUpcall                                   // before the upcall flag is set

  // evtchn_set_pending in the hypervisor, at its next access.
  datatype Raise =
    | RaiseStart(port: nat)
    | RaiseTest(port: nat)
    | RaiseSelect(port: nat)
    | RaiseUpcall

  datatype State = State(
    pending: set<nat>, mask: set<nat>, sel: set<nat>, upcall: bool,
    frames: seq<Frame>, raises: seq<Raise>)

  datatype Action =
    | StepFrame(i: nat)
    | StepRaise(i: nat)
    | BeginCallback           // an upcall is delivered, or a callback is forced
    | BeginUnmask(port: nat)
    | MaskPort(port: nat)
    | ClearPort(port: nat)
    | BeginRaise(port: nat)

  function InWord(ports: set<nat>, word: nat): set<nat> {
    set p | p in ports && Word(p) == word
  }

  function ReplaceFrame(s: State, i: nat, f: Frame): State
    requires i < |s.frames|
  {
    s.(frames := s.frames[i := f])
  }

  function EndFrame(s: State, i: nat): State
    requires i < |s.frames|
  {
    s.(frames := s.frames[..i] + s.frames[i + 1..])
  }

  function ReplaceRaise(s: State, i: nat, r: Raise): State
    requires i < |s.raises|
  {
    s.(raises := s.raises[i := r])
  }

  function EndRaise(s: State, i: nat): State
    requires i < |s.raises|
  {
    s.(raises := s.raises[..i] + s.raises[i + 1..])
  }

  // The next access of guest activity i.
  function FrameStep(s: State, i: nat): State
    requires i < |s.frames|
  {
    match s.frames[i]
    case Entered => ReplaceFrame(s.(upcall := false), i, Exchanging)
    case Exchanging => ReplaceFrame(s.(sel := {}), i, Scanning(s.sel))
    case Scanning(l1) =>
      if l1 == {} then EndFrame(s, i)
      else ReplaceFrame(s, i, ReadPending(l1 - {Least(l1)}, Least(l1)))
    case ReadPending(l1, w) => ReplaceFrame(s, i, ReadMask(l1, w, InWord(s.pending, w)))
    case ReadMask(l1, w, seen) =>
      if seen - s.mask == {} then ReplaceFrame(s, i, Scanning(l1))
      else ReplaceFrame(s, i, Clearing(l1, w, Least(seen - s.mask)))
    case Clearing(l1, w, port) =>
      ReplaceFrame(s.(pending := s.pending - {port}), i, Handling(l1, w, port))
    case Handling(l1, w, port) => ReplaceFrame(s, i, ReadPending(l1, w))
    case UnmaskClear(port) => ReplaceFrame(s.(mask := s.mask - {port}), i, UnmaskTest(port))
    case UnmaskTest(port) =>
      if port in s.pending then ReplaceFrame(s, i, UnmaskSelect(port)) else EndFrame(s, i)
    case UnmaskSelect(port) =>
      if Word(port) in s.sel then EndFrame(s, i)
      else ReplaceFrame(s.(sel := s.sel + {Word(port)}), i, UnmaskUpcall)
    case UnmaskUpcall => EndFrame(s.(upcall := true), i)
  }

  // The next access of raise i.
  function RaiseStep(s: State, i: nat): State
    requires i < |s.raises|
  {
    match s.raises[i]
    case RaiseStart(port) =>
      if port in s.pending then EndRaise(s, i)
      else ReplaceRaise(s.(pending := s.pending + {port}), i, RaiseTest(port))
    case RaiseTest(port) =>
      if port in s.mask then EndRaise(s, i) else ReplaceRaise(s, i, RaiseSelect(port))
    case RaiseSelect(port) =>
      if Word(port) in s.sel then EndRaise(s, i)
      else ReplaceRaise(s.(sel := s.sel + {Word(port)}), i, RaiseUpcall)
    case RaiseUpcall => EndRaise(s.(upcall := true), i)
  }

  predicate Enabled(s: State, a: Action) {
    match a
    case StepFrame(i) => i < |s.frames|
    case StepRaise(i) => i < |s.raises|
    case _ => true
  }

  function Apply(s: State, a: Action): State
    requires Enabled(s, a)
  {
    match a
    case StepFrame(i) => FrameStep(s, i)
    case StepRaise(i) => RaiseStep(s, i)
    case BeginCallback => s.(frames := s.frames + [Entered])
    case BeginUnmask(port) => s.(frames := s.frames + [UnmaskClear(port)])
    case MaskPort(port) => s.(mask := s.mask + {port})
    case ClearPort(port) => s.(pending := s.pending - {port})
    case BeginRaise(port) => s.(raises := s.raises + [RaiseStart(port)])
  }

  // ----- no lost events

  // This activity will still look at the port before it ends.
  predicate FrameCovers(f: Frame, port: nat) {
    match f
    case Scanning(l1) => Word(port) in l1
    case ReadPending(l1, w) => Word(port) in l1 || Word(port) == w
    case ReadMask(l1, w, seen) => Word(port) in l1 || (Word(port) == w && port in seen)
    case Clearing(l1, w, _) => Word(port) in l1 || Word(port) == w
    case Handling(l1, w, _) => Word(port) in l1 || Word(port) == w
    case UnmaskTest(p) => p == port
    case UnmaskSelect(p) => p == port
    case _ => false
  }

  predicate RaiseCovers(r: Raise, port: nat) {
    r == RaiseTest(port) || r == RaiseSelect(port)
  }

  ghost predicate Covered(s: State, port: nat) {
    || Word(port) in s.sel
    || (exists f :: f in s.frames && FrameCovers(f, port))
    || (exists r :: r in s.raises && RaiseCovers(r, port))
  }

  // A port that is pending and not masked is covered.
  ghost predicate PortsCovered(s: State) {
    forall port :: port in s.pending && port !in s.mask ==> Covered(s, port)
  }

  // A selected word has an upcall pending or about to be.
  ghost predicate UpcallCovered(s: State) {
    s.sel != {} ==> s.upcall || Exchanging in s.frames || UnmaskUpcall in s.frames || RaiseUpcall in s.raises
  }

  ghost predicate Inv(s: State) { PortsCovered(s) && UpcallCovered(s) }

  // The covering activities after one of them has moved on.

  lemma FrameReplaced(fs: seq<Frame>, i: nat, f: Frame)
    requires i < |fs|
    ensures f in fs[i := f]
    ensures forall g :: g in fs && g != fs[i] ==> g in fs[i := f]
  {
    assert fs[i := f][i] == f;
    forall g | g in fs && g != fs[i] ensures g in fs[i := f] {
      var j :| 0 <= j < |fs| && fs[j] == g;
      assert fs[i := f][j] == g;
    }
  }

  lemma FrameRemoved(fs: seq<Frame>, i: nat)
    requires i < |fs|
    ensures forall g :: g in fs && g != fs[i] ==> g in fs[..i] + fs[i + 1..]
  {
    assert fs == fs[..i] + [fs[i]] + fs[i + 1..];
  }

  lemma RaiseReplaced(rs: seq<Raise>, i: nat, r: Raise)
    requires i < |rs|
    ensures r in rs[i := r]
    ensures forall g :: g in rs && g != rs[i] ==> g in rs[i := r]
  {
    assert rs[i := r][i] == r;
    forall g | g in rs && g != rs[i] ensures g in rs[i := r] {
      var j :| 0 <= j < |rs| && rs[j] == g;
      assert rs[i := r][j] == g;
    }
  }

  lemma RaiseRemoved(rs: seq<Raise>, i: nat)
    requires i < |rs|
    ensures forall g :: g in rs && g != rs[i] ==> g in rs[..i] + rs[i + 1..]
  {
    assert rs == rs[..i] + [rs[i]] + rs[i + 1..];
  }

  // What activity i covered, it goes on covering, or the selector does.
  lemma OwnCover(s: State, i: nat, port: nat)
    requires i < |s.frames| && FrameCovers(s.frames[i], port)
    requires port in FrameStep(s, i).pending && port !in FrameStep(s, i).mask
    ensures var t := FrameStep(s, i);
            Word(port) in t.sel || (|t.frames| == |s.frames| && FrameCovers(t.frames[i], port))
  {
    match s.frames[i]
    case ReadPending(_, w) => assert Word(port) == w ==> port in InWord(s.pending, w);
    case ReadMask(_, _, seen) => assert port in seen ==> port in seen - s.mask;
    case _ =>
  }

  // What others covered stays covered; the selector is only zeroed into a scan.
  lemma OtherCover(s: State, i: nat)
    requires i < |s.frames|
    ensures var t := FrameStep(s, i);
            && t.raises == s.raises
            && (forall g :: g in s.frames && g != s.frames[i] ==> g in t.frames)
            && (|t.frames| == |s.frames| ==> t.frames[i] in t.frames)
            && (s.sel <= t.sel || (|t.frames| == |s.frames| && t.frames[i] == Scanning(s.sel)))
  {
    var t := FrameStep(s, i);
    FrameRemoved(s.frames, i);
    if |t.frames| == |s.frames| {
      FrameReplaced(s.frames, i, t.frames[i]);
    }
  }

  lemma FrameStepPorts(s: State, i: nat)
    requires PortsCovered(s) && i < |s.frames|
    ensures PortsCovered(FrameStep(s, i))
  {
    var t := FrameStep(s, i);
    OtherCover(s, i);
    forall port | port in t.pending && port !in t.mask ensures Covered(t, port) {
      if port !in s.mask {
        assert Covered(s, port);
        if g :| g in s.frames && FrameCovers(g, port) {
          if g == s.frames[i] { OwnCover(s, i, port); }
        }
      }
    }
  }

  lemma FrameStepUpcall(s: State, i: nat)
    requires UpcallCovered(s) && i < |s.frames|
    ensures UpcallCovered(FrameStep(s, i))
  {
    OtherCover(s, i);
  }

  lemma FrameStepKeeps(s: State, i: nat)
    requires Inv(s) && i < |s.frames|
    ensures Inv(FrameStep(s, i))
  {
    FrameStepPorts(s, i);
    FrameStepUpcall(s, i);
  }

  lemma RaiseStepKeeps(s: State, i: nat)
    requires Inv(s) && i < |s.raises|
    ensures Inv(RaiseStep(s, i))
  {
    var t := RaiseStep(s, i);
    RaiseRemoved(s.raises, i);
    if |t.raises| == |s.raises| {
      RaiseReplaced(s.raises, i, t.raises[i]);
    }
    forall port | port in t.pending && port !in t.mask ensures Covered(t, port) {
      if port in s.pending {
        assert Covered(s, port);
      }
    }
  }

  lemma StepKeeps(s: State, a: Action)
    requires Inv(s) && Enabled(s, a)
    ensures Inv(Apply(s, a))
  {
    var t := Apply(s, a);
    match a
    case StepFrame(i) => FrameStepKeeps(s, i);
    case StepRaise(i) => RaiseStepKeeps(s, i);
    case _ =>
      assert forall f :: f in s.frames ==> f in t.frames;
      assert forall r :: r in s.raises ==> r in t.raises;
      forall port | port in t.pending && port !in t.mask ensures Covered(t, port) {
        assert Covered(s, port);
      }
  }

  ghost predicate RunsTo(s: State, actions: seq<Action>, t: State)
    decreases |actions|
  {
    if actions == [] then t == s
    else Enabled(s, actions[0]) && RunsTo(Apply(s, actions[0]), actions[1..], t)
  }

  lemma {:induction false} RunKeeps(s: State, actions: seq<Action>, t: State)
    requires Inv(s) && RunsTo(s, actions, t)
    ensures Inv(t)
    decreases |actions|
  {
    if actions != [] {
      StepKeeps(s, actions[0]);
      RunKeeps(Apply(s, actions[0]), actions[1..], t);
    }
  }

  // init_events masks every port, and nothing is pending, selected or running.
  ghost predicate Initial(s: State) {
    s.pending <= s.mask && s.sel == {} && s.frames == [] && s.raises == []
  }

  // Over every interleaving: an unmasked pending port is always covered, and when
  // nothing runs and no upcall is pending there is none.
  lemma NoLostEvents(s: State, actions: seq<Action>, t: State)
    requires Initial(s) && RunsTo(s, actions, t)
    ensures PortsCovered(t)
    ensures t.frames == [] && t.raises == [] && !t.upcall ==> t.pending <= t.mask
  {
    RunKeeps(s, actions, t);
    if t.frames == [] && t.raises == [] && !t.upcall {
      forall port | port in t.pending ensures port in t.mask {
        assert port !in t.mask ==> Covered(t, port);
      }
    }
  }
}
