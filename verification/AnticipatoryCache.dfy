/**
  The anticipatory scheduler's choice of the next request: an order on sectors around
  the disk head, a cached minimum, and updates that look only at the neighbours of a
  removed request in the sort tree.  A line is the requests of one direction, by the
  sectors at which they start.
 */
module AnticipatoryCache {
  import opened Sets

  const MAXBACK: nat := 1024 * 1024
  const BACK_PENALTY: nat := 2

  // ----- the order

  // Too far behind the head to go back for.
  predicate Wraps(last: nat, s: nat) { s + MAXBACK < last }

  function Distance(last: nat, s: nat): nat {
    if s >= last then s - last else (last - s) * BACK_PENALTY
  }

  // as_choose_req of two requests.
  function Choose(last: nat, s1: nat, s2: nat): (r: nat)
    ensures r == s1 || r == s2
  {
    var d1 := if Wraps(last, s1) then 0 else Distance(last, s1);
    var d2 := if Wraps(last, s2) then 0 else Distance(last, s2);
    if !Wraps(last, s1) && Wraps(last, s2) then s1
    else if !Wraps(last, s2) && Wraps(last, s1) then s2
    else if Wraps(last, s1) && Wraps(last, s2) then (if s1 <= s2 then s1 else s2)
    else if d1 < d2 then s1
    else if d2 < d1 then s2
    else if s1 >= s2 then s1 else s2
  }

  predicate Better(last: nat, a: nat, b: nat) { a != b && Choose(last, a, b) == a }

  // The choice does not depend on the order of its arguments, and is a strict total order.
  lemma ChoiceIsOrder(last: nat, a: nat, b: nat, c: nat)
    ensures Choose(last, a, b) == Choose(last, b, a)
    ensures a == b || (Better(last, a, b) <==> !Better(last, b, a))
    ensures Better(last, a, b) && Better(last, b, c) ==> Better(last, a, c)
  {
  }

  // What it means: of two ahead of the head the nearer; one behind it, within reach, only if
  // twice its distance is less; one out of reach only when both are, and then the lowest.
  lemma ChoiceMeans(last: nat, a: nat, b: nat)
    requires a < b
    ensures last <= a ==> Better(last, a, b)
    ensures a < last <= b ==> (Better(last, a, b) <==> a + MAXBACK >= last && 2 * (last - a) < b - last)
    ensures b < last ==> (Better(last, a, b) <==> b + MAXBACK < last)
  {
  }

  function ChooseOf(last: nat, a: Option<nat>, b: Option<nat>): Option<nat> {
    if a.None? || a == b then b else if b.None? then a else Some(Choose(last, a.value, b.value))
  }

  // ----- the line

  // as_find_next_arq.
  function FindNext(line: set<nat>, s: nat, last: nat): Option<nat>
    requires s in line
  {
    var after := Succ(line, s);
    var next := if after.Some? then after else if Least(line) == s then None else Some(Least(line));
    ChooseOf(last, next, Pred(line, s))
  }

  // m is the first of the line in the order of choice.
  ghost predicate Best(line: set<nat>, last: nat, m: Option<nat>) {
    && (m.None? <==> line == {})
    && (m.Some? ==> m.value in line && forall x :: x in line ==> x == m.value || Better(last, m.value, x))
  }

  // Whatever is found is in the line without s, and nothing only when that is empty.
  lemma FindNextInLine(line: set<nat>, s: nat, last: nat)
    requires s in line
    ensures var r := FindNext(line, s, last);
            (r.None? <==> line - {s} == {}) && (r.Some? ==> r.value in line - {s})
  {
    var r := FindNext(line, s, last);
    if r.None? {
      forall x | x in line ensures x == s {
      }
    }
  }

  // ----- additions

  // as_update_arq after an insertion.
  lemma AddedBest(line: set<nat>, last: nat, m: Option<nat>, s: nat)
    requires Best(line, last, m) && s !in line
    ensures Best(line + {s}, last, ChooseOf(last, Some(s), m))
  {
    if m.Some? {
      ChoiceIsOrder(last, s, m.value, m.value);
      forall x | x in line ensures x == m.value || Better(last, ChooseOf(last, Some(s), m).value, x) || x == s {
        ChoiceIsOrder(last, s, m.value, x);
      }
    }
  }

  // ----- removals

  // A removal that leaves the cached request alone.
  lemma OtherRemovedBest(line: set<nat>, last: nat, m: Option<nat>, s: nat)
    requires Best(line, last, m) && s in line && m != Some(s)
    ensures Best(line - {s}, last, m)
  {
    assert m.value in line - {s};
  }

  // Removing the cached request: its neighbours, or the lowest request, hold the next
  // best, however the requests lie around the head.
  lemma CachedRemovedBest(line: set<nat>, last: nat, s: nat)
    requires Best(line, last, Some(s))
    ensures Best(line - {s}, last, FindNext(line, s, last))
  {
    FindNextInLine(line, s, last);
    var r := FindNext(line, s, last);
    if r.Some? {
      forall x | x in line - {s} ensures x == r.value || Better(last, r.value, x) {
        assert Better(last, s, x);
        assert Better(last, s, r.value);
      }
    }
  }

  // ----- dispatch

  // The request after s starts no earlier than where s ends.
  predicate NothingInside(line: set<nat>, s: nat, end: nat) {
    Succ(line, s).None? || Succ(line, s).value >= end
  }

  // A request starts inside the dispatched one, but is still what should come next.
  predicate InsideIsBest(line: set<nat>, s: nat, end: nat) {
    Succ(line, s).Some? &&
    var b := Succ(line, s).value;
    b < end &&
    if !Wraps(end, b) then
      Succ(line, b).None? || (Succ(line, b).value >= end && (end - b) * BACK_PENALTY < Succ(line, b).value - end)
    else
      (forall x :: x in line && x > s ==> Wraps(end, x)) && (Pred(line, s).None? || Pred(line, s).value == Least(line))
  }

  // With nothing inside, looking at the neighbours finds the best for the new head.
  lemma DispatchedBest(line: set<nat>, s: nat, end: nat)
    requires s in line && s <= end && NothingInside(line, s, end)
    ensures Best(line - {s}, end, FindNext(line, s, end))
  {
    FindNextInLine(line, s, end);
    var r := FindNext(line, s, end);
    if r.Some? {
      forall x | x in line - {s} ensures x == r.value || Better(end, r.value, x) {
      }
    }
  }

  // With something inside, the neighbours miss the best exactly when the first request
  // inside is not it.
  lemma DispatchedBestExactly(line: set<nat>, s: nat, end: nat)
    requires s in line && s <= end
    ensures Best(line - {s}, end, FindNext(line, s, end)) <==> NothingInside(line, s, end) || InsideIsBest(line, s, end)
  {
    if NothingInside(line, s, end) {
      DispatchedBest(line, s, end);
    } else {
      FindNextInLine(line, s, end);
      var b := Succ(line, s).value;
      if Wraps(end, b) { AllBehind(line, s, end, b); } else { ReachInside(line, s, end, b); }
    }
  }

  lemma ReachInside(line: set<nat>, s: nat, end: nat, b: nat)
    requires s in line && Succ(line, s) == Some(b) && b < end && !Wraps(end, b)
    ensures Best(line - {s}, end, FindNext(line, s, end)) <==> InsideIsBest(line, s, end)
  {
    FindNextInLine(line, s, end);
    assert FindNext(line, s, end) == Some(b);
    if InsideIsBest(line, s, end) {
      forall x | x in line - {s} ensures x == b || Better(end, b, x) {
      }
    } else {
      var z := Succ(line, b).value;
      assert z in line - {s} && !Better(end, b, z);
    }
  }

  lemma AllBehind(line: set<nat>, s: nat, end: nat, b: nat)
    requires s in line && Succ(line, s) == Some(b) && b < end && Wraps(end, b)
    ensures Best(line - {s}, end, FindNext(line, s, end)) <==> InsideIsBest(line, s, end)
  {
    FindNextInLine(line, s, end);
    var r := FindNext(line, s, end).value;
    assert r == if Pred(line, s).Some? then Pred(line, s).value else b;
    if InsideIsBest(line, s, end) {
      forall x | x in line - {s} ensures x == r || Better(end, r, x) {
      }
    } else if exists x :: x in line && x > s && !Wraps(end, x) {
      var x :| x in line && x > s && !Wraps(end, x);
      assert x in line - {s} && !Better(end, r, x);
    } else {
      assert Least(line) in line - {s} && !Better(end, r, Least(line));
    }
  }

  // A request that starts inside the one dispatched can hide a nearer one.
  lemma InsideStartMisleads()
    ensures var line := {10, 12, 19};
            FindNext(line, 10, 20) == Some(12) && !Best(line - {10}, 20, Some(12))
  {
    var line: set<nat> := {10, 12, 19};
    assert Succ(line, 10) == Some(12) && Pred(line, 10) == None;
    assert 19 in line - {10} && !Better(20, 12, 19);
  }

  // ----- front merges

  // The cached request after the one that started at s starts at s' instead.
  function Renamed(m: Option<nat>, s: nat, s': nat): Option<nat> { if m == Some(s) then Some(s') else m }

  // A front merge moves a request without looking at the cache, which is then right
  // exactly when one comparison says so: with the runner-up if the cached request moved,
  // with the moved one if not.
  lemma FrontMergedBestExactly(line: set<nat>, last: nat, m: Option<nat>, s: nat, s': nat)
    requires Best(line, last, m) && s in line && s' !in line
    ensures Best(line - {s} + {s'}, last, Renamed(m, s, s')) <==>
              if m == Some(s) then FindNext(line, s, last).None? || Better(last, s', FindNext(line, s, last).value)
              else Better(last, m.value, s')
  {
    if m == Some(s) {
      CachedRemovedBest(line, last, s);
      var r := FindNext(line, s, last);
      forall x | r.Some? && x in line - {s} ensures x == r.value || (Better(last, s', r.value) ==> Better(last, s', x)) {
        ChoiceIsOrder(last, s', r.value, x);
      }
    }
  }

  // A front merge onto a sector where another request starts dispatches that one first,
  // while the merged request is out of the line.  The cache is then right exactly if it
  // was found right without it and one comparison with it says so.
  lemma MergedOntoBestExactly(line: set<nat>, s: nat, s': nat, end: nat)
    requires s in line && s' in line && s != s' && s' <= end
    ensures var others := line - {s};
            var m := FindNext(others, s', end);
            Best(others, end, m) <==>
              && m.Some? && (NothingInside(others, s', end) || InsideIsBest(others, s', end))
              && Better(end, m.value, s')
  {
    var others := line - {s};
    var m := FindNext(others, s', end);
    DispatchedBestExactly(others, s', end);
    FindNextInLine(others, s', end);
    assert others == others - {s'} + {s'};
  }

  lemma FrontMergeMisleads()
    ensures var line := {100, 300};
            Best(line, 100, Some(100)) && !Best(line - {100} + {0}, 100, Renamed(Some(100), 100, 0))
  {
    assert 300 in {100, 300} - {100} + {0} && !Better(100, 0, 300);
  }

  // ----- runs

  // One direction: where its requests start, the head, and the cached request.
  datatype Line = Line(starts: set<nat>, last: nat, next: Option<nat>)

  datatype LineEvent = Insert(s: nat) | Dispatch(s: nat, end: nat) | Remove(s: nat)

  ghost predicate Fits(l: Line, e: LineEvent) {
    match e
    case Insert(s) => s !in l.starts
    case Dispatch(s, end) => s in l.starts && s <= end && NothingInside(l.starts, s, end)
    case Remove(s) => s in l.starts
  }

  function LineStep(l: Line, e: LineEvent): Line
    requires !e.Insert? ==> e.s in l.starts
  {
    match e
    case Insert(s) => l.(starts := l.starts + {s}, next := ChooseOf(l.last, Some(s), l.next))
    case Dispatch(s, end) => Line(l.starts - {s}, end, FindNext(l.starts, s, end))
    case Remove(s) => l.(starts := l.starts - {s}, next := if l.next == Some(s) then FindNext(l.starts, s, l.last) else l.next)
  }

  ghost predicate Cached(l: Line) { Best(l.starts, l.last, l.next) }

  lemma LineStepKeeps(l: Line, e: LineEvent)
    requires Cached(l) && Fits(l, e)
    ensures Cached(LineStep(l, e))
  {
    match e
    case Insert(s) => AddedBest(l.starts, l.last, l.next, s);
    case Dispatch(s, end) => DispatchedBest(l.starts, s, end);
    case Remove(s) =>
      if l.next == Some(s) { CachedRemovedBest(l.starts, l.last, s); } else { OtherRemovedBest(l.starts, l.last, l.next, s); }
  }

  ghost predicate LineRun(l: Line, es: seq<LineEvent>)
    decreases |es|
  {
    es == [] || (Fits(l, es[0]) && LineRun(LineStep(l, es[0]), es[1..]))
  }

  function LineAfter(l: Line, es: seq<LineEvent>): Line
    requires LineRun(l, es)
    decreases |es|
  {
    if es == [] then l else LineAfter(LineStep(l, es[0]), es[1..])
  }

  // However requests come and go, the cached request is the best of all queued, though
  // only neighbours were ever looked at.
  lemma {:induction false} CacheIsAlwaysBest(l: Line, es: seq<LineEvent>)
    requires Cached(l) && LineRun(l, es)
    ensures Cached(LineAfter(l, es))
    decreases |es|
  {
    if es != [] {
      LineStepKeeps(l, es[0]);
      CacheIsAlwaysBest(LineStep(l, es[0]), es[1..]);
    }
  }
}
