/**
  CFQ's rotation over priority levels.  The levels are visited in passes 0; 0,1; 0,1,2;
  and so on up to all N levels, then from the start.  A slot is a pass and a level in it.
 */
module CfqPriority {
  import opened Sets

  // ----- the order of visits

  // Pass `end` looks at levels 0 to `end`; `prio` is the level it looks at next.
  datatype Slot = Slot(end: nat, prio: nat)

  predicate IsSlot(n: nat, s: Slot) { s.prio <= s.end < n }

  function NextSlot(n: nat, s: Slot): (r: Slot)
    requires IsSlot(n, s)
    ensures IsSlot(n, r)
  {
    if s.prio < s.end then Slot(s.end, s.prio + 1)
    else if s.end + 1 < n then Slot(s.end + 1, 0)
    else Slot(0, 0)
  }

  // Slots in the passes before pass e.
  function Tri(e: nat): nat {
    if e == 0 then 0 else Tri(e - 1) + e
  }

  lemma {:induction false} TriClosed(n: nat)
    ensures 2 * Tri(n) == n * (n + 1)
  {
    if n > 0 { TriClosed(n - 1); }
  }

  lemma {:induction false} TriGrows(a: nat, b: nat)
    requires a <= b
    ensures Tri(a) + b - a <= Tri(b)
    ensures a < b ==> Tri(a) + b <= Tri(b)
  {
    if a < b { TriGrows(a, b - 1); }
  }

  // How many slots lie between s and the next visit to `level`.
  function Lag(n: nat, s: Slot, level: nat): (r: int)
    requires IsSlot(n, s) && level < n
  {
    if s.prio <= level <= s.end then level - s.prio
    else if s.end + 1 < n || level > s.end then
      Tri(if level > s.end then level else s.end + 1) + level - Tri(s.end) - s.prio
    else Tri(n) - Tri(s.end) - s.prio + Tri(level) + level
  }

  lemma LagBounds(n: nat, s: Slot, level: nat)
    requires IsSlot(n, s) && level < n
    ensures 0 <= Lag(n, s, level) < Tri(n)
    ensures Lag(n, s, level) == 0 <==> s.prio == level
  {
    TriGrows(s.end, n - 1);
    if s.prio <= level <= s.end {
      TriGrows(level, n - 1);
    } else if s.end + 1 < n || level > s.end {
      var e := if level > s.end then level else s.end + 1;
      TriGrows(s.end, e);
      TriGrows(e, n - 1);
    } else {
      TriGrows(level, n - 2);
    }
  }

  lemma LagStep(n: nat, s: Slot, level: nat)
    requires IsSlot(n, s) && level < n && s.prio != level
    ensures Lag(n, NextSlot(n, s), level) == Lag(n, s, level) - 1
  {
  }

  // ----- the search

  predicate InRange(n: nat, busy: set<nat>) { forall p :: p in busy ==> p < n }

  // The first slot from s on whose level has queues.
  function Search(n: nat, s: Slot, busy: set<nat>): (r: Slot)
    requires IsSlot(n, s) && busy != {} && InRange(n, busy)
    ensures IsSlot(n, r) && r.prio in busy
    decreases Lag(n, s, Least(busy))
  {
    if s.prio in busy then s
    else
      LagStep(n, s, Least(busy));
      LagBounds(n, s, Least(busy));
      LagBounds(n, NextSlot(n, s), Least(busy));
      Search(n, NextSlot(n, s), busy)
  }

  // A search comes no further than the next visit to a level that has queues.
  lemma {:induction false} SearchLag(n: nat, s: Slot, busy: set<nat>, level: nat)
    requires IsSlot(n, s) && InRange(n, busy) && level in busy
    ensures var r := Search(n, s, busy);
            if r.prio == level then true else Lag(n, NextSlot(n, r), level) < Lag(n, s, level)
    decreases Lag(n, s, level)
  {
    LagBounds(n, s, level);
    if s.prio in busy {
      if s.prio != level { LagStep(n, s, level); }
    } else {
      LagStep(n, s, level);
      LagBounds(n, NextSlot(n, s), level);
      SearchLag(n, NextSlot(n, s), busy, level);
    }
  }

  // ----- runs of picks

  // The slots picked when the levels with queues are as given at each pick.
  function Picks(n: nat, s: Slot, busy: seq<set<nat>>): (r: seq<nat>)
    requires IsSlot(n, s) && forall i :: 0 <= i < |busy| ==> busy[i] != {} && InRange(n, busy[i])
    ensures |r| == |busy|
    decreases |busy|
  {
    if busy == [] then []
    else
      var at := Search(n, s, busy[0]);
      [at.prio] + Picks(n, NextSlot(n, at), busy[1..])
  }

  // A level that keeps having queues is picked within the slots left before its visit.
  lemma {:induction false} PickedWithinLag(n: nat, s: Slot, busy: seq<set<nat>>, level: nat)
    requires IsSlot(n, s) && level < n
    requires forall i :: 0 <= i < |busy| ==> level in busy[i] && InRange(n, busy[i])
    requires |busy| > Lag(n, s, level)
    ensures exists i :: 0 <= i < |busy| && i <= Lag(n, s, level) && Picks(n, s, busy)[i] == level
    decreases |busy|
  {
    LagBounds(n, s, level);
    var at := Search(n, s, busy[0]);
    var rest := Picks(n, NextSlot(n, at), busy[1..]);
    assert Picks(n, s, busy) == [at.prio] + rest;
    if at.prio != level {
      SearchLag(n, s, busy[0], level);
      PickedWithinLag(n, NextSlot(n, at), busy[1..], level);
      var i :| 0 <= i < |rest| && i <= Lag(n, NextSlot(n, at), level) && rest[i] == level;
      assert Picks(n, s, busy)[i + 1] == level;
    } else {
      assert Picks(n, s, busy)[0] == level;
    }
  }

  // Whatever the other levels do, a level that keeps having queues is picked within
  // N(N+1)/2 picks.
  lemma PickedWithinCycle(n: nat, s: Slot, busy: seq<set<nat>>, level: nat)
    requires IsSlot(n, s) && level < n
    requires forall i :: 0 <= i < |busy| ==> level in busy[i] && InRange(n, busy[i])
    requires 2 * |busy| >= n * (n + 1)
    ensures exists i :: 0 <= i < |busy| && 2 * i < n * (n + 1) && Picks(n, s, busy)[i] == level
  {
    TriClosed(n);
    LagBounds(n, s, level);
    PickedWithinLag(n, s, busy, level);
  }

  // ----- all levels busy

  // The levels visited by k slots from s on.
  function Visits(n: nat, s: Slot, k: nat): seq<nat>
    requires IsSlot(n, s)
    decreases k
  {
    if k == 0 then [] else [s.prio] + Visits(n, NextSlot(n, s), k - 1)
  }

  function After(n: nat, s: Slot, k: nat): (r: Slot)
    requires IsSlot(n, s)
    ensures IsSlot(n, r)
    decreases k
  {
    if k == 0 then s else After(n, NextSlot(n, s), k - 1)
  }

  lemma {:induction false} AllBusyVisits(n: nat, s: Slot, busy: seq<set<nat>>)
    requires IsSlot(n, s) && forall i :: 0 <= i < |busy| ==> InRange(n, busy[i]) && forall p: nat :: p < n ==> p in busy[i]
    ensures forall i :: 0 <= i < |busy| ==> busy[i] != {}
    ensures Picks(n, s, busy) == Visits(n, s, |busy|)
    decreases |busy|
  {
    if busy != [] {
      assert s.prio in busy[0];
      assert Search(n, s, busy[0]) == s;
      AllBusyVisits(n, NextSlot(n, s), busy[1..]);
      forall i | 0 <= i < |busy| ensures busy[i] != {} {
        assert s.prio in busy[i];
      }
    }
  }

  function Count(s: seq<nat>, x: nat): nat {
    if s == [] then 0 else (if s[0] == x then 1 else 0) + Count(s[1..], x)
  }

  lemma {:induction false} CountJoin(a: seq<nat>, b: seq<nat>, x: nat)
    ensures Count(a + b, x) == Count(a, x) + Count(b, x)
  {
    if a == [] {
      assert a + b == b;
    } else {
      assert (a + b)[1..] == a[1..] + b;
      CountJoin(a[1..], b, x);
    }
  }

  lemma {:induction false} VisitsJoin(n: nat, s: Slot, j: nat, k: nat)
    requires IsSlot(n, s)
    ensures Visits(n, s, j + k) == Visits(n, s, j) + Visits(n, After(n, s, j), k)
    ensures After(n, s, j + k) == After(n, After(n, s, j), k)
    decreases j
  {
    if j > 0 { VisitsJoin(n, NextSlot(n, s), j - 1, k); }
  }

  // The rest of a pass visits each remaining level once and moves to the next pass.
  lemma {:induction false} RestOfPass(n: nat, s: Slot, x: nat)
    requires IsSlot(n, s)
    ensures After(n, s, s.end - s.prio + 1) == if s.end + 1 < n then Slot(s.end + 1, 0) else Slot(0, 0)
    ensures Count(Visits(n, s, s.end - s.prio + 1), x) == if s.prio <= x <= s.end then 1 else 0
    decreases s.end - s.prio
  {
    var k := s.end - s.prio;
    assert Visits(n, s, k + 1) == [s.prio] + Visits(n, NextSlot(n, s), k);
    assert Visits(n, s, k + 1)[1..] == Visits(n, NextSlot(n, s), k);
    if k == 0 {
      assert After(n, s, 1) == After(n, NextSlot(n, s), 0);
    } else {
      RestOfPass(n, NextSlot(n, s), x);
    }
  }

  // From the start, the first e passes visit level x once in each pass that reaches it.
  lemma {:induction false} FirstPasses(n: nat, e: nat, x: nat)
    requires e <= n && 0 < n
    ensures After(n, Slot(0, 0), Tri(e)) == Slot(if e < n then e else 0, 0)
    ensures Count(Visits(n, Slot(0, 0), Tri(e)), x) == if x < e then e - x else 0
    decreases e
  {
    if e > 0 {
      FirstPasses(n, e - 1, x);
      var at := Slot(e - 1, 0);
      VisitsJoin(n, Slot(0, 0), Tri(e - 1), e);
      RestOfPass(n, at, x);
      CountJoin(Visits(n, Slot(0, 0), Tri(e - 1)), Visits(n, at, e), x);
    }
  }

  lemma {:induction false} WithinPass(n: nat, e: nat, p: nat)
    requires p <= e < n
    ensures After(n, Slot(e, 0), p) == Slot(e, p)
    decreases p
  {
    if p > 0 {
      WithinPass(n, e, p - 1);
      VisitsJoin(n, Slot(e, 0), p - 1, 1);
      assert After(n, Slot(e, p - 1), 1) == After(n, NextSlot(n, Slot(e, p - 1)), 0);
    }
  }

  // From any slot, Tri(n) slots come back to it and visit level x once in each pass that
  // reaches it.
  lemma CycleFrom(n: nat, s: Slot, x: nat)
    requires IsSlot(n, s) && x < n
    ensures After(n, s, Tri(n)) == s && Count(Visits(n, s, Tri(n)), x) == n - x
  {
    var start, k := Slot(0, 0), Tri(s.end) + s.prio;
    FirstPasses(n, s.end, x);
    WithinPass(n, s.end, s.prio);
    VisitsJoin(n, start, Tri(s.end), s.prio);
    assert After(n, start, k) == s;
    FirstPasses(n, n, x);
    VisitsJoin(n, start, k, Tri(n));
    VisitsJoin(n, start, Tri(n), k);
    CountJoin(Visits(n, start, k), Visits(n, s, Tri(n)), x);
    CountJoin(Visits(n, start, Tri(n)), Visits(n, start, k), x);
  }

  // With queues at every level throughout, from any point of the rotation, a cycle of
  // N(N+1)/2 picks comes back there and picks level p exactly N - p times.
  lemma FairShares(n: nat, s: Slot, busy: seq<set<nat>>, level: nat)
    requires IsSlot(n, s) && level < n && 2 * |busy| == n * (n + 1)
    requires forall i :: 0 <= i < |busy| ==> InRange(n, busy[i]) && forall p: nat :: p < n ==> p in busy[i]
    ensures forall i :: 0 <= i < |busy| ==> busy[i] != {}
    ensures Count(Picks(n, s, busy), level) == n - level
    ensures After(n, s, |busy|) == s
  {
    TriClosed(n);
    AllBusyVisits(n, s, busy);
    CycleFrom(n, s, level);
  }
}
