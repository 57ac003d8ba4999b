/**
  CFQ's round-robin lists: one per priority level, and the busy, current and idle lists.
  A queue with requests is on exactly one of them.
 */
module CfqLists {
  import opened Lists

  type Qid = nat

  datatype RrLists = RrLists(rr: seq<seq<Qid>>, busy: seq<Qid>, cur: seq<Qid>, idle: seq<Qid>)

  datatype Where = Level(i: nat) | Busy | Cur | Idle

  predicate Exists(l: RrLists, w: Where) { w.Level? ==> w.i < |l.rr| }

  function Get(l: RrLists, w: Where): seq<Qid>
    requires Exists(l, w)
  {
    match w
    case Level(i) => l.rr[i]
    case Busy => l.busy
    case Cur => l.cur
    case Idle => l.idle
  }

  function Put(l: RrLists, w: Where, v: seq<Qid>): RrLists
    requires Exists(l, w)
  {
    match w
    case Level(i) => l.(rr := l.rr[i := v])
    case Busy => l.(busy := v)
    case Cur => l.(cur := v)
    case Idle => l.(idle := v)
  }

  function Concat(ss: seq<seq<Qid>>): seq<Qid> {
    if ss == [] then [] else ss[0] + Concat(ss[1..])
  }

  // Every queue on a list, in the order a forced dispatch meets them.
  function All(l: RrLists): seq<Qid> { Concat(l.rr) + l.busy + l.cur + l.idle }

  // What comes before and after one of the lists.
  function Ahead(l: RrLists, w: Where): seq<Qid>
    requires Exists(l, w)
  {
    match w
    case Level(i) => Concat(l.rr[..i])
    case Busy => Concat(l.rr)
    case Cur => Concat(l.rr) + l.busy
    case Idle => Concat(l.rr) + l.busy + l.cur
  }

  function Behind(l: RrLists, w: Where): seq<Qid>
    requires Exists(l, w)
  {
    match w
    case Level(i) => Concat(l.rr[i + 1..]) + l.busy + l.cur + l.idle
    case Busy => l.cur + l.idle
    case Cur => l.idle
    case Idle => []
  }

  lemma {:induction false} ConcatSplit(ss: seq<seq<Qid>>, i: nat)
    requires i < |ss|
    ensures Concat(ss) == Concat(ss[..i]) + ss[i] + Concat(ss[i + 1..])
  {
    if i == 0 {
      assert ss[..0] == [];
    } else {
      ConcatSplit(ss[1..], i - 1);
      assert ss[..i][1..] == ss[1..][..i - 1] && ss[..i][0] == ss[0];
      assert ss[1..][i - 1 + 1..] == ss[i + 1..];
    }
  }

  lemma Around(l: RrLists, w: Where, v: seq<Qid>)
    requires Exists(l, w)
    ensures All(l) == Ahead(l, w) + Get(l, w) + Behind(l, w)
    ensures All(Put(l, w, v)) == Ahead(l, w) + v + Behind(l, w)
  {
    if w.Level? {
      ConcatSplit(l.rr, w.i);
      var rr := l.rr[w.i := v];
      ConcatSplit(rr, w.i);
      assert rr[..w.i] == l.rr[..w.i] && rr[w.i + 1..] == l.rr[w.i + 1..];
    }
  }

  // ----- unlinking

  // A queue taken off whichever list it is on.
  function Drop(l: RrLists, q: Qid): RrLists {
    RrLists(DropEach(l.rr, q), Minus(l.busy, q), Minus(l.cur, q), Minus(l.idle, q))
  }

  function DropEach(ss: seq<seq<Qid>>, q: Qid): seq<seq<Qid>> {
    seq(|ss|, i requires 0 <= i < |ss| => Minus(ss[i], q))
  }

  lemma {:induction false} MinusJoin(a: seq<Qid>, b: seq<Qid>, q: Qid)
    ensures Minus(a + b, q) == Minus(a, q) + Minus(b, q)
  {
    if a == [] {
      assert a + b == b;
    } else {
      assert (a + b)[1..] == a[1..] + b;
      MinusJoin(a[1..], b, q);
    }
  }

  lemma {:induction false} ConcatMinus(ss: seq<seq<Qid>>, q: Qid)
    ensures Concat(DropEach(ss, q)) == Minus(Concat(ss), q)
  {
    if ss != [] {
      ConcatMinus(ss[1..], q);
      assert DropEach(ss, q)[1..] == DropEach(ss[1..], q);
      MinusJoin(ss[0], Concat(ss[1..]), q);
    }
  }

  lemma DropAll(l: RrLists, q: Qid)
    ensures All(Drop(l, q)) == Minus(All(l), q)
  {
    ConcatMinus(l.rr, q);
    MinusJoin(Concat(l.rr), l.busy, q);
    MinusJoin(Concat(l.rr) + l.busy, l.cur, q);
    MinusJoin(Concat(l.rr) + l.busy + l.cur, l.idle, q);
  }

  // Unlinking the head of one list touches nothing else.
  lemma DropHead(l: RrLists, w: Where)
    requires Exists(l, w) && NoDup(All(l)) && Get(l, w) != []
    ensures Drop(l, Get(l, w)[0]) == Put(l, w, Get(l, w)[1..])
  {
    var q := Get(l, w)[0];
    Pieces(l, w);
    MinusHead(Get(l, w));
    forall v: Where | Exists(l, v) && v != w ensures q !in Get(l, v) && NoDup(Get(l, v)) && Minus(Get(l, v), q) == Get(l, v) {
      Elsewhere(l, w, v, q);
      Pieces(l, v);
      MinusLength(Get(l, v), q);
    }
    assert forall i :: 0 <= i < |l.rr| && w != Level(i) ==> Minus(Get(l, Level(i)), q) == l.rr[i];
    assert w != Busy ==> Minus(Get(l, Busy), q) == l.busy;
    assert w != Cur ==> Minus(Get(l, Cur), q) == l.cur;
    assert w != Idle ==> Minus(Get(l, Idle), q) == l.idle;
  }

  lemma Pieces(l: RrLists, w: Where)
    requires Exists(l, w) && NoDup(All(l))
    ensures NoDup(Get(l, w))
  {
    Around(l, w, []);
    var pre := Ahead(l, w);
    forall i, j | 0 <= i < j < |Get(l, w)| ensures Get(l, w)[i] != Get(l, w)[j] {
      assert All(l)[|pre| + i] == Get(l, w)[i] && All(l)[|pre| + j] == Get(l, w)[j];
    }
  }

  // No queue is on two lists.
  lemma Elsewhere(l: RrLists, w: Where, v: Where, q: Qid)
    requires Exists(l, w) && Exists(l, v) && w != v && NoDup(All(l)) && q in Get(l, w)
    ensures q !in Get(l, v)
  {
    Apart(l, w, v);
    Stretch(l, w);
    Stretch(l, v);
    OneStretch(All(l), |Ahead(l, w)|, Get(l, w), |Ahead(l, v)|, Get(l, v), q);
  }

  lemma Stretch(l: RrLists, w: Where)
    requires Exists(l, w)
    ensures |Ahead(l, w)| + |Get(l, w)| <= |All(l)|
    ensures All(l)[|Ahead(l, w)|..|Ahead(l, w)| + |Get(l, w)|] == Get(l, w)
  {
    Around(l, w, []);
  }

  // What stands in one stretch of a list without repetition is not in another.
  lemma OneStretch(all: seq<Qid>, i: nat, x: seq<Qid>, j: nat, y: seq<Qid>, q: Qid)
    requires NoDup(all) && i + |x| <= |all| && j + |y| <= |all| && (i + |x| <= j || j + |y| <= i)
    requires all[i..i + |x|] == x && all[j..j + |y|] == y && q in x
    ensures q !in y
  {
    var a :| 0 <= a < |x| && x[a] == q;
    assert all[i + a] == all[i..i + |x|][a];
    forall b | 0 <= b < |y| ensures y[b] != q {
      assert all[j + b] == all[j..j + |y|][b];
    }
  }

  // Two lists occupy separate stretches.
  lemma Apart(l: RrLists, w: Where, v: Where)
    requires Exists(l, w) && Exists(l, v) && w != v
    ensures || |Ahead(l, w)| + |Get(l, w)| <= |Ahead(l, v)|
            || |Ahead(l, v)| + |Get(l, v)| <= |Ahead(l, w)|
  {
    match (w, v)
    case (Level(i), Level(j)) => if i < j { LevelsInOrder(l.rr, i, j); } else { LevelsInOrder(l.rr, j, i); }
    case (Level(i), _) => ConcatSplit(l.rr, i);
    case (_, Level(j)) => ConcatSplit(l.rr, j);
    case _ =>
  }

  lemma LevelsInOrder(ss: seq<seq<Qid>>, i: nat, j: nat)
    requires i < j < |ss|
    ensures |Concat(ss[..i])| + |ss[i]| <= |Concat(ss[..j])|
  {
    ConcatSplit(ss[..j], i);
    assert ss[..j][..i] == ss[..i];
  }

  // ----- linking

  function InsertAt(s: seq<Qid>, k: nat, q: Qid): seq<Qid>
    requires k <= |s|
  {
    s[..k] + [q] + s[k..]
  }

  // A queue that was on no list is then on exactly one.
  lemma Linked(l: RrLists, w: Where, k: nat, q: Qid)
    requires Exists(l, w) && NoDup(All(l)) && q !in All(l) && k <= |Get(l, w)|
    ensures var all := All(Put(l, w, InsertAt(Get(l, w), k, q)));
            NoDup(all) && |all| == |All(l)| + 1 && forall x :: x in all <==> x in All(l) || x == q
  {
    var list := Get(l, w);
    Around(l, w, InsertAt(list, k, q));
    var a, b := Ahead(l, w) + list[..k], list[k..] + Behind(l, w);
    assert list == list[..k] + list[k..];
    assert All(l) == a + b;
    assert All(Put(l, w, InsertAt(list, k, q))) == a + [q] + b;
    OneInserted(a, b, q);
  }

  lemma OneInserted(a: seq<Qid>, b: seq<Qid>, q: Qid)
    requires NoDup(a + b) && q !in a + b
    ensures NoDup(a + [q] + b) && forall x :: x in a + [q] + b <==> x in a + b || x == q
  {
    var s, t := a + b, a + [q] + b;
    forall i, j | 0 <= i < j < |t| ensures t[i] != t[j] {
      assert i < |a| ==> t[i] == s[i];
      assert i > |a| ==> t[i] == s[i - 1];
      assert j < |a| ==> t[j] == s[j];
      assert j > |a| ==> t[j] == s[j - 1];
    }
  }
}
