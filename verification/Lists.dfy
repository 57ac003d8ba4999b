/** Removal from lists without repetition. */
module Lists {

  ghost predicate NoDup<T(!new)>(s: seq<T>) {
    forall i, j :: 0 <= i < j < |s| ==> s[i] != s[j]
  }

  // The list without x, as unlinking a node leaves it.
  function Minus<T(==)>(s: seq<T>, x: T): seq<T> {
    if s == [] then [] else (if s[0] == x then [] else [s[0]]) + Minus(s[1..], x)
  }

  lemma {:induction false} MinusMembers<T(!new)>(s: seq<T>, x: T)
    ensures forall y :: y in Minus(s, x) <==> y in s && y != x
  {
    if s != [] {
      MinusMembers(s[1..], x);
      assert s == [s[0]] + s[1..];
    }
  }

  // a comes before b in s.
  ghost predicate Before<T(!new)>(s: seq<T>, a: T, b: T) {
    exists i, j :: 0 <= i < j < |s| && s[i] == a && s[j] == b
  }

  lemma {:induction false} MinusOrder<T(!new)>(s: seq<T>, x: T, i: nat, j: nat)
    requires i < j < |Minus(s, x)|
    ensures Before(s, Minus(s, x)[i], Minus(s, x)[j])
  {
    var rest := s[1..];
    var m := Minus(rest, x);
    if s[0] == x {
      MinusOrder(rest, x, i, j);
      BeforeTail(s, m[i], m[j]);
    } else if i > 0 {
      MinusOrder(rest, x, i - 1, j - 1);
      BeforeTail(s, m[i - 1], m[j - 1]);
    } else {
      MinusMembers(rest, x);
      assert m[j - 1] in m;
      var k :| 0 <= k < |rest| && rest[k] == m[j - 1];
      assert s[0] == s[0] && s[k + 1] == m[j - 1];
    }
  }

  lemma BeforeTail<T(!new)>(s: seq<T>, a: T, b: T)
    requires s != [] && Before(s[1..], a, b)
    ensures Before(s, a, b)
  {
    var i, j :| 0 <= i < j < |s[1..]| && s[1..][i] == a && s[1..][j] == b;
    assert s[i + 1] == a && s[j + 1] == b;
  }

  lemma MinusNoDup<T(!new)>(s: seq<T>, x: T)
    requires NoDup(s)
    ensures NoDup(Minus(s, x))
  {
    forall i, j | 0 <= i < j < |Minus(s, x)| ensures Minus(s, x)[i] != Minus(s, x)[j] {
      MinusOrder(s, x, i, j);
    }
  }

  lemma {:induction false} MinusLength<T(!new)>(s: seq<T>, q: T)
    requires NoDup(s)
    ensures |Minus(s, q)| == if q in s then |s| - 1 else |s|
    ensures q !in s ==> Minus(s, q) == s
  {
    if s != [] {
      MinusLength(s[1..], q);
      assert s == [s[0]] + s[1..] && s[0] !in s[1..];
    }
  }

  lemma MinusHead<T(!new)>(s: seq<T>)
    requires NoDup(s) && s != []
    ensures Minus(s, s[0]) == s[1..]
  {
    assert s[0] !in s[1..];
    MinusLength(s[1..], s[0]);
  }
}
