/** Least and greatest elements of finite sets of naturals, and searches in them. */
module Sets {

  datatype Option<T> = None | Some(value: T)

  ghost predicate IsLeast(s: set<nat>, m: nat) {
    m in s && forall x :: x in s ==> m <= x
  }

  lemma {:induction false} LeastExists(s: set<nat>)
    requires s != {}
    ensures exists m :: IsLeast(s, m)
    decreases |s|
  {
    var x :| x in s;
    var rest := s - {x};
    if rest == {} {
      assert s == {x};
      assert IsLeast(s, x);
    } else {
      LeastExists(rest);
      var m :| IsLeast(rest, m);
      assert s == rest + {x};
      assert IsLeast(s, if x < m then x else m);
    }
  }

  // The least element, as a bit scan finds it.
  function Least(s: set<nat>): (m: nat)
    requires s != {}
    ensures m in s && forall x :: x in s ==> m <= x
  {
    LeastExists(s);
    assert forall m :: IsLeast(s, m) ==> m in s && forall x :: x in s ==> m <= x;
    var m :| m in s && forall x :: x in s ==> m <= x;
    m
  }

  lemma {:induction false} GreatestExists(s: set<nat>)
    requires s != {}
    ensures exists m :: m in s && forall x :: x in s ==> x <= m
    decreases |s|
  {
    var x :| x in s;
    var rest := s - {x};
    if rest == {} {
      assert s == {x};
    } else {
      GreatestExists(rest);
      var m :| m in rest && forall y :: y in rest ==> y <= m;
      var g := if x > m then x else m;
      assert s == rest + {x};
      assert g in s && forall y :: y in s ==> y <= g;
    }
  }

  function Greatest(s: set<nat>): (m: nat)
    requires s != {}
    ensures m in s && forall x :: x in s ==> x <= m
  {
    GreatestExists(s);
    var m :| m in s && forall x :: x in s ==> x <= m;
    m
  }

  function AboveOf(s: set<nat>, at: nat): set<nat> { set x | x in s && x > at }

  function BelowOf(s: set<nat>, at: nat): set<nat> { set x | x in s && x < at }

  // The nearest elements above and below, as the next and previous node of a sort tree.
  function Succ(s: set<nat>, at: nat): (r: Option<nat>)
    ensures r.None? ==> forall x :: x in s ==> x <= at
    ensures r.Some? ==> r.value in s && r.value > at && forall x :: x in s && x > at ==> r.value <= x
  {
    var above := AboveOf(s, at);
    assert forall x :: x in s && x > at ==> x in above;
    if above == {} then None else Some(Least(above))
  }

  function Pred(s: set<nat>, at: nat): (r: Option<nat>)
    ensures r.None? ==> forall x :: x in s ==> x >= at
    ensures r.Some? ==> r.value in s && r.value < at && forall x :: x in s && x < at ==> x <= r.value
  {
    var below := BelowOf(s, at);
    assert forall x :: x in s && x < at ==> x in below;
    if below == {} then None else Some(Greatest(below))
  }

  lemma MapLess<K(!new), V>(m: map<K, V>, k: K)
    requires k in m
    ensures (m - {k}).Keys == m.Keys - {k} && |m - {k}| == |m| - 1
  {
    assert (m - {k}).Keys == m.Keys - {k};
    assert |m| == |m.Keys| && |m - {k}| == |(m - {k}).Keys|;
  }
}
