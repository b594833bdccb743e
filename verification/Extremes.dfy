/** Least and greatest members of finite sets of ids. */
module Extremes {
  ghost function Least(s: set<nat>): (m: nat)
    requires s != {}
    ensures m in s && forall x :: x in s ==> m <= x
    decreases |s|
  {
    var x :| x in s;
    if s == {x} then x else
      assert s - {x} != {};
      var y := Least(s - {x});
      assert forall z :: z in s ==> z == x || z in s - {x};
      if x < y then x else y
  }

  ghost function Greatest(s: set<nat>): (m: nat)
    ensures s != {} ==> m in s
    ensures forall x :: x in s ==> x <= m
    decreases |s|
  {
    if s == {} then 0 else
      var x :| x in s;
      var y := Greatest(s - {x});
      assert forall z :: z in s ==> z == x || z in s - {x};
      if s - {x} == {} || x > y then x else y
  }

  /** `ORDER BY id LIMIT 1` */
  method LeastOf(s: set<nat>) returns (m: nat)
    requires s != {}
    ensures m == Least(s)
  {
    m :| m in s;
    var left := s - {m};
    while left != {}
      invariant m in s && left <= s
      invariant forall x :: x in s && x !in left ==> m <= x
      decreases |left|
    {
      var x :| x in left;
      if x < m {
        m := x;
      }
      left := left - {x};
    }
  }

  /** `ORDER BY id DESC LIMIT 1` */
  method GreatestOf(s: set<nat>) returns (m: nat)
    requires s != {}
    ensures m == Greatest(s)
  {
    m :| m in s;
    var left := s - {m};
    while left != {}
      invariant m in s && left <= s
      invariant forall x :: x in s && x !in left ==> x <= m
      decreases |left|
    {
      var x :| x in left;
      if x > m {
        m := x;
      }
      left := left - {x};
    }
  }
}
