/** Small shared definitions: optional values and finite sets of ids taken in ascending order. */
module Base {
  datatype Option<+T> = None | Some(value: T)

  function Max(a: int, b: int): (m: int)
    ensures m >= a && m >= b && (m == a || m == b)
  {
    if a > b then a else b
  }

  ghost predicate LowerBound(s: set<nat>, m: nat) { forall x | x in s :: m <= x }
  ghost predicate UpperBound(s: set<nat>, m: nat) { forall x | x in s :: x <= m }

  lemma {:induction false} MinExists(s: set<nat>)
    requires s != {}
    ensures exists m :: m in s && LowerBound(s, m)
  {
    var x :| x in s;
    if s == {x} {
      assert LowerBound(s, x);
    } else {
      var t := s - {x};
      MinExists(t);
      var m :| m in t && LowerBound(t, m);
      var k := if m < x then m else x;
      forall y | y in s ensures k <= y { assert y == x || y in t; }
      assert k in s && LowerBound(s, k);
    }
  }

  lemma {:induction false} MaxExists(s: set<nat>)
    requires s != {}
    ensures exists m :: m in s && UpperBound(s, m)
  {
    var x :| x in s;
    if s == {x} {
      assert UpperBound(s, x);
    } else {
      var t := s - {x};
      MaxExists(t);
      var m :| m in t && UpperBound(t, m);
      var k := if m > x then m else x;
      forall y | y in s ensures y <= k { assert y == x || y in t; }
      assert k in s && UpperBound(s, k);
    }
  }

  function MinOf(s: set<nat>): (m: nat)
    requires s != {}
    ensures m in s && forall x | x in s :: m <= x
  {
    MinExists(s);
    assert exists m :: m in s && forall x | x in s :: m <= x by { var k :| k in s && LowerBound(s, k); assert forall x | x in s :: k <= x; }
    var m :| m in s && forall x | x in s :: m <= x;
    m
  }

  function MaxOf(s: set<nat>): (m: nat)
    requires s != {}
    ensures m in s && forall x | x in s :: x <= m
  {
    MaxExists(s);
    assert exists m :: m in s && forall x | x in s :: x <= m by { var k :| k in s && UpperBound(s, k); assert forall x | x in s :: x <= k; }
    var m :| m in s && forall x | x in s :: x <= m;
    m
  }

  /** The n smallest elements of s (all of s when it has fewer). */
  function Smallest(s: set<nat>, n: nat): (r: set<nat>)
    ensures r <= s
    ensures |r| == if n < |s| then n else |s|
    ensures forall x, y :: x in s && y in r && x < y ==> x in r
  {
    if n == 0 || s == {} then {}
    else
      var m := MinOf(s);
      {m} + Smallest(s - {m}, n - 1)
  }

  /** The elements of s in ascending order. */
  function Ascending(s: set<nat>): (r: seq<nat>)
    ensures |r| == |s|
    ensures forall x :: x in s <==> x in r
    ensures forall i, j :: 0 <= i < j < |r| ==> r[i] < r[j]
  {
    if s == {} then []
    else
      var m := MinOf(s);
      [m] + Ascending(s - {m})
  }
}
