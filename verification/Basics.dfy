// Small vocabulary shared by the other modules.
module Basics {

  datatype Option<+T> = None | Some(value: T)

  ghost function Pick<T>(s: set<T>): (x: T)
    requires s != {}
    ensures x in s
  {
    var x :| x in s;
    x
  }

  lemma HasLargest(s: set<int>)
    requires s != {}
    ensures exists m :: m in s && forall x :: x in s ==> x <= m
  {
    var m := Pick(s);
    if s != {m} {
      HasLargest(s - {m});
      var n :| n in s - {m} && forall x :: x in s - {m} ==> x <= n;
      var w := if m <= n then n else m;
      forall x | x in s
        ensures x <= w
      {
        assert x == m || x in s - {m};
      }
      assert w in s;
    }
  }

  /** The largest element of a nonempty set of integers. */
  ghost function MaxOf(s: set<int>): (m: int)
    requires s != {}
    ensures m in s
    ensures forall x :: x in s ==> x <= m
  {
    HasLargest(s);
    var m :| m in s && forall x :: x in s ==> x <= m;
    m
  }

  /** The elements of a set listed in ascending order. */
  predicate IsSortOf(r: seq<int>, s: set<int>) {
    if r == [] then s == {}
    else r[0] in s && (forall x :: x in s ==> r[0] <= x) && IsSortOf(r[1..], s - {r[0]})
  }

  lemma HasSmallest(s: set<int>)
    requires s != {}
    ensures exists m :: m in s && forall x :: x in s ==> m <= x
  {
    var m := Pick(s);
    if s != {m} {
      HasSmallest(s - {m});
      var n :| n in s - {m} && forall x :: x in s - {m} ==> n <= x;
      var w := if n <= m then n else m;
      forall x | x in s
        ensures w <= x
      {
        assert x == m || x in s - {m};
      }
      assert w in s;
    }
  }

  method Sorted(s: set<int>) returns (r: seq<int>)
    ensures IsSortOf(r, s)
    decreases s
  {
    if s == {} {
      return [];
    }
    HasSmallest(s);
    var m :| m in s && forall x :: x in s ==> m <= x;
    var rest := Sorted(s - {m});
    r := [m] + rest;
    assert r[1..] == rest;
  }
}
