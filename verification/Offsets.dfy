/**
 Finite sets of offsets read in ascending order.

 The source keeps completed offsets in a SortedSet and sorts plain sets before
 encoding them; `Sorted` is the one ascending enumeration both rely on.
 */
module Offsets {
  import opened Common

  ghost predicate Ascending(q: seq<int>) {
    forall i, j :: 0 <= i < j < |q| ==> q[i] < q[j]
  }

  lemma {:induction false} SmallestExists(s: set<int>)
    requires s != {}
    ensures exists m :: m in s && forall x :: x in s ==> m <= x
  {
    var y := Pick(s);
    var rest := s - {y};
    if rest == {} {
      assert s == {y};
    } else {
      SmallestExists(rest);
      var m :| m in rest && forall x :: x in rest ==> m <= x;
      var least := if m < y then m else y;
      forall x | x in s ensures least <= x {
        if x != y { assert x in rest; }
      }
    }
  }

  function Smallest(s: set<int>): (m: int)
    requires s != {}
    ensures m in s && forall x :: x in s ==> m <= x
  {
    SmallestExists(s);
    var m :| m in s && forall x :: x in s ==> m <= x;
    m
  }

  /** The members of `s` in ascending order. */
  function Sorted(s: set<int>): (q: seq<int>)
    ensures Ascending(q)
    ensures forall x :: x in q <==> x in s
    ensures |q| == |s|
  {
    if s == {} then [] else
      var m := Smallest(s);
      [m] + Sorted(s - {m})
  }

  function Largest(s: set<int>): (m: int)
    requires s != {}
    ensures m in s && forall x :: x in s ==> x <= m
  {
    var order := Sorted(s);
    assert order[|order| - 1] in order;
    assert forall x :: x in order ==> x <= order[|order| - 1];
    order[|order| - 1]
  }

  /** All offsets from `lo` through `hi`. */
  function Interval(lo: int, hi: int): (s: set<int>)
    ensures forall o :: o in s <==> lo <= o <= hi
    decreases hi - lo + 1
  {
    if hi < lo then {} else Interval(lo, hi - 1) + {hi}
  }

  /** Ascending enumeration of the members of `s` in the closed range [lo, hi]. */
  function Range(s: set<int>, lo: int, hi: int): (q: seq<int>)
    ensures Ascending(q)
    ensures forall x :: x in q <==> x in s && lo <= x <= hi
  {
    Sorted(set x | x in s && lo <= x <= hi)
  }

  lemma TailMembers(q: seq<int>, x: int)
    requires Ascending(q) && q != []
    ensures x in q[1..] <==> x in q && x != q[0]
  {
  }
}
