/** Integers of a finite set in ascending order. */
module Ordering {

  ghost function Least(s: set<int>): (m: int)
    requires exists x :: x in s
    ensures m in s && forall x | x in s :: m <= x
    decreases |s|
  {
    var x: int :| x in s;
    var rest := s - {x};
    assert s == {x} + rest;
    if exists y :: y in rest then
      var y := Least(rest);
      if x <= y then x else y
    else x
  }

  /** The elements of a set in ascending order. */
  ghost function Sorted(s: set<int>): (r: seq<int>)
    ensures forall j | 0 <= j < |r| :: r[j] in s
    decreases |s|
  {
    if exists x :: x in s then var m := Least(s); [m] + Sorted(s - {m}) else []
  }

  /** Nothing is missing, nothing is repeated, and the order is strictly ascending. */
  lemma {:induction false} SortedAscending(s: set<int>)
    ensures forall x | x in s :: x in Sorted(s)
    ensures forall i, j | 0 <= i < j < |Sorted(s)| :: Sorted(s)[i] < Sorted(s)[j]
    decreases |s|
  {
    if exists x :: x in s {
      var m := Least(s);
      SortedAscending(s - {m});
      var rest := Sorted(s - {m});
      hide Sorted, Least;
      forall j | 0 <= j < |rest| ensures m < rest[j] {
        assert rest[j] in s - {m};
      }
    }
  }
}
