/** Finite counting facts the store, the scheduler and the port map share. */
module Counting {

  // An injection from s into t means s has no more elements than t.
  lemma {:induction false} InjectionBound<T(!new), U(!new)>(s: set<T>, t: set<U>, f: T -> U)
    requires forall x :: x in s ==> f(x) in t
    requires forall x, y :: x in s && y in s && f(x) == f(y) ==> x == y
    ensures |s| <= |t|
    decreases |s|
  {
    if s != {} {
      var x :| x in s;
      InjectionBound(s - {x}, t - {f(x)}, f);
    }
  }

  // An injection between sets of the same size reaches every element.
  lemma {:induction false} InjectionOnto<T(!new), U(!new)>(s: set<T>, t: set<U>, f: T -> U, u: U)
    requires forall x :: x in s ==> f(x) in t
    requires forall x, y :: x in s && y in s && f(x) == f(y) ==> x == y
    requires |s| >= |t| && u in t
    ensures exists x :: x in s && f(x) == u
  {
    if forall x :: x in s ==> f(x) != u {
      InjectionBound(s, t - {u}, f);
      assert false;
    }
  }

  // The integers of [lo, hi).
  function Interval(lo: int, hi: int): set<int>
    decreases hi - lo
  {
    if lo < hi then Interval(lo, hi - 1) + {hi - 1} else {}
  }

  lemma {:induction false} IntervalSize(lo: int, hi: int)
    requires lo <= hi
    ensures |Interval(lo, hi)| == hi - lo
    ensures forall i :: i in Interval(lo, hi) <==> lo <= i < hi
    decreases hi - lo
  {
    if lo < hi {
      IntervalSize(lo, hi - 1);
    }
  }
}
