/** Sets of byte positions and their sizes. */
module Intervals {

  /** The positions lo, ..., hi - 1. */
  function Interval(lo: int, hi: int): (r: set<int>)
    ensures forall b :: b in r <==> lo <= b < hi
    decreases hi - lo
  {
    if hi <= lo then {} else Interval(lo, hi - 1) + {hi - 1}
  }

  lemma {:induction false} IntervalSize(lo: int, hi: int)
    requires lo <= hi
    ensures |Interval(lo, hi)| == hi - lo
    decreases hi - lo
  {
    if lo < hi {
      IntervalSize(lo, hi - 1);
      assert hi - 1 !in Interval(lo, hi - 1);
    }
  }

  lemma {:induction false} SubsetSize<T>(a: set<T>, b: set<T>)
    requires a <= b
    ensures |a| <= |b|
    decreases |a|
  {
    if a != {} {
      var x :| x in a;
      SubsetSize(a - {x}, b - {x});
    }
  }

  lemma DisjointSize<T>(a: set<T>, b: set<T>)
    requires a !! b
    ensures |a + b| == |a| + |b|
  {
  }

  lemma WithAndWithout<T>(s: set<T>, c: T)
    ensures |s + {c}| == |s| + (if c in s then 0 else 1)
    ensures |s - {c}| == |s| - (if c in s then 1 else 0)
  {
    if c in s { assert s + {c} == s; } else { assert s - {c} == s; }
  }
}
