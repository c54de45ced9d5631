/** Counting in finite sets. */
module Sets {

  /** A subset is no larger, and as large only when it is everything. */
  lemma {:induction false} SubsetSize<T>(a: set<T>, b: set<T>)
    requires a <= b
    ensures |a| <= |b| && (|a| == |b| ==> a == b)
  {
    if x :| x in a {
      SubsetSize(a - {x}, b - {x});
      assert a == (a - {x}) + {x} && b == (b - {x}) + {x};
    }
  }
}
