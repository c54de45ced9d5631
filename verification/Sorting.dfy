/** Sorting by a string key: what the library's sort promises, with one result when equal keys mean equal elements. */
module Sorting {
  import opened Text

  ghost predicate SortedBy<T(!new)>(s: seq<T>, key: T -> string) {
    forall i, j :: 0 <= i < j < |s| ==> !Less(key(s[j]), key(s[i]))
  }

  lemma BetweenLess(a: string, b: string, c: string)
    requires Less(a, b) && !Less(c, b)
    ensures Less(a, c)
  {
    LessTotal(b, c);
    if Less(b, c) {
      LessTransitive(a, b, c);
    }
  }

  /** Before the last element of a sorted list, everything is in order with something smaller than the last. */
  lemma InOrderBefore<T(!new)>(sorted: seq<T>, x: T, key: T -> string, r: seq<T>)
    requires sorted != [] && SortedBy(sorted, key) && Less(key(x), key(sorted[|sorted| - 1]))
    requires SortedBy(r, key) && multiset(r) == multiset(sorted[..|sorted| - 1]) + multiset{x}
    ensures SortedBy(r + [sorted[|sorted| - 1]], key)
  {
    var n, last := |sorted| - 1, sorted[|sorted| - 1];
    forall i | 0 <= i < |r| ensures !Less(key(last), key(r[i])) {
      assert r[i] in multiset(r);
      if r[i] == x {
        LessAsymmetric(key(x), key(last));
      } else {
        assert r[i] in sorted[..n];
      }
    }
  }

  function Insert<T(!new)>(sorted: seq<T>, x: T, key: T -> string): (r: seq<T>)
    requires SortedBy(sorted, key)
    ensures SortedBy(r, key) && multiset(r) == multiset(sorted) + multiset{x}
  {
    var n := |sorted| - 1;
    if sorted == [] then [x]
    else if !Less(key(x), key(sorted[n])) then
      AboveAll(sorted, x, key);
      sorted + [x]
    else
      var r := Insert(sorted[..n], x, key);
      assert sorted == sorted[..n] + [sorted[n]];
      InOrderBefore(sorted, x, key, r);
      r + [sorted[n]]
  }

  lemma AboveAll<T(!new)>(sorted: seq<T>, x: T, key: T -> string)
    requires sorted != [] && SortedBy(sorted, key) && !Less(key(x), key(sorted[|sorted| - 1]))
    ensures SortedBy(sorted + [x], key)
  {
    forall i | 0 <= i < |sorted| ensures !Less(key(x), key(sorted[i])) {
      if i < |sorted| - 1 && Less(key(x), key(sorted[i])) {
        BetweenLess(key(x), key(sorted[i]), key(sorted[|sorted| - 1]));
      }
    }
  }

  function Sorted<T(!new)>(s: seq<T>, key: T -> string): (r: seq<T>)
    ensures SortedBy(r, key) && multiset(r) == multiset(s)
  {
    if s == [] then []
    else
      var n := |s| - 1;
      assert s == s[..n] + [s[n]];
      Insert(Sorted(s[..n], key), s[n], key)
  }

  lemma TailMultiset<T>(a: seq<T>)
    requires a != []
    ensures multiset(a[1..]) == multiset(a) - multiset{a[0]}
  {
    assert a == [a[0]] + a[1..];
  }

  /** The key tells the elements of the list apart. */
  ghost predicate Telling<T(!new)>(s: seq<T>, key: T -> string) {
    forall i, j :: 0 <= i < |s| && 0 <= j < |s| && key(s[i]) == key(s[j]) ==> s[i] == s[j]
  }

  lemma SameHead<T(!new)>(a: seq<T>, b: seq<T>, key: T -> string)
    requires SortedBy(a, key) && SortedBy(b, key) && multiset(a) == multiset(b) && Telling(a, key) && a != [] && b != []
    ensures a[0] == b[0]
  {
    assert a[0] in multiset(a) && b[0] in multiset(b);
    assert a[0] in b && b[0] in a;
    var j :| 0 <= j < |a| && a[j] == b[0];
    var i :| 0 <= i < |b| && b[i] == a[0];
    if j > 0 && i > 0 {
      assert !Less(key(a[j]), key(a[0])) && !Less(key(b[i]), key(b[0]));
      LessTotal(key(a[0]), key(b[0]));
    }
  }

  /** With a telling key there is one sorted order. */
  lemma {:induction false} SortedOrderUnique<T(!new)>(a: seq<T>, b: seq<T>, key: T -> string)
    requires SortedBy(a, key) && SortedBy(b, key) && multiset(a) == multiset(b) && Telling(a, key)
    ensures a == b
  {
    assert |a| == |multiset(a)| && |b| == |multiset(b)|;
    if a != [] {
      SameHead(a, b, key);
      TailMultiset(a);
      TailMultiset(b);
      SortedOrderUnique(a[1..], b[1..], key);
      assert a == [a[0]] + a[1..] && b == [b[0]] + b[1..];
    }
  }
}
