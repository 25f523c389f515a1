/**
 Sorting by a total preorder, as the library sorts of the modelled code do it. The sort is stable;
 where elements cannot be equivalent without being equal, any sort gives the same result.
 */
module Sorting {
  import opened Wrappers

  type Order<!T> = (T, T) -> bool

  ghost predicate Preorder<T(!new)>(leq: Order<T>) {
    && (forall a, b :: leq(a, b) || leq(b, a))
    && (forall a, b, c :: leq(a, b) && leq(b, c) ==> leq(a, c))
  }

  predicate Sorted<T>(leq: Order<T>, s: seq<T>) {
    forall i, j :: 0 <= i < j < |s| ==> leq(s[i], s[j])
  }

  function Insert<T>(leq: Order<T>, x: T, s: seq<T>): seq<T> {
    if s == [] || leq(x, s[0]) then [x] + s else [s[0]] + Insert(leq, x, s[1..])
  }

  /** Equivalent elements keep their order: each goes in front of the equivalent ones behind it. */
  function Sort<T>(leq: Order<T>, s: seq<T>): seq<T> {
    if s == [] then [] else Insert(leq, s[0], Sort(leq, s[1..]))
  }

  predicate Below<T(==)>(leq: Order<T>, x: T, s: seq<T>) {
    forall y :: y in s ==> leq(x, y)
  }

  lemma SortedCons<T>(leq: Order<T>, x: T, s: seq<T>)
    ensures Sorted(leq, [x] + s) <==> Below(leq, x, s) && Sorted(leq, s)
  {
    if Sorted(leq, [x] + s) {
      forall i | 0 <= i < |s| ensures leq(x, s[i]) {
        assert ([x] + s)[0] == x && ([x] + s)[i + 1] == s[i];
      }
      forall i, j | 0 <= i < j < |s| ensures leq(s[i], s[j]) {
        assert ([x] + s)[i + 1] == s[i] && ([x] + s)[j + 1] == s[j];
      }
    }
  }

  lemma {:induction false} InsertKeeps<T>(leq: Order<T>, x: T, s: seq<T>)
    ensures multiset(Insert(leq, x, s)) == multiset(s) + multiset{x}
    ensures forall y :: y in Insert(leq, x, s) <==> y == x || y in s
  {
    if s != [] && !leq(x, s[0]) {
      InsertKeeps(leq, x, s[1..]);
      assert s == [s[0]] + s[1..];
    }
  }

  lemma {:induction false} InsertSorts<T(!new)>(leq: Order<T>, x: T, s: seq<T>)
    requires Preorder(leq) && Sorted(leq, s)
    ensures Sorted(leq, Insert(leq, x, s))
  {
    if s == [] {
      SortedCons(leq, x, s);
    } else {
      assert s == [s[0]] + s[1..];
      SortedCons(leq, s[0], s[1..]);
      if leq(x, s[0]) {
        SortedCons(leq, x, s);
      } else {
        InsertSorts(leq, x, s[1..]);
        InsertKeeps(leq, x, s[1..]);
        SortedCons(leq, s[0], Insert(leq, x, s[1..]));
      }
    }
  }

  /** Sorting sorts, and keeps every element as often as it was there. */
  lemma {:induction false} SortSorts<T(!new)>(leq: Order<T>, s: seq<T>)
    requires Preorder(leq)
    ensures Sorted(leq, Sort(leq, s)) && multiset(Sort(leq, s)) == multiset(s) && |Sort(leq, s)| == |s|
  {
    if s != [] {
      SortSorts(leq, s[1..]);
      InsertSorts(leq, s[0], Sort(leq, s[1..]));
      InsertKeeps(leq, s[0], Sort(leq, s[1..]));
      assert s == [s[0]] + s[1..];
    }
    assert |multiset(Sort(leq, s))| == |Sort(leq, s)|;
  }

  /** A sorted list is left alone. */
  lemma {:induction false} SortKeepsSorted<T(!new)>(leq: Order<T>, s: seq<T>)
    requires Preorder(leq) && Sorted(leq, s)
    ensures Sort(leq, s) == s
  {
    if s != [] {
      assert s == [s[0]] + s[1..];
      SortedCons(leq, s[0], s[1..]);
      SortKeepsSorted(leq, s[1..]);
    }
  }

  /** Equivalent elements of the list are equal. */
  ghost predicate Separates<T>(leq: Order<T>, s: seq<T>) {
    forall x, y :: x in s && y in s && leq(x, y) && leq(y, x) ==> x == y
  }

  lemma SameFirst<T(!new)>(leq: Order<T>, a: seq<T>, b: seq<T>)
    requires Preorder(leq) && Sorted(leq, a) && Sorted(leq, b) && Separates(leq, a)
    requires multiset(a) == multiset(b) && a != [] && b != []
    ensures a[0] == b[0]
  {
    SameElements(a, b, a[0]);
    SameElements(a, b, b[0]);
    assert a == [a[0]] + a[1..] && b == [b[0]] + b[1..];
    SortedCons(leq, a[0], a[1..]);
    SortedCons(leq, b[0], b[1..]);
  }

  /** What separates its elements can be sorted in one way only. */
  lemma {:induction false} OneOrder<T(!new)>(leq: Order<T>, a: seq<T>, b: seq<T>)
    requires Preorder(leq) && Sorted(leq, a) && Sorted(leq, b) && Separates(leq, a) && multiset(a) == multiset(b)
    ensures a == b
  {
    assert |multiset(a)| == |a| && |multiset(b)| == |b|;
    if a != [] {
      SameFirst(leq, a, b);
      assert a == [a[0]] + a[1..] && b == [b[0]] + b[1..];
      SortedCons(leq, a[0], a[1..]);
      SortedCons(leq, b[0], b[1..]);
      assert multiset(a[1..]) == multiset(a) - multiset{a[0]};
      assert multiset(b[1..]) == multiset(b) - multiset{b[0]};
      OneOrder(leq, a[1..], b[1..]);
    }
  }
}
