/** Insertion sorting under a given total order, and uniqueness of the sorted form. */
module Sorting {

  ghost predicate TotalOrder<T(!new)>(leq: (T, T) -> bool) {
    && (forall a, b :: leq(a, b) || leq(b, a))
    && (forall a, b :: leq(a, b) && leq(b, a) ==> a == b)
    && (forall a, b, c :: leq(a, b) && leq(b, c) ==> leq(a, c))
  }

  /** As TotalOrder, but equivalent elements may differ. */
  ghost predicate Preorder<T(!new)>(leq: (T, T) -> bool) {
    && (forall a, b :: leq(a, b) || leq(b, a))
    && (forall a, b, c :: leq(a, b) && leq(b, c) ==> leq(a, c))
  }

  ghost predicate Sorted<T(!new)>(leq: (T, T) -> bool, s: seq<T>) {
    forall i, j :: 0 <= i < j < |s| ==> leq(s[i], s[j])
  }

  ghost predicate Distinct<T>(s: seq<T>) {
    forall i, j :: 0 <= i < j < |s| ==> s[i] != s[j]
  }

  function Insert<T>(leq: (T, T) -> bool, x: T, s: seq<T>): (r: seq<T>)
    ensures multiset(r) == multiset([x]) + multiset(s)
  {
    if s == [] || leq(x, s[0]) then
      [x] + s
    else
      assert s == [s[0]] + s[1..];
      [s[0]] + Insert(leq, x, s[1..])
  }

  function Sort<T>(leq: (T, T) -> bool, s: seq<T>): (r: seq<T>)
    ensures multiset(r) == multiset(s)
  {
    if s == [] then []
    else
      assert s == [s[0]] + s[1..];
      Insert(leq, s[0], Sort(leq, s[1..]))
  }

  lemma SameElements<T>(r: seq<T>, s: seq<T>)
    requires multiset(r) == multiset(s)
    ensures |r| == |s|
    ensures forall x :: x in r <==> x in s
  {
    assert |r| == |multiset(r)| && |s| == |multiset(s)|;
    forall x ensures x in r <==> x in s {
      assert x in r <==> x in multiset(r);
      assert x in s <==> x in multiset(s);
    }
  }

  lemma {:induction false} InsertSorted<T(!new)>(leq: (T, T) -> bool, x: T, s: seq<T>)
    requires Preorder(leq) && Sorted(leq, s)
    ensures Sorted(leq, Insert(leq, x, s))
  {
    if s == [] || leq(x, s[0]) {
    } else {
      var r := Insert(leq, x, s[1..]);
      InsertSorted(leq, x, s[1..]);
      assert s == [s[0]] + s[1..];
      SameElements(r, [x] + s[1..]);
      forall j | 0 <= j < |r| ensures leq(s[0], r[j]) {
        assert r[j] in [x] + s[1..];
      }
    }
  }

  lemma {:induction false} SortSorted<T(!new)>(leq: (T, T) -> bool, s: seq<T>)
    requires Preorder(leq)
    ensures Sorted(leq, Sort(leq, s))
  {
    if s != [] {
      SortSorted(leq, s[1..]);
      InsertSorted(leq, s[0], Sort(leq, s[1..]));
    }
  }

  lemma DistinctIsMultiplicity<T>(s: seq<T>)
    ensures Distinct(s) <==> forall x :: multiset(s)[x] <= 1
  {
    if s != [] {
      var t := s[1..];
      assert s == [s[0]] + t;
      DistinctIsMultiplicity(t);
      if Distinct(s) {
        assert s[0] !in t;
        assert multiset(t)[s[0]] == 0;
      }
      if forall x :: multiset(s)[x] <= 1 {
        assert multiset(s)[s[0]] == 1 + multiset(t)[s[0]];
        assert s[0] !in t;
        assert forall x :: multiset(t)[x] <= multiset(s)[x];
      }
    }
  }

  lemma SortDistinct<T>(leq: (T, T) -> bool, s: seq<T>)
    requires Distinct(s)
    ensures Distinct(Sort(leq, s))
  {
    DistinctIsMultiplicity(s);
    DistinctIsMultiplicity(Sort(leq, s));
  }

  /** A set whose elements the order tells apart has at most one sorted listing without repetition. */
  lemma {:induction false} SortedUnique<T(!new)>(leq: (T, T) -> bool, r: seq<T>, s: seq<T>)
    requires Preorder(leq) && forall a, b :: a in r && b in s && leq(a, b) && leq(b, a) ==> a == b
    requires Sorted(leq, r) && Distinct(r) && Sorted(leq, s) && Distinct(s)
    requires forall x :: x in r <==> x in s
    ensures r == s
  {
    if s == [] {
      assert forall i :: 0 <= i < |r| ==> r[i] in s;
    } else {
      assert s[0] in r;
      assert r[0] in s;
      assert r[0] == s[0];
      forall x ensures x in r[1..] <==> x in s[1..] {
        assert x in r <==> x == r[0] || x in r[1..];
        assert x in s <==> x == s[0] || x in s[1..];
      }
      SortedUnique(leq, r[1..], s[1..]);
    }
  }
}
