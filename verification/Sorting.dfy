/** What `sort.SliceStable` computes: the one ordered permutation that keeps equal elements in
    their original order. */
module Sorting {

  /** `less` orders its type, with ties. */
  ghost predicate WeakOrder<T(!new)>(less: (T, T) -> bool) {
    && (forall a, b :: less(a, b) ==> !less(b, a))
    && (forall a, b, c :: !less(b, a) && !less(c, b) ==> !less(c, a))
  }

  predicate Ordered<T>(less: (T, T) -> bool, s: seq<T>) { forall i, j :: 0 <= i < j < |s| ==> !less(s[j], s[i]) }

  /** The new element goes behind every element that is not greater. */
  function Insert<T>(less: (T, T) -> bool, s: seq<T>, x: T): seq<T> {
    if s == [] then [x]
    else if less(x, s[|s| - 1]) then Insert(less, s[..|s| - 1], x) + [s[|s| - 1]]
    else s + [x]
  }

  function Sort<T>(less: (T, T) -> bool, s: seq<T>): seq<T> {
    if s == [] then [] else Insert(less, Sort(less, s[..|s| - 1]), s[|s| - 1])
  }

  lemma {:induction false} InsertPermutes<T>(less: (T, T) -> bool, s: seq<T>, x: T)
    ensures multiset(Insert(less, s, x)) == multiset(s) + multiset{x}
  {
    if s != [] && less(x, s[|s| - 1]) {
      InsertPermutes(less, s[..|s| - 1], x);
      assert s == s[..|s| - 1] + [s[|s| - 1]];
    }
  }

  lemma {:induction false} SortPermutes<T>(less: (T, T) -> bool, s: seq<T>)
    ensures multiset(Sort(less, s)) == multiset(s) && |Sort(less, s)| == |s|
  {
    if s != [] {
      SortPermutes(less, s[..|s| - 1]);
      InsertPermutes(less, Sort(less, s[..|s| - 1]), s[|s| - 1]);
      assert s == s[..|s| - 1] + [s[|s| - 1]];
    }
    assert |multiset(Sort(less, s))| == |Sort(less, s)|;
  }

  lemma SameElements<T>(less: (T, T) -> bool, s: seq<T>)
    ensures forall x :: x in Sort(less, s) <==> x in s
  {
    SortPermutes(less, s);
    forall x ensures x in Sort(less, s) <==> x in s {
      assert x in Sort(less, s) <==> x in multiset(Sort(less, s));
      assert x in s <==> x in multiset(s);
    }
  }

  lemma {:induction false} InsertOrders<T(!new)>(less: (T, T) -> bool, s: seq<T>, x: T)
    requires WeakOrder(less) && Ordered(less, s)
    ensures Ordered(less, Insert(less, s, x))
  {
    if s != [] && less(x, s[|s| - 1]) {
      var init, last := s[..|s| - 1], s[|s| - 1];
      InsertOrders(less, init, x);
      InsertPermutes(less, init, x);
      var inserted := Insert(less, init, x);
      forall i | 0 <= i < |inserted| ensures !less(last, inserted[i]) {
        assert inserted[i] in multiset(inserted);
        if inserted[i] != x {
          assert inserted[i] in multiset(init);
          var j :| 0 <= j < |init| && init[j] == inserted[i];
          assert s[j] == init[j];
        }
      }
    } else if s != [] {
      forall i | 0 <= i < |s| ensures !less(x, s[i]) {
        assert !less(x, s[|s| - 1]);
        assert i < |s| - 1 ==> !less(s[|s| - 1], s[i]);
      }
    }
  }

  lemma {:induction false} SortOrders<T(!new)>(less: (T, T) -> bool, s: seq<T>)
    requires WeakOrder(less)
    ensures Ordered(less, Sort(less, s))
  {
    if s != [] {
      SortOrders(less, s[..|s| - 1]);
      InsertOrders(less, Sort(less, s[..|s| - 1]), s[|s| - 1]);
    }
  }

  /** The elements of a sequence that tie with `a`, in their order. */
  function Ties<T>(less: (T, T) -> bool, s: seq<T>, a: T): seq<T> {
    if s == [] then []
    else
      var last := s[|s| - 1];
      Ties(less, s[..|s| - 1], a) + if less(last, a) || less(a, last) then [] else [last]
  }

  lemma TiesSnoc<T>(less: (T, T) -> bool, s: seq<T>, x: T, a: T)
    ensures Ties(less, s + [x], a) == Ties(less, s, a) + if less(x, a) || less(a, x) then [] else [x]
  {
    assert (s + [x])[..|s|] == s;
  }

  lemma {:induction false} InsertKeepsTies<T(!new)>(less: (T, T) -> bool, s: seq<T>, x: T, a: T)
    requires WeakOrder(less)
    ensures Ties(less, Insert(less, s, x), a) == Ties(less, s + [x], a)
  {
    TiesSnoc(less, s, x, a);
    if s != [] && less(x, s[|s| - 1]) {
      var init, last := s[..|s| - 1], s[|s| - 1];
      InsertKeepsTies(less, init, x, a);
      TiesSnoc(less, init, x, a);
      TiesSnoc(less, Insert(less, init, x), last, a);
      assert !less(a, last) && !less(x, a) ==> !less(x, last);
    }
  }

  /** Sorting is stable: elements that tie keep their order. */
  lemma {:induction false} SortIsStable<T(!new)>(less: (T, T) -> bool, s: seq<T>, a: T)
    requires WeakOrder(less)
    ensures Ties(less, Sort(less, s), a) == Ties(less, s, a)
  {
    if s != [] {
      var init, last := s[..|s| - 1], s[|s| - 1];
      SortIsStable(less, init, a);
      InsertKeepsTies(less, Sort(less, init), last, a);
      TiesSnoc(less, Sort(less, init), last, a);
    }
  }
}
