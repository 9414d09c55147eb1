/** Choosing a non-overlapping selection greedily, in the order given. */
module Greedy {
  import opened Sorting

  function Select<T>(overlaps: (T, T) -> bool, items: seq<T>): seq<T> {
    if items == [] then []
    else
      var kept, last := Select(overlaps, items[..|items| - 1]), items[|items| - 1];
      if exists i :: 0 <= i < |kept| && overlaps(last, kept[i]) then kept else kept + [last]
  }

  predicate Apart<T>(overlaps: (T, T) -> bool, items: seq<T>) { forall i, j :: 0 <= i < j < |items| ==> !overlaps(items[j], items[i]) }

  /** The loops of the source. */
  method SelectLoop<T>(overlaps: (T, T) -> bool, items: seq<T>) returns (selected: seq<T>)
    ensures selected == Select(overlaps, items)
  {
    selected := [];
    for n := 0 to |items|
      invariant selected == Select(overlaps, items[..n])
    {
      assert items[..n + 1][..n] == items[..n];
      var overlap := false;
      for i := 0 to |selected|
        invariant overlap <==> exists k :: 0 <= k < i && overlaps(items[n], selected[k])
      {
        if overlaps(items[n], selected[i]) {
          overlap := true;
          break;
        }
      }
      if !overlap {
        selected := selected + [items[n]];
      }
    }
    assert items[..|items|] == items;
  }

  lemma {:induction false} SelectedApart<T>(overlaps: (T, T) -> bool, items: seq<T>)
    ensures Apart(overlaps, Select(overlaps, items))
    ensures forall x :: x in Select(overlaps, items) ==> x in items
  {
    if items != [] { SelectedApart(overlaps, items[..|items| - 1]); }
  }

  /** An item that was dropped overlaps a kept one that came no later in the order. */
  lemma {:induction false} DroppedOverlaps<T(!new)>(less: (T, T) -> bool, overlaps: (T, T) -> bool, items: seq<T>, x: T)
    requires Ordered(less, items) && x in items && x !in Select(overlaps, items)
    ensures exists k :: k in Select(overlaps, items) && overlaps(x, k) && !less(x, k)
  {
    var init, last := items[..|items| - 1], items[|items| - 1];
    var kept := Select(overlaps, init);
    if x in init {
      DroppedOverlaps(less, overlaps, init, x);
      var k :| k in kept && overlaps(x, k) && !less(x, k);
      assert k in Select(overlaps, items);
    } else {
      assert x == last;
      var i :| 0 <= i < |kept| && overlaps(last, kept[i]);
      SelectedApart(overlaps, init);
      assert kept[i] in init;
      var j :| 0 <= j < |init| && init[j] == kept[i];
      assert items[j] == kept[i];
    }
  }

  lemma {:induction false} SelectAll<T>(overlaps: (T, T) -> bool, items: seq<T>)
    requires Apart(overlaps, items)
    ensures Select(overlaps, items) == items
  {
    if items != [] {
      SelectAll(overlaps, items[..|items| - 1]);
      assert items == items[..|items| - 1] + [items[|items| - 1]];
    }
  }

  predicate Distinct<T(==)>(s: seq<T>) { forall i, j :: 0 <= i < j < |s| ==> s[i] != s[j] }

  lemma {:induction false} DistinctCounts<T>(s: seq<T>, x: T)
    requires Distinct(s)
    ensures multiset(s)[x] <= 1
  {
    if s != [] {
      DistinctCounts(s[..|s| - 1], x);
      assert s == s[..|s| - 1] + [s[|s| - 1]];
      assert s[|s| - 1] !in s[..|s| - 1];
    }
  }

  lemma TwiceCounts<T>(s: seq<T>, i: nat, j: nat)
    requires i < j < |s| && s[i] == s[j]
    ensures multiset(s)[s[i]] >= 2
  {
    assert s == s[..j] + s[j..];
    assert s[i] in s[..j] && s[j] in s[j..];
    assert multiset(s) == multiset(s[..j]) + multiset(s[j..]);
  }

  /** Being apart does not depend on the order, if overlapping is mutual and nobody is listed twice. */
  lemma ApartPermuted<T(!new)>(overlaps: (T, T) -> bool, a: seq<T>, b: seq<T>)
    requires forall x, y :: overlaps(x, y) <==> overlaps(y, x)
    requires multiset(a) == multiset(b) && Distinct(a) && Apart(overlaps, a)
    ensures Apart(overlaps, b)
  {
    forall i, j | 0 <= i < j < |b| ensures !overlaps(b[j], b[i]) {
      assert b[i] in multiset(a) && b[j] in multiset(a);
      var k :| 0 <= k < |a| && a[k] == b[i];
      var l :| 0 <= l < |a| && a[l] == b[j];
      if b[i] == b[j] {
        TwiceCounts(b, i, j);
        DistinctCounts(a, b[i]);
      }
    }
  }

  lemma LastAgree<T(!new)>(less: (T, T) -> bool, a: seq<T>, b: seq<T>)
    requires a != [] && b != [] && Ordered(less, a) && Ordered(less, b) && multiset(a) == multiset(b)
    requires forall x, y :: x in a && y in a && x != y ==> less(x, y) || less(y, x)
    ensures a[|a| - 1] == b[|b| - 1]
  {
    var x, y := a[|a| - 1], b[|b| - 1];
    assert x in multiset(b) && y in multiset(a);
    var i :| 0 <= i < |b| && b[i] == x;
    var j :| 0 <= j < |a| && a[j] == y;
    assert !(j < |a| - 1 && less(x, y)) && !(i < |b| - 1 && less(y, x));
  }

  lemma DropLast<T>(a: seq<T>, b: seq<T>)
    requires a != [] && b != [] && multiset(a) == multiset(b) && a[|a| - 1] == b[|b| - 1]
    ensures multiset(a[..|a| - 1]) == multiset(b[..|b| - 1])
  {
    assert a == a[..|a| - 1] + [a[|a| - 1]] && b == b[..|b| - 1] + [b[|b| - 1]];
    assert multiset(a[..|a| - 1]) == multiset(a) - multiset{a[|a| - 1]};
    assert multiset(b[..|b| - 1]) == multiset(b) - multiset{b[|b| - 1]};
  }

  /** An order without ties among the elements determines the arrangement. */
  lemma {:induction false} OneArrangement<T(!new)>(less: (T, T) -> bool, a: seq<T>, b: seq<T>)
    requires Ordered(less, a) && Ordered(less, b) && multiset(a) == multiset(b)
    requires forall x, y :: x in a && y in a && x != y ==> less(x, y) || less(y, x)
    ensures a == b
  {
    assert |multiset(a)| == |a| && |multiset(b)| == |b|;
    if a != [] {
      LastAgree(less, a, b);
      DropLast(a, b);
      OneArrangement(less, a[..|a| - 1], b[..|b| - 1]);
      assert a == a[..|a| - 1] + [a[|a| - 1]] && b == b[..|b| - 1] + [b[|b| - 1]];
    }
  }
}
