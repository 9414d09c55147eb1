/** Choosing the reviewed suggestions to show (`internal/recording/analysis_review.go`). */
module Review {
  import opened Prelude
  import opened Detectors
  import opened FeedbackSpan
  import opened Sorting
  import opened Greedy

  datatype Severity = Major | Medium | Minor | Unknown

  datatype Suggestion = Suggestion(
    span: Option<Span>, wrong: string, right: string, explanation: string,
    category: Category, severity: Severity, rule: string)

  function SeverityRank(severity: Severity): nat {
    match severity
    case Major => 3
    case Medium => 2
    case Minor => 1
    case Unknown => 0
  }

  // ---- Anchoring and exact duplicates -------------------------------------------------

  function Anchor(word: WordClass, transcript: string, item: Suggestion): Suggestion {
    if item.span.Some? then item else item.(span := Resolved(word, transcript, item.wrong, [], None, None))
  }

  function Anchored(word: WordClass, transcript: string, items: seq<Suggestion>): (anchored: seq<Suggestion>)
    ensures forall i :: 0 <= i < |anchored| ==> anchored[i].span.Some?
  {
    if items == [] then []
    else
      var item := Anchor(word, transcript, items[|items| - 1]);
      Anchored(word, transcript, items[..|items| - 1]) + if item.span.None? then [] else [item]
  }

  /** The text two items must share to count as exact duplicates. */
  datatype Key = Key(turn: int, start: int, end: int, text: string)

  function KeyOf(item: Suggestion): Key
    requires item.span.Some?
  {
    Key(item.span.value.turn, item.span.value.start, item.span.value.end, item.wrong + ":" + item.right)
  }

  predicate AllAnchored(items: seq<Suggestion>) { forall i :: 0 <= i < |items| ==> items[i].span.Some? }

  predicate HasKey(items: seq<Suggestion>, key: Key)
    requires AllAnchored(items)
  {
    exists i :: 0 <= i < |items| && KeyOf(items[i]) == key
  }

  /** The first item of each key. */
  function Firsts(items: seq<Suggestion>): (firsts: seq<Suggestion>)
    requires AllAnchored(items)
    ensures AllAnchored(firsts)
  {
    if items == [] then []
    else
      var init, last := Firsts(items[..|items| - 1]), items[|items| - 1];
      if HasKey(items[..|items| - 1], KeyOf(last)) then init else init + [last]
  }

  // ---- Orders -------------------------------------------------------------------------

  function Length(item: Suggestion): int { if item.span.Some? then item.span.value.end - item.span.value.start else 0 }

  /** Language switches first, then severity, then naturalness last, then the longer span. */
  function Before(a: Suggestion, b: Suggestion): bool {
    if (a.category == LanguageSwitch) != (b.category == LanguageSwitch) then a.category == LanguageSwitch
    else if SeverityRank(a.severity) != SeverityRank(b.severity) then SeverityRank(a.severity) > SeverityRank(b.severity)
    else if (a.category == Naturalness) != (b.category == Naturalness) then a.category != Naturalness
    else Length(a) > Length(b)
  }

  function TurnOf(item: Suggestion): int { if item.span.Some? then item.span.value.turn else 0 }

  function StartOf(item: Suggestion): int { if item.span.Some? then item.span.value.start else 0 }

  function TextBefore(a: Suggestion, b: Suggestion): bool {
    if TurnOf(a) != TurnOf(b) then TurnOf(a) < TurnOf(b) else StartOf(a) < StartOf(b)
  }

  function Overlaps(a: Suggestion, b: Suggestion): bool { Overlap(a.span, b.span) }

  lemma OrdersAreWeak()
    ensures WeakOrder(Before) && WeakOrder(TextBefore)
  {
  }

  // ---- The selection ------------------------------------------------------------------

  function Deduplicated(word: WordClass, transcript: string, items: seq<Suggestion>): seq<Suggestion> {
    Sort(TextBefore, Select(Overlaps, Sort(Before, Firsts(Anchored(word, transcript, items)))))
  }

  method DeduplicateReviewedSuggestions(word: WordClass, transcript: string, items: seq<Suggestion>) returns (selected: seq<Suggestion>)
    ensures selected == Deduplicated(word, transcript, items)
  {
    var exact: seq<Suggestion> := [];
    ghost var anchored: seq<Suggestion> := [];
    var seen: set<Key> := {};
    for n := 0 to |items|
      invariant anchored == Anchored(word, transcript, items[..n]) && exact == Firsts(anchored)
      invariant forall key :: key in seen <==> HasKey(anchored, key)
    {
      assert items[..n + 1][..n] == items[..n];
      var item := items[n];
      if item.span.None? {
        var span := ResolveFeedbackSpan(word, transcript, item.wrong, [], None, None);
        item := item.(span := span);
      }
      if item.span.None? {
        continue;
      }
      var key := KeyOf(item);
      SeenGrows(anchored, item);
      assert (anchored + [item])[..|anchored|] == anchored;
      anchored := anchored + [item];
      if key in seen {
        continue;
      }
      seen := seen + {key};
      exact := exact + [item];
    }
    assert items[..|items|] == items;
    selected := SelectLoop(Overlaps, Sort(Before, exact));
    selected := Sort(TextBefore, selected);
  }

  lemma SeenGrows(items: seq<Suggestion>, item: Suggestion)
    requires AllAnchored(items) && item.span.Some?
    ensures forall key :: HasKey(items + [item], key) <==> HasKey(items, key) || key == KeyOf(item)
  {
    var all := items + [item];
    forall key ensures HasKey(all, key) <==> HasKey(items, key) || key == KeyOf(item) {
      if HasKey(all, key) && key != KeyOf(item) {
        var i :| 0 <= i < |all| && KeyOf(all[i]) == key;
        assert items[i] == all[i];
      }
      if HasKey(items, key) {
        var i :| 0 <= i < |items| && KeyOf(items[i]) == key;
        assert all[i] == items[i];
      }
      assert all[|items|] == item;
    }
  }

  // ---- What is kept -------------------------------------------------------------------

  /** The result does not overlap and follows the text. */
  /** Two spans share no place. */
  predicate SpansApart(a: Span, b: Span) { a.turn != b.turn || a.end <= b.start || b.end <= a.start }

  predicate InTextOrder(a: Span, b: Span) { a.turn < b.turn || (a.turn == b.turn && a.start <= b.start) }

  /** The result does not overlap and follows the text. */
  lemma ResultIsApart(word: WordClass, transcript: string, items: seq<Suggestion>)
    ensures
      var result := Deduplicated(word, transcript, items);
      && Ordered(TextBefore, result)
      && (forall x, y :: x in result && y in result && x != y ==> !Overlaps(x, y))
      && (forall x :: x in result ==> x in Firsts(Anchored(word, transcript, items)))
  {
    var firsts := Firsts(Anchored(word, transcript, items));
    var kept := Select(Overlaps, Sort(Before, firsts));
    OrdersAreWeak();
    SortOrders(TextBefore, kept);
    SameElements(TextBefore, kept);
    SelectionIsApart(firsts);
  }

  /** Every kept item has a span; two of them share no place, and they stand in the order of the text. */
  lemma ResultSpansAre(word: WordClass, transcript: string, items: seq<Suggestion>)
    ensures
      var result := Deduplicated(word, transcript, items);
      && (forall i :: 0 <= i < |result| ==> result[i].span.Some?)
      && (forall i, j :: 0 <= i < j < |result| ==> InTextOrder(result[i].span.value, result[j].span.value))
      && (forall i, j :: 0 <= i < |result| && 0 <= j < |result| && result[i] != result[j] ==> SpansApart(result[i].span.value, result[j].span.value))
  {
    var result := Deduplicated(word, transcript, items);
    ResultIsApart(word, transcript, items);
    forall i | 0 <= i < |result| ensures result[i].span.Some? { assert result[i] in Firsts(Anchored(word, transcript, items)); }
    forall i, j | 0 <= i < j < |result| ensures InTextOrder(result[i].span.value, result[j].span.value) {
      assert !TextBefore(result[j], result[i]);
    }
    forall i, j | 0 <= i < |result| && 0 <= j < |result| && result[i] != result[j]
      ensures SpansApart(result[i].span.value, result[j].span.value)
    {
      assert !Overlaps(result[i], result[j]);
    }
  }

  /** The two items say the same about the same place. */
  predicate SameSaying(a: Suggestion, b: Suggestion) {
    a.span.Some? && a.span == b.span && a.wrong + ":" + a.right == b.wrong + ":" + b.right
  }

  /** Of the anchored items that say the same, the first is kept for the selection and no other. */
  lemma FirstsSpeakOnce(items: seq<Suggestion>, x: Suggestion)
    requires AllAnchored(items) && x in items
    ensures exists first :: first in Firsts(items) && SameSaying(first, x)
    ensures forall first :: first in Firsts(items) && SameSaying(first, x) ==> FirstOf(items, x, first)
  {
    var i :| 0 <= i < |items| && items[i] == x;
    assert HasKey(items, KeyOf(x));
    HasKeyIffFirst(items, KeyOf(x));
    var first := FirstWith(items, KeyOf(x)).value;
    FirstsAre(items, first);
    assert SameSaying(first, x);
    forall f | f in Firsts(items) && SameSaying(f, x) ensures FirstOf(items, x, f) {
      FirstsAre(items, f);
      FirstWithIsFirst(items, KeyOf(x));
      var k :| 0 <= k < |items| && items[k] == f && forall j :: 0 <= j < k ==> KeyOf(items[j]) != KeyOf(x);
      forall j | 0 <= j < k ensures !SameSaying(items[j], x) { assert KeyOf(items[j]) != KeyOf(x); }
    }
  }

  predicate FirstOf(items: seq<Suggestion>, x: Suggestion, first: Suggestion) {
    exists k :: 0 <= k < |items| && items[k] == first && forall j :: 0 <= j < k ==> !SameSaying(items[j], x)
  }

  lemma {:induction false} FirstWithIsFirst(items: seq<Suggestion>, key: Key)
    requires AllAnchored(items) && FirstWith(items, key).Some?
    ensures exists k :: 0 <= k < |items| && items[k] == FirstWith(items, key).value && forall j :: 0 <= j < k ==> KeyOf(items[j]) != key
  {
    var init, last := items[..|items| - 1], items[|items| - 1];
    if FirstWith(init, key).Some? {
      FirstWithIsFirst(init, key);
      var k :| 0 <= k < |init| && init[k] == FirstWith(init, key).value && forall j :: 0 <= j < k ==> KeyOf(init[j]) != key;
      assert items[k] == init[k] && forall j :: 0 <= j < k ==> items[j] == init[j];
    } else {
      HasKeyIffFirst(init, key);
      assert items[|items| - 1] == last;
      forall j | 0 <= j < |items| - 1 ensures KeyOf(items[j]) != key { assert items[j] == init[j]; }
    }
  }

  lemma SelectionIsApart(firsts: seq<Suggestion>)
    ensures
      var kept := Select(Overlaps, Sort(Before, firsts));
      && (forall x, y :: x in kept && y in kept && x != y ==> !Overlaps(x, y))
      && (forall x :: x in kept ==> x in firsts)
  {
    var sorted := Sort(Before, firsts);
    var kept := Select(Overlaps, sorted);
    SameElements(Before, firsts);
    SelectedApart(Overlaps, sorted);
    forall x, y | x in kept && y in kept && x != y ensures !Overlaps(x, y) {
      var i :| 0 <= i < |kept| && kept[i] == x;
      var j :| 0 <= j < |kept| && kept[j] == y;
      assert if i < j then !Overlaps(kept[j], kept[i]) else !Overlaps(kept[i], kept[j]);
    }
  }

  /** The first severity is the higher one. */
  predicate MoreSevere(a: Severity, b: Severity) {
    (a == Major && b != Major) || (a == Medium && b in {Minor, Unknown}) || (a == Minor && b == Unknown)
  }

  /** The kept item may stand in the way of the dropped one: as a language switch of another item,
      or else as the more severe one, or as the one that is not about naturalness, or as one that is
      at least as long. */
  predicate MayDisplace(kept: Suggestion, dropped: Suggestion)
    requires kept.span.Some? && dropped.span.Some?
  {
    if kept.category == LanguageSwitch && dropped.category != LanguageSwitch then true
    else if dropped.category == LanguageSwitch && kept.category != LanguageSwitch then false
    else if kept.severity != dropped.severity then MoreSevere(kept.severity, dropped.severity)
    else if kept.category != Naturalness && dropped.category == Naturalness then true
    else if dropped.category != Naturalness && kept.category == Naturalness then false
    else dropped.span.value.end - dropped.span.value.start <= kept.span.value.end - kept.span.value.start
  }

  lemma BeforeIff(a: Suggestion, b: Suggestion)
    requires a.span.Some? && b.span.Some?
    ensures Before(a, b) <==> !MayDisplace(b, a)
  {
  }

  /** A first item of its key that is dropped overlaps a kept one that may displace it: a less
      severe item of the same category never does, and a language switch is only ever displaced by a
      language switch. */
  lemma DroppedForBetter(word: WordClass, transcript: string, items: seq<Suggestion>, x: Suggestion)
    requires x in Firsts(Anchored(word, transcript, items)) && x !in Deduplicated(word, transcript, items)
    ensures exists k :: k in Deduplicated(word, transcript, items) && Overlaps(x, k) && !Before(x, k)
                        && x.span.Some? && k.span.Some? && MayDisplace(k, x)
                        && (x.category == LanguageSwitch ==> k.category == LanguageSwitch)
  {
    var firsts := Firsts(Anchored(word, transcript, items));
    var sorted := Sort(Before, firsts);
    OrdersAreWeak();
    SameElements(Before, firsts);
    SortOrders(Before, firsts);
    SameElements(TextBefore, Select(Overlaps, sorted));
    DroppedOverlaps(Before, Overlaps, sorted, x);
    var k :| k in Select(Overlaps, sorted) && Overlaps(x, k) && !Before(x, k);
    assert k in Deduplicated(word, transcript, items);
    BeforeIff(x, k);
  }

  /** The item that stands for a key: the first anchored one that has it. */
  function FirstWith(items: seq<Suggestion>, key: Key): Option<Suggestion>
    requires AllAnchored(items)
  {
    if items == [] then None
    else
      var earlier := FirstWith(items[..|items| - 1], key);
      if earlier.Some? then earlier else if KeyOf(items[|items| - 1]) == key then Some(items[|items| - 1]) else None
  }

  lemma {:induction false} HasKeyIffFirst(items: seq<Suggestion>, key: Key)
    requires AllAnchored(items)
    ensures HasKey(items, key) <==> FirstWith(items, key).Some?
    ensures FirstWith(items, key).Some? ==> FirstWith(items, key).value.span.Some? && KeyOf(FirstWith(items, key).value) == key
  {
    if items != [] {
      var init, last := items[..|items| - 1], items[|items| - 1];
      HasKeyIffFirst(init, key);
      SeenGrows(init, last);
      assert items == init + [last];
    }
  }

  lemma {:induction false} FirstsAre(items: seq<Suggestion>, x: Suggestion)
    requires AllAnchored(items)
    ensures x in Firsts(items) <==> x.span.Some? && FirstWith(items, KeyOf(x)) == Some(x)
  {
    if items != [] {
      var init, last := items[..|items| - 1], items[|items| - 1];
      FirstsAre(init, x);
      HasKeyIffFirst(init, KeyOf(last));
      if x.span.Some? { HasKeyIffFirst(init, KeyOf(x)); }
    }
  }

  /** Whether an anchored item is a language switch that a duplicate of another category precedes. */
  predicate Shadowed(items: seq<Suggestion>, x: Suggestion)
    requires AllAnchored(items) && x.span.Some?
  {
    FirstWith(items, KeyOf(x)).Some? && FirstWith(items, KeyOf(x)).value.category != LanguageSwitch
  }

  /** An anchored language switch is represented in the result by itself, by a duplicate, or by an
      overlapping language switch, unless an item of another category with the very same key
      precedes it; in that case no language switch with its key is kept. */
  lemma SwitchKeptUnlessShadowed(word: WordClass, transcript: string, items: seq<Suggestion>, x: Suggestion)
    requires x in Anchored(word, transcript, items) && x.category == LanguageSwitch && x.span.Some? && x.span.value.start < x.span.value.end
    ensures !Shadowed(Anchored(word, transcript, items), x) ==>
      exists k :: k in Deduplicated(word, transcript, items) && k.category == LanguageSwitch && Overlaps(x, k)
    ensures Shadowed(Anchored(word, transcript, items), x) ==>
      forall k :: k in Deduplicated(word, transcript, items) && k.span.Some? && KeyOf(k) == KeyOf(x) ==> k.category != LanguageSwitch
  {
    var anchored := Anchored(word, transcript, items);
    var i :| 0 <= i < |anchored| && anchored[i] == x;
    assert HasKey(anchored, KeyOf(x));
    HasKeyIffFirst(anchored, KeyOf(x));
    var first := FirstWith(anchored, KeyOf(x)).value;
    FirstsAre(anchored, first);
    if Shadowed(anchored, x) {
      ResultIsApart(word, transcript, items);
      forall k | k in Deduplicated(word, transcript, items) && k.span.Some? && KeyOf(k) == KeyOf(x) ensures k.category != LanguageSwitch {
        FirstsAre(anchored, k);
      }
    } else if first in Deduplicated(word, transcript, items) {
      assert Overlaps(x, first);
    } else {
      DroppedForBetter(word, transcript, items, first);
      var k :| k in Deduplicated(word, transcript, items) && Overlaps(first, k) && first.category == LanguageSwitch && k.category == LanguageSwitch;
      assert Overlaps(x, k);
    }
  }

  /** No item of another category precedes a language switch: the order the passes are merged in. */
  predicate SwitchesFirst(items: seq<Suggestion>) {
    forall i, j :: 0 <= i < j < |items| && items[j].category == LanguageSwitch ==> items[i].category == LanguageSwitch
  }

  lemma {:induction false} FirstIsSwitch(items: seq<Suggestion>, i: nat)
    requires AllAnchored(items) && SwitchesFirst(items) && i < |items| && items[i].category == LanguageSwitch
    ensures FirstWith(items, KeyOf(items[i])).Some? && FirstWith(items, KeyOf(items[i])).value.category == LanguageSwitch
    decreases |items|
  {
    var init, last := items[..|items| - 1], items[|items| - 1];
    if i < |init| {
      assert init[i] == items[i];
      FirstIsSwitch(init, i);
    } else {
      var earlier := FirstWith(init, KeyOf(last));
      if earlier.Some? {
        FirstIsThere(init, KeyOf(last));
        var k :| 0 <= k < |init| && init[k] == earlier.value;
        assert items[k] == init[k];
      }
    }
  }

  lemma {:induction false} FirstIsThere(items: seq<Suggestion>, key: Key)
    requires AllAnchored(items) && FirstWith(items, key).Some?
    ensures FirstWith(items, key).value in items
  {
    if items != [] && FirstWith(items[..|items| - 1], key).Some? { FirstIsThere(items[..|items| - 1], key); }
  }

  lemma {:induction false} AnchoredKeepsOrder(word: WordClass, transcript: string, items: seq<Suggestion>)
    requires SwitchesFirst(items)
    ensures SwitchesFirst(Anchored(word, transcript, items))
    ensures forall x :: x in Anchored(word, transcript, items) ==> exists i :: 0 <= i < |items| && items[i].category == x.category
  {
    if items != [] {
      var init, last := items[..|items| - 1], items[|items| - 1];
      AnchoredKeepsOrder(word, transcript, init);
      var before := Anchored(word, transcript, init);
      if last.category == LanguageSwitch {
        forall x | x in before ensures x.category == LanguageSwitch {
          var i :| 0 <= i < |init| && init[i].category == x.category;
          assert items[i] == init[i];
        }
      }
      forall x | x in Anchored(word, transcript, items) ensures exists i :: 0 <= i < |items| && items[i].category == x.category {
        if x in before {
          var i :| 0 <= i < |init| && init[i].category == x.category;
          assert items[i] == init[i];
        } else {
          assert items[|items| - 1].category == x.category;
        }
      }
    }
  }

  /** In the order of the passes, every anchored language switch overlaps a language switch that
      is kept: no other category ever displaces one.  The order is needed, because an item of
      another detector that came first with the same words would take the switch's key. */
  lemma SwitchIsRepresented(word: WordClass, transcript: string, items: seq<Suggestion>, x: Suggestion)
    requires SwitchesFirst(items)
    requires x in Anchored(word, transcript, items) && x.category == LanguageSwitch && ProperSpan(x)
    ensures exists k :: k in Deduplicated(word, transcript, items) && k.category == LanguageSwitch && Overlaps(x, k)
  {
    var anchored := Anchored(word, transcript, items);
    AnchoredKeepsOrder(word, transcript, items);
    var i :| 0 <= i < |anchored| && anchored[i] == x;
    FirstIsSwitch(anchored, i);
    SwitchKeptUnlessShadowed(word, transcript, items, x);
  }

  // ---- Running it again ---------------------------------------------------------------

  predicate ProperSpan(item: Suggestion) { item.span.Some? && item.span.value.start < item.span.value.end }

  predicate AllProper(items: seq<Suggestion>) { forall i :: 0 <= i < |items| ==> ProperSpan(items[i]) }

  lemma {:induction false} AnchoredIsProper(word: WordClass, transcript: string, items: seq<Suggestion>)
    requires forall i :: 0 <= i < |items| ==> items[i].span.None? || ProperSpan(items[i])
    ensures AllProper(Anchored(word, transcript, items))
  {
    if items != [] {
      AnchoredIsProper(word, transcript, items[..|items| - 1]);
      var last := items[|items| - 1];
      if last.span.None? && Resolved(word, transcript, last.wrong, [], None, None).Some? {
        ResolvedQuotes(word, transcript, last.wrong, [], None, None);
      }
    }
  }

  lemma {:induction false} FirstsAreProper(items: seq<Suggestion>)
    requires AllProper(items)
    ensures AllProper(Firsts(items))
  {
    if items != [] { FirstsAreProper(items[..|items| - 1]); }
  }

  lemma AllProperIs(items: seq<Suggestion>)
    ensures AllProper(items) <==> forall x :: x in items ==> ProperSpan(x)
  {
    if AllProper(items) {
      forall x | x in items ensures ProperSpan(x) {}
    }
  }

  lemma {:induction false} AnchoredAgain(word: WordClass, transcript: string, items: seq<Suggestion>)
    requires AllAnchored(items)
    ensures Anchored(word, transcript, items) == items
  {
    if items != [] {
      AnchoredAgain(word, transcript, items[..|items| - 1]);
      assert items == items[..|items| - 1] + [items[|items| - 1]];
    }
  }

  lemma {:induction false} FirstsAgain(items: seq<Suggestion>)
    requires AllProper(items) && Apart(Overlaps, items)
    ensures Firsts(items) == items
  {
    if items != [] {
      var init, last := items[..|items| - 1], items[|items| - 1];
      FirstsAgain(init);
      forall i | 0 <= i < |init| ensures KeyOf(init[i]) != KeyOf(last) {
        assert ProperSpan(items[i]) && !Overlaps(last, items[i]);
      }
      assert items == init + [last];
    }
  }

  lemma ApartIsDistinct(items: seq<Suggestion>)
    requires AllProper(items) && Apart(Overlaps, items)
    ensures Distinct(items)
  {
    forall i, j | 0 <= i < j < |items| ensures items[i] != items[j] { assert ProperSpan(items[i]) && !Overlaps(items[j], items[i]); }
  }

  /** The selection is apart, proper and in text order as a sequence. */
  lemma ResultShape(word: WordClass, transcript: string, items: seq<Suggestion>)
    requires forall i :: 0 <= i < |items| ==> items[i].span.None? || ProperSpan(items[i])
    ensures
      var result := Deduplicated(word, transcript, items);
      AllProper(result) && Apart(Overlaps, result) && Ordered(TextBefore, result)
  {
    var firsts := Firsts(Anchored(word, transcript, items));
    var sorted := Sort(Before, firsts);
    var kept := Select(Overlaps, sorted);
    AnchoredIsProper(word, transcript, items);
    FirstsAreProper(Anchored(word, transcript, items));
    SameElements(Before, firsts);
    SelectedApart(Overlaps, sorted);
    SameElements(TextBefore, kept);
    AllProperIs(firsts);
    AllProperIs(kept);
    AllProperIs(Sort(TextBefore, kept));
    ApartIsDistinct(kept);
    SortPermutes(TextBefore, kept);
    ApartPermuted(Overlaps, kept, Sort(TextBefore, kept));
    OrdersAreWeak();
    SortOrders(TextBefore, kept);
  }

  /** Selecting from a selection changes nothing. */
  lemma SelectionIsIdempotent(word: WordClass, transcript: string, items: seq<Suggestion>)
    requires forall i :: 0 <= i < |items| ==> items[i].span.None? || ProperSpan(items[i])
    ensures
      var result := Deduplicated(word, transcript, items);
      Deduplicated(word, transcript, result) == result
  {
    var result := Deduplicated(word, transcript, items);
    ResultShape(word, transcript, items);
    ShapedIsFixed(word, transcript, result);
  }

  lemma ShapedIsFixed(word: WordClass, transcript: string, result: seq<Suggestion>)
    requires AllProper(result) && Apart(Overlaps, result) && Ordered(TextBefore, result)
    ensures Deduplicated(word, transcript, result) == result
  {
    forall i | 0 <= i < |result| ensures result[i].span.Some? { assert ProperSpan(result[i]); }
    AnchoredAgain(word, transcript, result);
    FirstsAgain(result);
    ApartIsDistinct(result);
    var sorted := Sort(Before, result);
    SortPermutes(Before, result);
    ApartPermuted(Overlaps, result, sorted);
    SelectAll(Overlaps, sorted);
    SortPermutes(TextBefore, sorted);
    OrdersAreWeak();
    SortOrders(TextBefore, sorted);
    forall x, y | x in result && y in result && x != y ensures TextBefore(x, y) || TextBefore(y, x) { NoTies(result, x, y); }
    OneArrangement(TextBefore, result, Sort(TextBefore, sorted));
  }

  lemma NoTies(items: seq<Suggestion>, x: Suggestion, y: Suggestion)
    requires AllProper(items) && Apart(Overlaps, items) && x in items && y in items && x != y
    ensures TextBefore(x, y) || TextBefore(y, x)
  {
    var i :| 0 <= i < |items| && items[i] == x;
    var j :| 0 <= j < |items| && items[j] == y;
    assert ProperSpan(items[i]) && ProperSpan(items[j]);
    assert if i < j then !Overlaps(items[j], items[i]) else !Overlaps(items[i], items[j]);
  }
}
