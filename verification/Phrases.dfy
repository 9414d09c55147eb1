/** Finding the Cyrillic phrases of a text (`internal/recording/analysis_support.go`).

    Which code points are Cyrillic is a parameter. */
module Phrases {
  import opened Prelude
  import opened Timeline
  import opened FeedbackSpan

  // ---- The pattern --------------------------------------------------------------------

  /** Words joined by blanks, tabs or hyphens form one phrase. */
  predicate Joins(c: char) { c == ' ' || c == '\t' || c == '-' }

  function RunEnd(kind: char -> bool, text: string, i: nat): (end: nat)
    requires i <= |text|
    ensures i <= end <= |text| && (forall k :: i <= k < end ==> kind(text[k])) && (end < |text| ==> !kind(text[end]))
    decreases |text| - i
  {
    if i < |text| && kind(text[i]) then RunEnd(kind, text, i + 1) else i
  }

  /** Where the pattern `[C]+([- \t]+[C]+)*`, matched at `i`, ends. */
  function PhraseEnd(cyrillic: char -> bool, text: string, i: nat): (end: nat)
    requires i < |text| && cyrillic(text[i])
    ensures i < end <= |text| && cyrillic(text[end - 1])
    ensures end < |text| ==> !cyrillic(text[end])
    decreases |text| - i
  {
    var word := RunEnd(cyrillic, text, i);
    var gap := RunEnd(Joins, text, word);
    if word < gap < |text| && cyrillic(text[gap]) then PhraseEnd(cyrillic, text, gap) else word
  }

  /** The matches of the pattern from `i` on, from left to right. */
  function Found(cyrillic: char -> bool, text: string, i: nat): seq<(nat, nat)>
    requires i <= |text|
    decreases |text| - i
  {
    if i == |text| then []
    else if cyrillic(text[i]) then
      var end := PhraseEnd(cyrillic, text, i);
      [(i, end)] + Found(cyrillic, text, end)
    else Found(cyrillic, text, i + 1)
  }

  predicate InOrder(bounds: seq<(nat, nat)>, from: nat, limit: nat) {
    && (forall i :: 0 <= i < |bounds| ==> from <= bounds[i].0 < bounds[i].1 <= limit)
    && forall i, j :: 0 <= i < j < |bounds| ==> bounds[i].1 <= bounds[j].0
  }

  predicate InSome(bounds: seq<(nat, nat)>, k: nat) { exists i :: 0 <= i < |bounds| && bounds[i].0 <= k < bounds[i].1 }

  lemma {:induction false} FoundInOrder(cyrillic: char -> bool, text: string, i: nat)
    requires i <= |text|
    ensures InOrder(Found(cyrillic, text, i), i, |text|)
    decreases |text| - i
  {
    if i < |text| {
      if cyrillic(text[i]) {
        var end := PhraseEnd(cyrillic, text, i);
        FoundInOrder(cyrillic, text, end);
        assert Found(cyrillic, text, i) == [(i, end)] + Found(cyrillic, text, end);
        InOrderCons(i, end, Found(cyrillic, text, end), |text|);
      } else {
        FoundInOrder(cyrillic, text, i + 1);
        assert Found(cyrillic, text, i) == Found(cyrillic, text, i + 1);
      }
    }
  }

  lemma InOrderCons(i: nat, end: nat, rest: seq<(nat, nat)>, limit: nat)
    requires i < end <= limit && InOrder(rest, end, limit)
    ensures InOrder([(i, end)] + rest, i, limit)
  {
  }

  lemma {:induction false} FoundCovers(cyrillic: char -> bool, text: string, i: nat, k: nat)
    requires i <= k < |text| && cyrillic(text[k])
    ensures InSome(Found(cyrillic, text, i), k)
    decreases |text| - i
  {
    if cyrillic(text[i]) {
      var end := PhraseEnd(cyrillic, text, i);
      if k < end {
        assert Found(cyrillic, text, i)[0] == (i, end);
      } else {
        FoundCovers(cyrillic, text, end, k);
        InTail((i, end), Found(cyrillic, text, end), k);
      }
    } else {
      FoundCovers(cyrillic, text, i + 1, k);
    }
  }

  /** Some joining characters lead from `i` to a Cyrillic letter. */
  predicate Reaches(cyrillic: char -> bool, text: string, i: nat) {
    exists k :: i <= k < |text| && cyrillic(text[k]) && text[k] !in {' ', '\t', '-'} && forall j :: i <= j < k ==> text[j] in {' ', '\t', '-'}
  }

  /** From a Cyrillic letter on, letters and joining characters up to the last letter that can be
      reached that way. */
  predicate IsWhole(cyrillic: char -> bool, text: string, bounds: (nat, nat)) {
    && bounds.0 < bounds.1 <= |text| && cyrillic(text[bounds.0]) && cyrillic(text[bounds.1 - 1])
    && (forall k :: bounds.0 <= k < bounds.1 ==> cyrillic(text[k]) || text[k] in {' ', '\t', '-'})
    && !Reaches(cyrillic, text, bounds.1)
  }

  lemma {:induction false} PhraseIsWhole(cyrillic: char -> bool, text: string, i: nat)
    requires i < |text| && cyrillic(text[i])
    ensures IsWhole(cyrillic, text, (i, PhraseEnd(cyrillic, text, i)))
    decreases |text| - i
  {
    var word := RunEnd(cyrillic, text, i);
    var gap := RunEnd(Joins, text, word);
    if word < gap < |text| && cyrillic(text[gap]) {
      PhraseIsWhole(cyrillic, text, gap);
    } else {
      WordIsWhole(cyrillic, text, i);
    }
  }

  lemma WordIsWhole(cyrillic: char -> bool, text: string, i: nat)
    requires i < |text| && cyrillic(text[i])
    requires
      var word := RunEnd(cyrillic, text, i);
      var gap := RunEnd(Joins, text, word);
      !(word < gap < |text| && cyrillic(text[gap]))
    ensures IsWhole(cyrillic, text, (i, RunEnd(cyrillic, text, i)))
  {
    var word := RunEnd(cyrillic, text, i);
    var gap := RunEnd(Joins, text, word);
    if Reaches(cyrillic, text, word) {
      var k :| word <= k < |text| && cyrillic(text[k]) && text[k] !in {' ', '\t', '-'} && forall j :: word <= j < k ==> text[j] in {' ', '\t', '-'};
      assert false;
    }
  }

  lemma {:induction false} FoundAreWhole(cyrillic: char -> bool, text: string, i: nat)
    requires i <= |text|
    ensures forall j :: 0 <= j < |Found(cyrillic, text, i)| ==> IsWhole(cyrillic, text, Found(cyrillic, text, i)[j])
    decreases |text| - i
  {
    if i < |text| {
      if cyrillic(text[i]) {
        var end := PhraseEnd(cyrillic, text, i);
        PhraseIsWhole(cyrillic, text, i);
        FoundAreWhole(cyrillic, text, end);
        assert Found(cyrillic, text, i) == [(i, end)] + Found(cyrillic, text, end);
      } else {
        FoundAreWhole(cyrillic, text, i + 1);
      }
    }
  }

  /** The phrases follow one another without overlap, and every Cyrillic letter is in one. */
  lemma FoundAre(cyrillic: char -> bool, text: string)
    ensures InOrder(Found(cyrillic, text, 0), 0, |text|)
    ensures forall k :: 0 <= k < |text| && cyrillic(text[k]) ==> InSome(Found(cyrillic, text, 0), k)
    ensures forall j :: 0 <= j < |Found(cyrillic, text, 0)| ==> IsWhole(cyrillic, text, Found(cyrillic, text, 0)[j])
  {
    FoundInOrder(cyrillic, text, 0);
    FoundAreWhole(cyrillic, text, 0);
    forall k | 0 <= k < |text| && cyrillic(text[k]) ensures InSome(Found(cyrillic, text, 0), k) { FoundCovers(cyrillic, text, 0, k); }
  }

  lemma InTail(first: (nat, nat), rest: seq<(nat, nat)>, k: nat)
    requires InSome(rest, k)
    ensures InSome([first] + rest, k)
  {
    var i :| 0 <= i < |rest| && rest[i].0 <= k < rest[i].1;
    assert ([first] + rest)[i + 1] == rest[i];
  }

  /** A phrase and where it stands, as the browser counts. */
  datatype Place = Place(phrase: string, span: Span)

  function PlaceAt(turn: DialogueTurn, bounds: (nat, nat)): Place
    requires bounds.0 <= bounds.1 <= |turn.answer|
  {
    Place(turn.answer[bounds.0..bounds.1], Span(|Utf16(turn.answer[..bounds.0])|, |Utf16(turn.answer[..bounds.1])|, turn.sequence))
  }

  function TurnPhrases(cyrillic: char -> bool, turn: DialogueTurn): (bounds: seq<(nat, nat)>)
    ensures InOrder(bounds, 0, |turn.answer|)
  {
    FoundInOrder(cyrillic, turn.answer, 0);
    Found(cyrillic, turn.answer, 0)
  }

  function TurnPlaces(cyrillic: char -> bool, turn: DialogueTurn): set<Place> {
    var bounds := TurnPhrases(cyrillic, turn);
    set i | 0 <= i < |bounds| :: PlaceAt(turn, bounds[i])
  }

  /** What the first pass has to find. */
  function Places(cyrillic: char -> bool, texts: seq<DialogueTurn>): set<Place> {
    if texts == [] then {} else Places(cyrillic, texts[..|texts| - 1]) + TurnPlaces(cyrillic, texts[|texts| - 1])
  }

  lemma Utf16Grows(text: string, a: nat, b: nat)
    requires a <= b <= |text|
    ensures |Utf16(text[..a])| + (b - a) <= |Utf16(text[..b])|
  {
    assert text[..b] == text[..a] + text[a..b];
    Utf16Append(text[..a], text[a..b]);
    Utf16AtLeast(text[a..b]);
  }

  lemma {:induction false} Utf16AtLeast(text: string)
    ensures |text| <= |Utf16(text)|
  {
    if text != "" { Utf16AtLeast(text[..|text| - 1]); }
  }

  lemma LaterIsApart(turn: DialogueTurn, a: (nat, nat), b: (nat, nat))
    requires a.0 <= a.1 <= b.0 <= b.1 <= |turn.answer|
    ensures !Overlap(Some(PlaceAt(turn, a).span), Some(PlaceAt(turn, b).span))
    ensures !Overlap(Some(PlaceAt(turn, b).span), Some(PlaceAt(turn, a).span))
  {
    Utf16Grows(turn.answer, a.1, b.0);
  }

  lemma PlaceIndex(cyrillic: char -> bool, turn: DialogueTurn, p: Place) returns (i: nat)
    requires p in TurnPlaces(cyrillic, turn)
    ensures i < |TurnPhrases(cyrillic, turn)| && p == PlaceAt(turn, TurnPhrases(cyrillic, turn)[i])
  {
    var bounds := TurnPhrases(cyrillic, turn);
    i :| 0 <= i < |bounds| && p == PlaceAt(turn, bounds[i]);
  }

  lemma OrderedApart(turn: DialogueTurn, bounds: seq<(nat, nat)>, i: nat, j: nat)
    requires InOrder(bounds, 0, |turn.answer|) && i < |bounds| && j < |bounds| && i != j
    ensures !Overlap(Some(PlaceAt(turn, bounds[i]).span), Some(PlaceAt(turn, bounds[j]).span))
  {
    if i < j { LaterIsApart(turn, bounds[i], bounds[j]); } else { LaterIsApart(turn, bounds[j], bounds[i]); }
  }

  lemma TurnPlacesApart(cyrillic: char -> bool, turn: DialogueTurn, p: Place, q: Place)
    requires p in TurnPlaces(cyrillic, turn) && q in TurnPlaces(cyrillic, turn) && p != q
    ensures !Overlap(Some(p.span), Some(q.span))
  {
    var i := PlaceIndex(cyrillic, turn, p);
    var j := PlaceIndex(cyrillic, turn, q);
    OrderedApart(turn, TurnPhrases(cyrillic, turn), i, j);
  }

  lemma {:induction false} PlaceIsInTurn(cyrillic: char -> bool, texts: seq<DialogueTurn>, p: Place)
    requires p in Places(cyrillic, texts)
    ensures exists i :: 0 <= i < |texts| && p in TurnPlaces(cyrillic, texts[i]) && p.span.turn == texts[i].sequence
  {
    var init := texts[..|texts| - 1];
    if p in Places(cyrillic, init) {
      PlaceIsInTurn(cyrillic, init, p);
      var i :| 0 <= i < |init| && p in TurnPlaces(cyrillic, init[i]) && p.span.turn == init[i].sequence;
      assert texts[i] == init[i];
    } else {
      assert p in TurnPlaces(cyrillic, texts[|texts| - 1]);
    }
  }

  predicate DistinctTurns(texts: seq<DialogueTurn>) {
    forall i, j :: 0 <= i < j < |texts| ==> texts[i].sequence != texts[j].sequence
  }

  /** Two of the places do not overlap, and each has a width. */
  lemma PlacesApart(cyrillic: char -> bool, texts: seq<DialogueTurn>, p: Place, q: Place)
    requires DistinctTurns(texts) && p in Places(cyrillic, texts) && q in Places(cyrillic, texts) && p != q
    ensures !Overlap(Some(p.span), Some(q.span))
  {
    PlaceIsInTurn(cyrillic, texts, p);
    PlaceIsInTurn(cyrillic, texts, q);
    var i :| 0 <= i < |texts| && p in TurnPlaces(cyrillic, texts[i]) && p.span.turn == texts[i].sequence;
    var j :| 0 <= j < |texts| && q in TurnPlaces(cyrillic, texts[j]) && q.span.turn == texts[j].sequence;
    if i == j { TurnPlacesApart(cyrillic, texts[i], p, q); }
  }

  // ---- The required phrases -----------------------------------------------------------

  function Added(out: seq<string>, phrase: string): seq<string> { if phrase in out then out else out + [phrase] }

  function AllAdded(out: seq<string>, phrases: seq<string>): seq<string> {
    if phrases == [] then out else Added(AllAdded(out, phrases[..|phrases| - 1]), phrases[|phrases| - 1])
  }

  function PhraseTexts(text: string, bounds: seq<(nat, nat)>): (texts: seq<string>)
    requires InOrder(bounds, 0, |text|)
    ensures |texts| == |bounds| && forall i :: 0 <= i < |bounds| ==> texts[i] == text[bounds[i].0..bounds[i].1]
  {
    seq(|bounds|, i requires 0 <= i < |bounds| => text[bounds[i].0..bounds[i].1])
  }

  function TurnTexts(cyrillic: char -> bool, turn: DialogueTurn): seq<string> {
    PhraseTexts(turn.answer, TurnPhrases(cyrillic, turn))
  }

  function RussianIn(cyrillic: char -> bool, texts: seq<DialogueTurn>): seq<string> {
    if texts == [] then []
    else AllAdded(RussianIn(cyrillic, texts[..|texts| - 1]), AllAdded([], TurnTexts(cyrillic, texts[|texts| - 1])))
  }

  lemma {:induction false} AllAddedAre(out: seq<string>, phrases: seq<string>, x: string)
    ensures x in AllAdded(out, phrases) <==> x in out || x in phrases
  {
    if phrases != [] {
      AllAddedAre(out, phrases[..|phrases| - 1], x);
      assert phrases == phrases[..|phrases| - 1] + [phrases[|phrases| - 1]];
    }
  }

  /** Where a phrase stands for the first time. */
  function FirstAt(phrases: seq<string>, x: string): (at: nat)
    requires x in phrases
    ensures at < |phrases| && phrases[at] == x && x !in phrases[..at]
  {
    if x in phrases[..|phrases| - 1] then
      var at := FirstAt(phrases[..|phrases| - 1], x);
      assert phrases[..|phrases| - 1][..at] == phrases[..at];
      at
    else
      assert phrases == phrases[..|phrases| - 1] + [phrases[|phrases| - 1]];
      |phrases| - 1
  }

  /** Each phrase stands in the list once, in the order of the first occurrences. */
  ghost predicate OnceInOrder(out: seq<string>, phrases: seq<string>) {
    && (forall x :: x in out <==> x in phrases)
    && forall i, j :: 0 <= i < j < |out| ==> out[i] in phrases && out[j] in phrases && FirstAt(phrases, out[i]) < FirstAt(phrases, out[j])
  }

  lemma FirstAtGrows(phrases: seq<string>, last: string, x: string)
    requires x in phrases
    ensures x in phrases + [last] && FirstAt(phrases + [last], x) == FirstAt(phrases, x)
  {
    assert (phrases + [last])[..|phrases|] == phrases;
  }

  lemma OnceInOrderSnoc(out: seq<string>, phrases: seq<string>, last: string)
    requires OnceInOrder(out, phrases)
    ensures OnceInOrder(Added(out, last), phrases + [last])
  {
    var longer, all := Added(out, last), phrases + [last];
    forall i, j | 0 <= i < j < |longer| ensures longer[i] in all && longer[j] in all && FirstAt(all, longer[i]) < FirstAt(all, longer[j]) {
      assert longer[i] == out[i] && out[i] in phrases;
      FirstAtGrows(phrases, last, out[i]);
      if j < |out| {
        assert out[j] in phrases;
        FirstAtGrows(phrases, last, out[j]);
      } else {
        assert longer[j] == last && last !in phrases;
      }
    }
  }

  lemma {:induction false} AddedOnce(phrases: seq<string>)
    ensures OnceInOrder(AllAdded([], phrases), phrases)
  {
    if phrases != [] {
      var init, last := phrases[..|phrases| - 1], phrases[|phrases| - 1];
      AddedOnce(init);
      OnceInOrderSnoc(AllAdded([], init), init, last);
      assert phrases == init + [last];
    }
  }

  /** The phrases of all answers, one answer after the other. */
  function AllTexts(cyrillic: char -> bool, texts: seq<DialogueTurn>): seq<string> {
    if texts == [] then [] else AllTexts(cyrillic, texts[..|texts| - 1]) + TurnTexts(cyrillic, texts[|texts| - 1])
  }

  lemma {:induction false} AddedAppend(out: seq<string>, a: seq<string>, b: seq<string>)
    ensures AllAdded(AllAdded(out, a), b) == AllAdded(out, a + b)
    decreases |b|
  {
    if b == [] {
      assert a + b == a;
    } else {
      AddedAppend(out, a, b[..|b| - 1]);
      assert (a + b)[..|a + b| - 1] == a + b[..|b| - 1];
    }
  }

  /** Adding what another list added adds the same. */
  lemma {:induction false} AddedTwice(out: seq<string>, phrases: seq<string>)
    ensures AllAdded(out, AllAdded([], phrases)) == AllAdded(out, phrases)
  {
    if phrases != [] {
      var init, last := phrases[..|phrases| - 1], phrases[|phrases| - 1];
      AddedTwice(out, init);
      AllAddedAre([], init, last);
      AllAddedAre(out, init, last);
      if last !in init { assert (AllAdded([], init) + [last])[..|AllAdded([], init)|] == AllAdded([], init); }
    }
  }

  /** The required phrases are those of the answers, each once, in the order they first occur. */
  lemma {:induction false} RussianInOrder(cyrillic: char -> bool, texts: seq<DialogueTurn>)
    ensures RussianIn(cyrillic, texts) == AllAdded([], AllTexts(cyrillic, texts))
    ensures OnceInOrder(RussianIn(cyrillic, texts), AllTexts(cyrillic, texts))
  {
    if texts != [] {
      var init, last := texts[..|texts| - 1], TurnTexts(cyrillic, texts[|texts| - 1]);
      RussianInOrder(cyrillic, init);
      AddedTwice(RussianIn(cyrillic, init), last);
      AddedAppend([], AllTexts(cyrillic, init), last);
    }
    AddedOnce(AllTexts(cyrillic, texts));
  }

  /** `extractRussianPhrases`, behind the regular expression engine. */
  method ExtractRussianPhrases(phrases: seq<string>) returns (out: seq<string>)
    ensures out == AllAdded([], phrases)
  {
    out := [];
    var seen: set<string> := {};
    for n := 0 to |phrases|
      invariant out == AllAdded([], phrases[..n]) && seen == set x | x in out
    {
      assert phrases[..n + 1][..n] == phrases[..n];
      if phrases[n] in seen {
        continue;
      }
      seen := seen + {phrases[n]};
      out := out + [phrases[n]];
    }
    assert phrases[..|phrases|] == phrases;
  }

  /** `analysisRussianPhrases` over the turns of an interview. */
  method AnalysisRussianPhrases(cyrillic: char -> bool, turns: seq<DialogueTurn>) returns (out: seq<string>)
    ensures out == RussianIn(cyrillic, turns)
  {
    out := [];
    var seen: set<string> := {};
    for n := 0 to |turns|
      invariant out == RussianIn(cyrillic, turns[..n]) && seen == set x | x in out
    {
      assert turns[..n + 1][..n] == turns[..n];
      var phrases := ExtractRussianPhrases(TurnTexts(cyrillic, turns[n]));
      ghost var before := out;
      for m := 0 to |phrases|
        invariant out == AllAdded(before, phrases[..m]) && seen == set x | x in out
      {
        assert phrases[..m + 1][..m] == phrases[..m];
        if phrases[m] !in seen {
          seen := seen + {phrases[m]};
          out := out + [phrases[m]];
        }
      }
      assert phrases[..|phrases|] == phrases;
    }
    assert turns[..|turns|] == turns;
  }

  predicate IsPhrase(places: set<Place>, x: string) { exists p :: p in places && p.phrase == x }

  lemma TurnTextsAre(cyrillic: char -> bool, turn: DialogueTurn, x: string)
    ensures x in TurnTexts(cyrillic, turn) <==> IsPhrase(TurnPlaces(cyrillic, turn), x)
  {
    var bounds, texts := TurnPhrases(cyrillic, turn), TurnTexts(cyrillic, turn);
    if x in texts {
      var i :| 0 <= i < |texts| && texts[i] == x;
      assert PlaceAt(turn, bounds[i]) in TurnPlaces(cyrillic, turn) && PlaceAt(turn, bounds[i]).phrase == x;
    }
    if IsPhrase(TurnPlaces(cyrillic, turn), x) {
      var p :| p in TurnPlaces(cyrillic, turn) && p.phrase == x;
      var i := PlaceIndex(cyrillic, turn, p);
      assert texts[i] == x;
    }
  }

  /** The required phrases are the phrases of the places: none means nothing to find. */
  lemma {:induction false} RussianAre(cyrillic: char -> bool, texts: seq<DialogueTurn>, x: string)
    ensures x in RussianIn(cyrillic, texts) <==> IsPhrase(Places(cyrillic, texts), x)
  {
    if texts != [] {
      var init, last := texts[..|texts| - 1], texts[|texts| - 1];
      RussianAre(cyrillic, init, x);
      AllAddedAre([], TurnTexts(cyrillic, last), x);
      AllAddedAre(RussianIn(cyrillic, init), AllAdded([], TurnTexts(cyrillic, last)), x);
      TurnTextsAre(cyrillic, last, x);
      if IsPhrase(Places(cyrillic, texts), x) {
        var p :| p in Places(cyrillic, texts) && p.phrase == x;
        assert p in Places(cyrillic, init) || p in TurnPlaces(cyrillic, last);
      }
      if IsPhrase(Places(cyrillic, init), x) {
        var p :| p in Places(cyrillic, init) && p.phrase == x;
        assert p in Places(cyrillic, texts);
      }
      if IsPhrase(TurnPlaces(cyrillic, last), x) {
        var p :| p in TurnPlaces(cyrillic, last) && p.phrase == x;
        assert p in Places(cyrillic, texts);
      }
    }
  }
}
