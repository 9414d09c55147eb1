/** When the language pass can be answered at all (`internal/recording/analysis_types.go`,
    `analysis_support.go`, `feedback_span.go`).

    The expected places come from a regular expression, which takes Cyrillic letters wherever they
    stand; a candidate can only be anchored where its words stand as whole words, and is refused
    when it quotes too much.  Where the two disagree no response is acceptable. */
module LanguagePass {
  import opened Prelude
  import opened Text
  import opened Timeline
  import opened FeedbackSpan
  import opened Phrases
  import opened Detectors

  /** A phrase of the text that a candidate can quote and that resolves to its own place. */
  predicate Stands(policy: Policy, transcript: string, text: string, bounds: (nat, nat))
    requires bounds.0 < bounds.1 <= |text|
  {
    var phrase := text[bounds.0..bounds.1];
    WholeAt(policy.word, text, phrase, bounds.0) && |phrase| <= 500 && Occurs(transcript, phrase)
  }

  predicate TurnStands(policy: Policy, transcript: string, turn: DialogueTurn) {
    var bounds := TurnPhrases(policy.cyrillic, turn);
    forall i :: 0 <= i < |bounds| ==> Stands(policy, transcript, turn.answer, bounds[i])
  }

  predicate Answerable(policy: Policy, transcript: string, turns: seq<DialogueTurn>) {
    var texts := Texts(transcript, turns);
    forall n :: 0 <= n < |texts| ==> TurnStands(policy, transcript, texts[n])
  }

  /** What is used of the character classes: some letter is Latin and not Cyrillic, and no white
      space is Cyrillic. */
  ghost predicate SaneScripts(policy: Policy) {
    policy.latin('a') && !policy.cyrillic('a') && forall c :: policy.cyrillic(c) ==> !IsSpace(c)
  }

  // ---- Where the phrases begin and end ------------------------------------------------

  predicate CyrillicEnds(cyrillic: char -> bool, text: string, bounds: (nat, nat)) {
    bounds.0 < bounds.1 <= |text| && cyrillic(text[bounds.0]) && cyrillic(text[bounds.1 - 1])
  }

  lemma {:induction false} FoundEnds(cyrillic: char -> bool, text: string, i: nat)
    requires i <= |text|
    ensures forall j :: 0 <= j < |Found(cyrillic, text, i)| ==> CyrillicEnds(cyrillic, text, Found(cyrillic, text, i)[j])
    decreases |text| - i
  {
    if i < |text| {
      if cyrillic(text[i]) {
        var end := PhraseEnd(cyrillic, text, i);
        FoundEnds(cyrillic, text, end);
        assert Found(cyrillic, text, i) == [(i, end)] + Found(cyrillic, text, end);
      } else {
        FoundEnds(cyrillic, text, i + 1);
      }
    }
  }

  lemma TrimNothing(s: string)
    requires s != "" && !IsSpace(s[0]) && !IsSpace(s[|s| - 1])
    ensures TrimSpace(s) == s
  {
  }

  lemma {:induction false} PlaceIsExpected(cyrillic: char -> bool, texts: seq<DialogueTurn>, n: nat, p: Place)
    requires n < |texts| && p in TurnPlaces(cyrillic, texts[n])
    ensures p in Places(cyrillic, texts)
  {
    if n < |texts| - 1 { PlaceIsExpected(cyrillic, texts[..|texts| - 1], n, p); }
  }

  // ---- An accepted response means that every phrase stands ----------------------------

  lemma {:induction false} SpanAtPosition(turn: DialogueTurn, phrase: string, positions: seq<nat>, occurrence: Option<int>, span: Span)
    returns (k: nat)
    requires span in SpansAt(turn, phrase, positions, occurrence)
    ensures k < |positions| && span == SpanAt(turn.answer, phrase, positions[k], turn.sequence)
  {
    k := |positions| - 1;
    if span in SpansAt(turn, phrase, positions[..k], occurrence) { k := SpanAtPosition(turn, phrase, positions[..k], occurrence, span); }
  }

  /** A match is a whole-word occurrence in one of the texts. */
  lemma {:induction false} MatchStands(word: WordClass, texts: seq<DialogueTurn>, phrase: string, sequence: Option<int>, occurrence: Option<int>, span: Span)
    returns (m: nat, q: nat)
    requires phrase != "" && span in FeedbackSpan.Matches(word, texts, phrase, sequence, occurrence)
    ensures m < |texts| && WholeAt(word, texts[m].answer, phrase, q) && span == SpanAt(texts[m].answer, phrase, q, texts[m].sequence)
  {
    m := |texts| - 1;
    if span in FeedbackSpan.Matches(word, texts[..m], phrase, sequence, occurrence) {
      m, q := MatchStands(word, texts[..m], phrase, sequence, occurrence, span);
    } else {
      var positions := Positions(word, texts[m].answer, phrase);
      var k := SpanAtPosition(texts[m], phrase, positions, occurrence, span);
      q := positions[k];
      PositionsAreExact(word, texts[m].answer, phrase);
      assert q in positions;
    }
  }

  lemma SamePosition(text: string, p: nat, q: nat)
    requires p <= |text| && q <= |text| && |Utf16(text[..p])| == |Utf16(text[..q])|
    ensures p == q
  {
    if p < q { Utf16Grows(text, p, q); } else { Utf16Grows(text, q, p); }
  }

  /** A span that is the place of a phrase and resolves is a whole-word occurrence at that place. */
  lemma ResolvedStands(word: WordClass, texts: seq<DialogueTurn>, n: nat, bounds: (nat, nat), sequence: Option<int>, occurrence: Option<int>)
    requires DistinctTurns(texts) && n < |texts| && bounds.0 < bounds.1 <= |texts[n].answer|
    requires
      var phrase := texts[n].answer[bounds.0..bounds.1];
      PlaceAt(texts[n], bounds).span in FeedbackSpan.Matches(word, texts, phrase, sequence, occurrence)
    ensures WholeAt(word, texts[n].answer, texts[n].answer[bounds.0..bounds.1], bounds.0)
  {
    var phrase := texts[n].answer[bounds.0..bounds.1];
    var m, q := MatchStands(word, texts, phrase, sequence, occurrence, PlaceAt(texts[n], bounds).span);
    assert m == n;
    SamePosition(texts[n].answer, bounds.0, q);
  }

  lemma {:induction false} DetectedFrom(policy: Policy, category: Category, transcript: string, turns: seq<DialogueTurn>, wires: seq<WireCandidate>,
                                        found: Candidates, candidate: Candidate) returns (wire: WireCandidate)
    requires AllDetected(policy, category, transcript, turns, wires) == Some(found) && candidate in found
    ensures DetectedBy(policy, category, transcript, turns, wire, candidate)
  {
    var init, last := DetectedSnoc(policy, category, transcript, turns, wires);
    if candidate in init {
      wire := DetectedFrom(policy, category, transcript, turns, wires[..|wires| - 1], init, candidate);
    } else {
      wire := wires[|wires| - 1];
    }
  }

  lemma AcceptedIs(policy: Policy, transcript: string, turns: seq<DialogueTurn>, response: Response)
    requires Detectors.Answer(policy, LanguageSwitch, transcript, turns, response).Some?
    ensures
      var found := Detectors.Answer(policy, LanguageSwitch, transcript, turns, response).value;
      && response.Some? && SpansCovered(found, Places(policy.cyrillic, Texts(transcript, turns)))
      && AllDetected(policy, LanguageSwitch, transcript, turns, response.value) == Some(found)
  {
  }

  lemma AcceptedStands(policy: Policy, transcript: string, turns: seq<DialogueTurn>, response: Response, n: nat, i: nat)
    requires DistinctTurns(Texts(transcript, turns)) && Detectors.Answer(policy, LanguageSwitch, transcript, turns, response).Some?
    requires n < |Texts(transcript, turns)| && i < |TurnPhrases(policy.cyrillic, Texts(transcript, turns)[n])|
    ensures
      var turn := Texts(transcript, turns)[n];
      Stands(policy, transcript, turn.answer, TurnPhrases(policy.cyrillic, turn)[i])
  {
    var texts, found := Texts(transcript, turns), Detectors.Answer(policy, LanguageSwitch, transcript, turns, response).value;
    var bounds := TurnPhrases(policy.cyrillic, texts[n])[i];
    var p := PlaceAt(texts[n], bounds);
    AcceptedIs(policy, transcript, turns, response);
    PlaceIsExpected(policy.cyrillic, texts, n, p);
    CoveredPlaces(found, Places(policy.cyrillic, texts), p);
    var j :| 0 <= j < |found| && PlaceOf(found[j]) == Some(p);
    var wire := DetectedFrom(policy, LanguageSwitch, transcript, turns, response.value, found, found[j]);
    CandidateStands(policy, transcript, turns, wire, found[j], n, bounds);
  }

  lemma CandidateStands(policy: Policy, transcript: string, turns: seq<DialogueTurn>, wire: WireCandidate, candidate: Candidate,
                        n: nat, bounds: (nat, nat))
    requires DistinctTurns(Texts(transcript, turns)) && DetectedBy(policy, LanguageSwitch, transcript, turns, wire, candidate)
    requires n < |Texts(transcript, turns)| && bounds.0 < bounds.1 <= |Texts(transcript, turns)[n].answer|
    requires PlaceOf(candidate) == Some(PlaceAt(Texts(transcript, turns)[n], bounds))
    ensures Stands(policy, transcript, Texts(transcript, turns)[n].answer, bounds)
  {
    ResolvedStands(policy.word, Texts(transcript, turns), n, bounds, wire.turn, wire.occurrence);
  }

  // ---- If every phrase stands, the response that quotes them is accepted --------------

  lemma MatchesSnoc(word: WordClass, texts: seq<DialogueTurn>, phrase: string, sequence: int, k: int)
    requires texts != []
    ensures
      var turn := texts[|texts| - 1];
      FeedbackSpan.Matches(word, texts, phrase, Some(sequence), Some(k))
      == FeedbackSpan.Matches(word, texts[..|texts| - 1], phrase, Some(sequence), Some(k))
         + if turn.sequence == sequence then SpansAt(turn, phrase, Positions(word, turn.answer, phrase), Some(k)) else []
  {
  }

  lemma {:induction false} NoneWanted(word: WordClass, texts: seq<DialogueTurn>, phrase: string, sequence: int, k: int)
    requires forall m :: 0 <= m < |texts| ==> texts[m].sequence != sequence
    ensures FeedbackSpan.Matches(word, texts, phrase, Some(sequence), Some(k)) == []
  {
    if texts != [] {
      MatchesSnoc(word, texts, phrase, sequence, k);
      NoneWanted(word, texts[..|texts| - 1], phrase, sequence, k);
    }
  }

  lemma {:induction false} OneTurnMatches(word: WordClass, texts: seq<DialogueTurn>, n: nat, phrase: string, k: int)
    requires DistinctTurns(texts) && n < |texts|
    ensures FeedbackSpan.Matches(word, texts, phrase, Some(texts[n].sequence), Some(k))
      == SpansAt(texts[n], phrase, Positions(word, texts[n].answer, phrase), Some(k))
  {
    var init := texts[..|texts| - 1];
    MatchesSnoc(word, texts, phrase, texts[n].sequence, k);
    if n < |init| {
      assert texts[|init|].sequence != texts[n].sequence;
      OneTurnMatches(word, init, n, phrase, k);
    } else {
      NoneWanted(word, init, phrase, texts[n].sequence, k);
    }
  }

  /** A whole-word occurrence resolves under the number of its turn and its own number. */
  lemma OccurrenceResolves(word: WordClass, transcript: string, turns: seq<DialogueTurn>, n: nat, phrase: string, p: nat) returns (k: nat)
    requires DistinctTurns(Texts(transcript, turns)) && n < |Texts(transcript, turns)|
    requires phrase != "" && WholeAt(word, Texts(transcript, turns)[n].answer, phrase, p)
    ensures
      var turn := Texts(transcript, turns)[n];
      Resolved(word, transcript, phrase, turns, Some(turn.sequence), Some(k)) == Some(SpanAt(turn.answer, phrase, p, turn.sequence))
  {
    var turn := Texts(transcript, turns)[n];
    k := OccurrenceNumber(word, turn, phrase, p);
    OneTurnMatches(word, Texts(transcript, turns), n, phrase, k);
  }

  lemma PositionIndex(word: WordClass, text: string, phrase: string, p: nat) returns (i: nat)
    requires phrase != "" && WholeAt(word, text, phrase, p)
    ensures i < |Positions(word, text, phrase)| && Positions(word, text, phrase)[i] == p
  {
    PositionsAreExact(word, text, phrase);
    assert p in Positions(word, text, phrase);
    i :| 0 <= i < |Positions(word, text, phrase)| && Positions(word, text, phrase)[i] == p;
  }

  lemma OccurrenceNumber(word: WordClass, turn: DialogueTurn, phrase: string, p: nat) returns (k: nat)
    requires phrase != "" && WholeAt(word, turn.answer, phrase, p)
    ensures k >= 1 && SpansAt(turn, phrase, Positions(word, turn.answer, phrase), Some(k)) == [SpanAt(turn.answer, phrase, p, turn.sequence)]
  {
    var i := PositionIndex(word, turn.answer, phrase, p);
    k := i + 1;
    OneOccurrence(turn, phrase, Positions(word, turn.answer, phrase), k);
  }

  /** Corrected into the script that the pass asks for. */
  predicate Corrects(policy: Policy, candidate: Candidate) {
    Has(policy.latin, candidate.right) && !Has(policy.cyrillic, candidate.right)
  }

  lemma QuoteIsWellFormed(policy: Policy, transcript: string, phrase: string, turn: int, k: int)
    requires SaneScripts(policy) && phrase != "" && policy.cyrillic(phrase[0]) && policy.cyrillic(phrase[|phrase| - 1])
    requires |phrase| <= 500 && Occurs(transcript, phrase)
    ensures WellFormed(transcript, WireCandidate(Some(turn), Some(k), phrase, "a", "a", None))
    ensures TrimSpace(phrase) == phrase && TrimSpace("a") == "a"
  {
    TrimNothing(phrase);
    TrimNothing("a");
    assert "a"[0] == 'a';
  }

  /** What a candidate is that quotes a phrase and corrects it into "a". */
  lemma QuoteIsDetected(policy: Policy, transcript: string, turns: seq<DialogueTurn>, phrase: string, turn: int, k: int, span: Span)
    requires SaneScripts(policy) && phrase != "" && policy.cyrillic(phrase[0]) && policy.cyrillic(phrase[|phrase| - 1])
    requires |phrase| <= 500 && Occurs(transcript, phrase)
    requires Resolved(policy.word, transcript, phrase, turns, Some(turn), Some(k)) == Some(span)
    ensures
      var wire := WireCandidate(Some(turn), Some(k), phrase, "a", "a", None);
      DetectedBy(policy, LanguageSwitch, transcript, turns, wire, Candidate("", phrase, "a", "a", LanguageSwitch, "", Some(span), 0))
  {
    QuoteIsWellFormed(policy, transcript, phrase, turn, k);
  }

  lemma PlaceIsOccurrence(turn: DialogueTurn, bounds: (nat, nat))
    requires bounds.0 < bounds.1 <= |turn.answer|
    ensures
      var phrase := turn.answer[bounds.0..bounds.1];
      PlaceAt(turn, bounds) == Place(phrase, SpanAt(turn.answer, phrase, bounds.0, turn.sequence))
  {
  }

  lemma LatinLetterCorrects(policy: Policy, candidate: Candidate)
    requires SaneScripts(policy) && candidate.right == "a"
    ensures Corrects(policy, candidate)
  {
    assert policy.latin(candidate.right[0]);
  }

  lemma WireFor(policy: Policy, transcript: string, turns: seq<DialogueTurn>, n: nat, bounds: (nat, nat))
    returns (wire: WireCandidate, candidate: Candidate)
    requires SaneScripts(policy) && DistinctTurns(Texts(transcript, turns)) && n < |Texts(transcript, turns)|
    requires CyrillicEnds(policy.cyrillic, Texts(transcript, turns)[n].answer, bounds)
    requires Stands(policy, transcript, Texts(transcript, turns)[n].answer, bounds)
    ensures DetectedBy(policy, LanguageSwitch, transcript, turns, wire, candidate) && Corrects(policy, candidate)
    ensures PlaceOf(candidate) == Some(PlaceAt(Texts(transcript, turns)[n], bounds))
  {
    var turn := Texts(transcript, turns)[n];
    var phrase := turn.answer[bounds.0..bounds.1];
    var span := SpanAt(turn.answer, phrase, bounds.0, turn.sequence);
    var k := OccurrenceResolves(policy.word, transcript, turns, n, phrase, bounds.0);
    wire := WireCandidate(Some(turn.sequence), Some(k), phrase, "a", "a", None);
    candidate := Candidate("", phrase, "a", "a", LanguageSwitch, "", Some(span), 0);
    assert phrase[0] == turn.answer[bounds.0] && phrase[|phrase| - 1] == turn.answer[bounds.1 - 1];
    QuoteIsDetected(policy, transcript, turns, phrase, turn.sequence, k, span);
    LatinLetterCorrects(policy, candidate);
    PlaceIsOccurrence(turn, bounds);
  }

  /** A response for some of the places. */
  lemma {:induction false} Respond(policy: Policy, transcript: string, turns: seq<DialogueTurn>, places: set<Place>) returns (wires: seq<WireCandidate>)
    requires SaneScripts(policy) && DistinctTurns(Texts(transcript, turns)) && Answerable(policy, transcript, turns)
    requires places <= Places(policy.cyrillic, Texts(transcript, turns))
    ensures
      var found := AllDetected(policy, LanguageSwitch, transcript, turns, wires);
      found.Some? && SpansCovered(found.value, places) && forall j :: 0 <= j < |found.value| ==> Corrects(policy, found.value[j])
    decreases |places|
  {
    if places == {} {
      wires := [];
    } else {
      var p :| p in places;
      var rest := Respond(policy, transcript, turns, places - {p});
      var wire, candidate := WireAt(policy, transcript, turns, p);
      wires := rest + [wire];
      assert wires[..|wires| - 1] == rest;
      OneMoreCovered(AllDetected(policy, LanguageSwitch, transcript, turns, rest).value, candidate, places, p);
    }
  }

  lemma OneMoreCovered(found: Candidates, candidate: Candidate, places: set<Place>, p: Place)
    requires p in places && SpansCovered(found, places - {p}) && PlaceOf(candidate) == Some(p)
    ensures SpansCovered(found + [candidate], places)
  {
  }

  lemma WireAt(policy: Policy, transcript: string, turns: seq<DialogueTurn>, p: Place) returns (wire: WireCandidate, candidate: Candidate)
    requires SaneScripts(policy) && DistinctTurns(Texts(transcript, turns)) && Answerable(policy, transcript, turns)
    requires p in Places(policy.cyrillic, Texts(transcript, turns))
    ensures DetectedBy(policy, LanguageSwitch, transcript, turns, wire, candidate) && Corrects(policy, candidate)
    ensures PlaceOf(candidate) == Some(p)
  {
    var texts := Texts(transcript, turns);
    PlaceIsInTurn(policy.cyrillic, texts, p);
    var n :| 0 <= n < |texts| && p in TurnPlaces(policy.cyrillic, texts[n]) && p.span.turn == texts[n].sequence;
    var i := PlaceIndex(policy.cyrillic, texts[n], p);
    assert TurnStands(policy, transcript, texts[n]);
    FoundEnds(policy.cyrillic, texts[n].answer, 0);
    wire, candidate := WireFor(policy, transcript, turns, n, TurnPhrases(policy.cyrillic, texts[n])[i]);
  }

  // ---- There are no more required phrases than places ---------------------------------

  predicate Distinct(s: seq<string>) { forall i, j :: 0 <= i < j < |s| ==> s[i] != s[j] }

  lemma {:induction false} AddedOnce(out: seq<string>, phrases: seq<string>)
    requires Distinct(out)
    ensures Distinct(AllAdded(out, phrases))
  {
    if phrases != [] { AddedOnce(out, phrases[..|phrases| - 1]); }
  }

  lemma {:induction false} RussianOnce(cyrillic: char -> bool, texts: seq<DialogueTurn>)
    ensures Distinct(RussianIn(cyrillic, texts))
  {
    if texts != [] {
      RussianOnce(cyrillic, texts[..|texts| - 1]);
      AddedOnce(RussianIn(cyrillic, texts[..|texts| - 1]), AllAdded([], TurnTexts(cyrillic, texts[|texts| - 1])));
    }
  }

  lemma RequiredOnce(cyrillic: char -> bool, transcript: string, turns: seq<DialogueTurn>)
    ensures Distinct(Required(cyrillic, transcript, turns))
  {
    if |turns| == 0 { AddedOnce([], TurnTexts(cyrillic, DialogueTurn(0, "", transcript))); } else { RussianOnce(cyrillic, turns); }
  }

  /** Distinct phrases stand at distinct places. */
  lemma {:induction false} FewerPhrases(phrases: seq<string>, places: set<Place>)
    requires Distinct(phrases) && forall i :: 0 <= i < |phrases| ==> IsPhrase(places, phrases[i])
    ensures |phrases| <= |places|
  {
    if phrases != [] {
      var init, last := phrases[..|phrases| - 1], phrases[|phrases| - 1];
      var p :| p in places && p.phrase == last;
      forall i | 0 <= i < |init| ensures IsPhrase(places - {p}, init[i]) {
        var q :| q in places && q.phrase == phrases[i];
        assert q in places - {p};
      }
      FewerPhrases(init, places - {p});
    }
  }

  lemma PlacesCover(policy: Policy, transcript: string, turns: seq<DialogueTurn>, found: Candidates)
    requires SpansCovered(found, Places(policy.cyrillic, Texts(transcript, turns)))
    requires forall j :: 0 <= j < |found| ==> Corrects(policy, found[j])
    ensures Cover(policy, found, Required(policy.cyrillic, transcript, turns))
  {
    var required, places := Required(policy.cyrillic, transcript, turns), Places(policy.cyrillic, Texts(transcript, turns));
    forall i | 0 <= i < |required| ensures IsPhrase(places, required[i]) && Matched(policy, found, required[i]) {
      RequiredAre(policy.cyrillic, transcript, turns, required[i]);
      var p :| p in places && p.phrase == required[i];
      CoveredPlaces(found, places, p);
      var j :| 0 <= j < |found| && PlaceOf(found[j]) == Some(p);
      assert Detectors.Matches(policy, found[j], required[i]);
    }
    RequiredOnce(policy.cyrillic, transcript, turns);
    FewerPhrases(required, places);
  }

  /** Some response of the language pass is acceptable exactly when every Cyrillic phrase stands
      as a whole word, is short enough to be quoted and occurs in the transcript. */
  lemma AcceptableIff(policy: Policy, transcript: string, turns: seq<DialogueTurn>)
    requires SaneScripts(policy) && DistinctTurns(Texts(transcript, turns))
    ensures (exists response :: Detectors.Answer(policy, LanguageSwitch, transcript, turns, response).Some?) <==> Answerable(policy, transcript, turns)
  {
    var texts := Texts(transcript, turns);
    if response :| Detectors.Answer(policy, LanguageSwitch, transcript, turns, response).Some? {
      forall n | 0 <= n < |texts| ensures TurnStands(policy, transcript, texts[n]) {
        forall i | 0 <= i < |TurnPhrases(policy.cyrillic, texts[n])|
          ensures Stands(policy, transcript, texts[n].answer, TurnPhrases(policy.cyrillic, texts[n])[i])
        {
          AcceptedStands(policy, transcript, turns, response, n, i);
        }
      }
    }
    if Answerable(policy, transcript, turns) {
      var wires := Respond(policy, transcript, turns, Places(policy.cyrillic, texts));
      PlacesCover(policy, transcript, turns, AllDetected(policy, LanguageSwitch, transcript, turns, wires).value);
      assert Detectors.Answer(policy, LanguageSwitch, transcript, turns, Some(wires)).Some?;
    }
  }

  /** "YouTube" with a Russian noun attached to it. */
  const ATTACHED := "YouTube\U{43A}\U{430}\U{43D}\U{430}\U{43B}"

  /** The noun is a phrase to be found, and no candidate can be anchored in the middle of a word:
      whatever the model answers is refused. */
  lemma AttachedPhraseIsRefused(policy: Policy, response: Response)
    requires SaneScripts(policy) && policy.word('e') && policy.word('\U{43A}') && policy.cyrillic('\U{43A}')
    requires forall c :: c in "YouTube" ==> !policy.cyrillic(c)
    ensures Detectors.Answer(policy, LanguageSwitch, ATTACHED, [], response).None?
  {
    AttachedDoesNotStand(policy, DialogueTurn(0, "", ATTACHED));
    assert Texts(ATTACHED, [])[0] == DialogueTurn(0, "", ATTACHED);
    AcceptableIff(policy, ATTACHED, []);
  }

  /** The phrase that covers the first Cyrillic letter begins with it. */
  lemma FirstPhrase(cyrillic: char -> bool, text: string, n: nat) returns (i: nat)
    requires n < |text| && cyrillic(text[n]) && forall k :: 0 <= k < n ==> !cyrillic(text[k])
    ensures i < |Found(cyrillic, text, 0)|
    ensures Found(cyrillic, text, 0)[i].0 == n < Found(cyrillic, text, 0)[i].1 <= |text|
  {
    var bounds := Found(cyrillic, text, 0);
    FoundCovers(cyrillic, text, 0, n);
    i :| 0 <= i < |bounds| && bounds[i].0 <= n < bounds[i].1;
    FoundEnds(cyrillic, text, 0);
    assert CyrillicEnds(cyrillic, text, bounds[i]);
  }

  lemma AttachedAt(word: WordClass, text: string, bounds: (nat, nat))
    requires 0 < bounds.0 < bounds.1 <= |text| && word(text[bounds.0]) && word(text[bounds.0 - 1])
    ensures !WholeAt(word, text, text[bounds.0..bounds.1], bounds.0)
  {
  }

  lemma AttachedDoesNotStand(policy: Policy, turn: DialogueTurn)
    requires turn.answer == ATTACHED && policy.word('e') && policy.word('\U{43A}') && policy.cyrillic('\U{43A}')
    requires forall c :: c in "YouTube" ==> !policy.cyrillic(c)
    ensures !TurnStands(policy, ATTACHED, turn)
  {
    var text := ATTACHED;
    assert text[..7] == "YouTube" && text[6] == 'e' && text[7] == '\U{43A}';
    forall k | 0 <= k < 7 ensures !policy.cyrillic(text[k]) { assert text[..7][k] in "YouTube"; }
    var i := FirstPhrase(policy.cyrillic, text, 7);
    AttachedAt(policy.word, text, TurnPhrases(policy.cyrillic, turn)[i]);
  }
}
