/** What one detector answers (`internal/recording/analysis_prompts.go`, `analysis_types.go`,
    `analysis_service.go`).

    Every candidate is stamped with the category of the pass that asked for it, and the first
    pass must find exactly the Cyrillic phrases of the answers.  `policy` holds the character
    classes and the catalogue of rules; a response is the list of candidates found in it, or
    nothing when there is none. */
module Detectors {
  import opened Prelude
  import opened Text
  import opened Timeline
  import opened FeedbackSpan
  import opened Phrases

  datatype Category = LanguageSwitch | VerbGrammar | NounsDeterminers | Prepositions | Vocabulary | SentenceStructure | Naturalness

  /** The categories of `recordingAnalysisPasses`, in its order. */
  const PASSES: seq<Category> :=
    [LanguageSwitch, VerbGrammar, NounsDeterminers, Prepositions, Vocabulary, SentenceStructure, Naturalness]

  datatype Policy = Policy(word: WordClass, cyrillic: char -> bool, latin: char -> bool, reference: (string, Category) -> bool)

  datatype Candidate = Candidate(
    id: string, wrong: string, right: string, explanation: string,
    category: Category, rule: string, span: Option<Span>, pass: nat)

  type Candidates = seq<Candidate>

  datatype WireCandidate = WireCandidate(
    turn: Option<int>, occurrence: Option<int>, wrong: string, right: string, explanation: string, rule: Option<string>)

  type Response = Option<seq<WireCandidate>>

  // ---- One candidate ------------------------------------------------------------------

  predicate Occurs(text: string, phrase: string) { exists p: nat :: p <= |text| && OccursAt(text, phrase, p) }

  function RuleOf(policy: Policy, category: Category, rule: string): string {
    if policy.reference(TrimSpace(rule), category) then TrimSpace(rule) else ""
  }

  predicate WellFormed(transcript: string, wire: WireCandidate) {
    var wrong, right, explanation := TrimSpace(wire.wrong), TrimSpace(wire.right), TrimSpace(wire.explanation);
    && wrong != "" && right != "" && explanation != "" && wrong != right && Occurs(transcript, wrong)
    && |wrong| <= 500 && |right| <= 500 && |explanation| <= 1200
    && (wire.rule.Some? ==> |TrimSpace(wire.rule.value)| <= 80)
  }

  function Detected(policy: Policy, category: Category, transcript: string, turns: seq<DialogueTurn>, wire: WireCandidate): Option<Candidate> {
    var wrong := TrimSpace(wire.wrong);
    var span := Resolved(policy.word, transcript, wrong, turns, wire.turn, wire.occurrence);
    if !WellFormed(transcript, wire) || span.None? then None
    else
      var rule := if wire.rule.None? || TrimSpace(wire.rule.value) == "" then "" else RuleOf(policy, category, wire.rule.value);
      Some(Candidate("", wrong, TrimSpace(wire.right), TrimSpace(wire.explanation), category, rule, span, 0))
  }

  function AllDetected(policy: Policy, category: Category, transcript: string, turns: seq<DialogueTurn>, wires: seq<WireCandidate>)
    : Option<Candidates>
  {
    if wires == [] then Some([])
    else
      var before := AllDetected(policy, category, transcript, turns, wires[..|wires| - 1]);
      var last := Detected(policy, category, transcript, turns, wires[|wires| - 1]);
      if before.None? || last.None? then None else Some(before.value + [last.value])
  }

  method DetectCandidate(policy: Policy, category: Category, transcript: string, turns: seq<DialogueTurn>, wire: WireCandidate)
    returns (candidate: Option<Candidate>)
    ensures candidate == Detected(policy, category, transcript, turns, wire)
  {
    var wrong, right, explanation := TrimSpace(wire.wrong), TrimSpace(wire.right), TrimSpace(wire.explanation);
    if wrong == "" || right == "" || explanation == "" || wrong == right {
      return None;
    }
    var at := FeedbackSpan.Index(transcript, 0, wrong);
    if at.None? || |wrong| > 500 || |right| > 500 || |explanation| > 1200 {
      return None;
    }
    assert OccursAt(transcript, wrong, at.value);
    var span := ResolveFeedbackSpan(policy.word, transcript, wrong, turns, wire.turn, wire.occurrence);
    if span.None? {
      return None;
    }
    var rule := LookUpRule(policy, category, wire.rule);
    if rule.None? {
      return None;
    }
    return Some(Candidate("", wrong, right, explanation, category, rule.value, span, 0));
  }

  // ---- What is accepted ---------------------------------------------------------------

  /** The trimmed texts are there, differ and fit, the quoted one stands in the transcript, and the
      rule is not oversized. */
  ghost predicate Sendable(transcript: string, wire: WireCandidate) {
    && !Blank(wire.wrong) && !Blank(wire.right) && !Blank(wire.explanation) && TrimSpace(wire.wrong) != TrimSpace(wire.right)
    && |TrimSpace(wire.wrong)| <= 500 && |TrimSpace(wire.right)| <= 500 && |TrimSpace(wire.explanation)| <= 1200
    && (wire.rule == None || |TrimSpace(wire.rule.value)| <= 80)
    && exists before, after :: transcript == before + (TrimSpace(wire.wrong) + after)
  }

  /** The candidate says what was sent, at the place the quotation resolves to, in the category of
      the pass; its rule is the one that was sent if the catalogue has it for the category. */
  predicate SaysWhatWasSent(policy: Policy, category: Category, transcript: string, turns: seq<DialogueTurn>, wire: WireCandidate, candidate: Candidate) {
    && candidate.wrong == TrimSpace(wire.wrong) && candidate.right == TrimSpace(wire.right) && candidate.explanation == TrimSpace(wire.explanation)
    && candidate.span == Resolved(policy.word, transcript, TrimSpace(wire.wrong), turns, wire.turn, wire.occurrence)
    && candidate.category == category && candidate.id == "" && candidate.pass == 0
    && candidate.rule == if wire.rule.Some? && !Blank(wire.rule.value) && policy.reference(TrimSpace(wire.rule.value), category)
                         then TrimSpace(wire.rule.value) else ""
  }

  lemma OccursIff(text: string, phrase: string)
    ensures Occurs(text, phrase) <==> exists before, after :: text == before + (phrase + after)
  {
    if Occurs(text, phrase) {
      var p: nat :| p <= |text| && OccursAt(text, phrase, p);
      assert text == text[..p] + (phrase + text[p + |phrase|..]);
    }
    if before, after :| text == before + (phrase + after) {
      assert text[|before|..|before| + |phrase|] == phrase;
      assert OccursAt(text, phrase, |before|);
    }
  }

  lemma WellFormedIff(transcript: string, wire: WireCandidate)
    ensures WellFormed(transcript, wire) <==> Sendable(transcript, wire)
  {
    TrimBlank(wire.wrong);
    TrimBlank(wire.right);
    TrimBlank(wire.explanation);
    OccursIff(transcript, TrimSpace(wire.wrong));
  }

  /** A candidate is accepted exactly if it can be sent and its quotation resolves. */
  lemma DetectedIff(policy: Policy, category: Category, transcript: string, turns: seq<DialogueTurn>, wire: WireCandidate)
    ensures Detected(policy, category, transcript, turns, wire).Some? <==>
      Sendable(transcript, wire) && Resolved(policy.word, transcript, TrimSpace(wire.wrong), turns, wire.turn, wire.occurrence).Some?
    ensures Detected(policy, category, transcript, turns, wire).Some? ==>
      SaysWhatWasSent(policy, category, transcript, turns, wire, Detected(policy, category, transcript, turns, wire).value)
  {
    WellFormedIff(transcript, wire);
    if wire.rule.Some? { TrimBlank(wire.rule.value); }
  }

  /** An unknown rule is dropped; an oversized one is a reason to refuse. */
  method LookUpRule(policy: Policy, category: Category, wire: Option<string>) returns (rule: Option<string>)
    ensures rule.None? <==> wire.Some? && |TrimSpace(wire.value)| > 80
    ensures rule.Some? ==>
      rule.value == if wire.None? || TrimSpace(wire.value) == "" then "" else RuleOf(policy, category, wire.value)
  {
    var rawRule := "";
    if wire.Some? {
      rawRule := TrimSpace(wire.value);
      if |rawRule| > 80 {
        return None;
      }
    }
    return Some(if rawRule != "" && policy.reference(rawRule, category) then rawRule else "");
  }

  // ---- The language pass --------------------------------------------------------------

  predicate Matches(policy: Policy, candidate: Candidate, phrase: string) {
    candidate.wrong == phrase && Has(policy.latin, candidate.right) && !Has(policy.cyrillic, candidate.right)
  }

  predicate Matched(policy: Policy, candidates: Candidates, phrase: string) {
    exists j :: 0 <= j < |candidates| && Matches(policy, candidates[j], phrase)
  }

  predicate Cover(policy: Policy, candidates: Candidates, required: seq<string>) {
    |candidates| >= |required| && forall i :: 0 <= i < |required| ==> Matched(policy, candidates, required[i])
  }

  /** A candidate's place; two places are told apart by the hash of phrase and span. */
  function PlaceOf(candidate: Candidate): Option<Place> {
    if candidate.span.None? then None else Some(Place(candidate.wrong, candidate.span.value))
  }

  function PlacesOf(candidates: Candidates): set<Option<Place>> { set i | 0 <= i < |candidates| :: PlaceOf(candidates[i]) }

  predicate SpansCovered(candidates: Candidates, expected: set<Place>) {
    && |candidates| == |expected|
    && (forall i :: 0 <= i < |candidates| ==> PlaceOf(candidates[i]).Some? && PlaceOf(candidates[i]).value in expected)
    && forall i, j :: 0 <= i < j < |candidates| ==> PlaceOf(candidates[i]) != PlaceOf(candidates[j])
  }

  /** A candidate corrects exactly this phrase, with Latin letters and no Cyrillic ones. */
  predicate Corrected(policy: Policy, candidates: Candidates, phrase: string) {
    exists c :: c in candidates && c.wrong == phrase && Has(policy.latin, c.right) && !Has(policy.cyrillic, c.right)
  }

  lemma MatchedIff(policy: Policy, candidates: Candidates, phrase: string)
    ensures Matched(policy, candidates, phrase) <==> Corrected(policy, candidates, phrase)
  {
    if Corrected(policy, candidates, phrase) {
      var c :| c in candidates && c.wrong == phrase && Has(policy.latin, c.right) && !Has(policy.cyrillic, c.right);
      var j :| 0 <= j < |candidates| && candidates[j] == c;
      assert Matches(policy, candidates[j], phrase);
    }
  }

  lemma CoverIff(policy: Policy, candidates: Candidates, required: seq<string>)
    ensures Cover(policy, candidates, required) <==>
      |required| <= |candidates| && forall x :: x in required ==> Corrected(policy, candidates, x)
  {
    forall i | 0 <= i < |required| ensures Matched(policy, candidates, required[i]) <==> Corrected(policy, candidates, required[i]) {
      MatchedIff(policy, candidates, required[i]);
    }
    if Cover(policy, candidates, required) {
      forall x | x in required ensures Corrected(policy, candidates, x) {
        var i :| 0 <= i < |required| && required[i] == x;
      }
    } else if |required| <= |candidates| {
      var i :| 0 <= i < |required| && !Matched(policy, candidates, required[i]);
      assert required[i] in required;
    }
  }

  method LanguageCandidatesCover(policy: Policy, candidates: Candidates, required: seq<string>) returns (covers: bool)
    ensures covers <==> Cover(policy, candidates, required)
    ensures covers <==> |required| <= |candidates| && forall x :: x in required ==> Corrected(policy, candidates, x)
  {
    CoverIff(policy, candidates, required);
    if |candidates| < |required| {
      return false;
    }
    for n := 0 to |required|
      invariant forall i :: 0 <= i < n ==> Matched(policy, candidates, required[i])
    {
      var matches := 0;
      for m := 0 to |candidates|
        invariant matches > 0 <==> exists j :: 0 <= j < m && Matches(policy, candidates[j], required[n])
      {
        var candidate := candidates[m];
        if candidate.wrong == required[n] && Has(policy.latin, candidate.right) && !Has(policy.cyrillic, candidate.right) {
          assert Matches(policy, candidates[m], required[n]);
          matches := matches + 1;
        }
      }
      if matches < 1 {
        assert !Matched(policy, candidates, required[n]);
        return false;
      }
    }
    return true;
  }

  /** `expected` shrinks while candidates claim their places. */
  method LanguageCandidateSpansCovered(candidates: Candidates, places: set<Place>) returns (covered: bool)
    ensures covered <==> SpansCovered(candidates, places)
  {
    var expected := places;
    if |candidates| != |expected| {
      return false;
    }
    for n := 0 to |candidates|
      invariant expected <= places && |expected| == |places| - n
      invariant forall i :: 0 <= i < n ==> PlaceOf(candidates[i]).Some? && PlaceOf(candidates[i]).value in places - expected
      invariant forall p :: p in places - expected ==> exists i :: 0 <= i < n && PlaceOf(candidates[i]) == Some(p)
      invariant forall i, j :: 0 <= i < j < n ==> PlaceOf(candidates[i]) != PlaceOf(candidates[j])
    {
      var place := PlaceOf(candidates[n]);
      if place.None? || place.value !in expected {
        return false;
      }
      expected := expected - {place.value};
    }
    return |expected| == 0;
  }

  /** Covered means: the places found are exactly the expected ones. */
  lemma CoveredPlaces(candidates: Candidates, expected: set<Place>, p: Place)
    requires SpansCovered(candidates, expected) && p in expected
    ensures exists i :: 0 <= i < |candidates| && PlaceOf(candidates[i]) == Some(p)
  {
    var found, wanted := PlacesOf(candidates), set q | q in expected :: Some(q);
    DistinctPlaces(candidates);
    SomeCount(expected);
    assert found <= wanted;
    FullSubset(found, wanted);
    assert Some(p) in wanted;
  }

  lemma {:induction false} DistinctPlaces(candidates: Candidates)
    requires forall i, j :: 0 <= i < j < |candidates| ==> PlaceOf(candidates[i]) != PlaceOf(candidates[j])
    ensures |PlacesOf(candidates)| == |candidates|
  {
    if candidates != [] {
      var init, last := candidates[..|candidates| - 1], candidates[|candidates| - 1];
      DistinctPlaces(init);
      assert PlacesOf(candidates) == PlacesOf(init) + {PlaceOf(last)};
      assert PlaceOf(last) !in PlacesOf(init);
    }
  }

  lemma {:induction false} SomeCount(places: set<Place>)
    ensures |set q | q in places :: Some(q)| == |places|
    decreases |places|
  {
    if places != {} {
      var p :| p in places;
      SomeCount(places - {p});
      assert (set q | q in places :: Some(q)) == (set q | q in places - {p} :: Some(q)) + {Some(p)};
    }
  }

  // ---- One pass -----------------------------------------------------------------------

  function Required(cyrillic: char -> bool, transcript: string, turns: seq<DialogueTurn>): seq<string> {
    if |turns| == 0 then AllAdded([], TurnTexts(cyrillic, DialogueTurn(0, "", transcript))) else RussianIn(cyrillic, turns)
  }

  lemma RequiredAre(cyrillic: char -> bool, transcript: string, turns: seq<DialogueTurn>, x: string)
    ensures x in Required(cyrillic, transcript, turns) <==> IsPhrase(Places(cyrillic, Texts(transcript, turns)), x)
  {
    if |turns| == 0 {
      var turn := DialogueTurn(0, "", transcript);
      AllAddedAre([], TurnTexts(cyrillic, turn), x);
      TurnTextsAre(cyrillic, turn, x);
      assert [turn][..0] == [];
      assert Places(cyrillic, [turn]) == {} + TurnPlaces(cyrillic, turn) == TurnPlaces(cyrillic, turn);
    } else {
      RussianAre(cyrillic, turns, x);
    }
  }

  /** What one response yields, if it is acceptable. */
  function Answer(policy: Policy, category: Category, transcript: string, turns: seq<DialogueTurn>, response: Response): Option<Candidates> {
    if response.None? then None
    else
      var found := AllDetected(policy, category, transcript, turns, response.value);
      if found.None? then None
      else if category == LanguageSwitch
           && !(Cover(policy, found.value, Required(policy.cyrillic, transcript, turns))
                && SpansCovered(found.value, Places(policy.cyrillic, Texts(transcript, turns))))
      then None
      else found
  }

  function FirstAnswer(policy: Policy, category: Category, transcript: string, turns: seq<DialogueTurn>, responses: seq<Response>)
    : Option<Candidates>
  {
    if responses == [] then None
    else
      var answer := Answer(policy, category, transcript, turns, responses[0]);
      if answer.Some? then answer else FirstAnswer(policy, category, transcript, turns, responses[1..])
  }

  method ParseDetectorCandidates(policy: Policy, category: Category, transcript: string, turns: seq<DialogueTurn>,
                                 responses: seq<Response>)
    returns (found: Option<Candidates>)
    ensures found == FirstAnswer(policy, category, transcript, turns, responses)
  {
    assert responses[0..] == responses;
    for n := 0 to |responses|
      invariant FirstAnswer(policy, category, transcript, turns, responses[n..]) == FirstAnswer(policy, category, transcript, turns, responses)
    {
      assert responses[n..][1..] == responses[n + 1..];
      if responses[n].None? {
        continue;
      }
      var out := DetectAll(policy, category, transcript, turns, responses[n].value);
      if out.None? {
        continue;
      }
      var valid := category != LanguageSwitch;
      if !valid {
        valid := LanguageCandidatesCover(policy, out.value, Required(policy.cyrillic, transcript, turns));
      }
      if valid && category == LanguageSwitch {
        valid := LanguageCandidateSpansCovered(out.value, Places(policy.cyrillic, Texts(transcript, turns)));
      }
      if valid {
        return out;
      }
    }
    return None;
  }

  method DetectAll(policy: Policy, category: Category, transcript: string, turns: seq<DialogueTurn>, wires: seq<WireCandidate>)
    returns (out: Option<Candidates>)
    ensures out == AllDetected(policy, category, transcript, turns, wires)
  {
    var candidates: Candidates := [];
    for n := 0 to |wires|
      invariant AllDetected(policy, category, transcript, turns, wires[..n]) == Some(candidates)
    {
      assert wires[..n + 1][..n] == wires[..n];
      var candidate := DetectCandidate(policy, category, transcript, turns, wires[n]);
      if candidate.None? {
        RefusedByOne(policy, category, transcript, turns, wires, n);
        return None;
      }
      candidates := candidates + [candidate.value];
    }
    assert wires[..|wires|] == wires;
    return Some(candidates);
  }

  lemma {:induction false} RefusedByOne(policy: Policy, category: Category, transcript: string, turns: seq<DialogueTurn>, wires: seq<WireCandidate>, n: nat)
    requires n < |wires| && Detected(policy, category, transcript, turns, wires[n]).None?
    ensures AllDetected(policy, category, transcript, turns, wires).None?
    decreases |wires|
  {
    if n < |wires| - 1 { RefusedByOne(policy, category, transcript, turns, wires[..|wires| - 1], n); }
  }

  // ---- Which response is used ---------------------------------------------------------

  predicate DetectedBy(policy: Policy, category: Category, transcript: string, turns: seq<DialogueTurn>, wire: WireCandidate, candidate: Candidate) {
    Detected(policy, category, transcript, turns, wire) == Some(candidate)
  }

  /** Each candidate of the response is accepted, in its place. */
  predicate AcceptsAll(policy: Policy, category: Category, transcript: string, turns: seq<DialogueTurn>, wires: seq<WireCandidate>, found: Candidates) {
    |found| == |wires| && forall i :: 0 <= i < |wires| ==> DetectedBy(policy, category, transcript, turns, wires[i], found[i])
  }

  lemma DetectedSnoc(policy: Policy, category: Category, transcript: string, turns: seq<DialogueTurn>, wires: seq<WireCandidate>)
    returns (init: Candidates, last: Candidate)
    requires wires != [] && AllDetected(policy, category, transcript, turns, wires).Some?
    ensures AllDetected(policy, category, transcript, turns, wires[..|wires| - 1]) == Some(init)
    ensures DetectedBy(policy, category, transcript, turns, wires[|wires| - 1], last)
    ensures AllDetected(policy, category, transcript, turns, wires) == Some(init + [last])
  {
    init := AllDetected(policy, category, transcript, turns, wires[..|wires| - 1]).value;
    last := Detected(policy, category, transcript, turns, wires[|wires| - 1]).value;
  }

  lemma {:induction false} EachIsDetected(policy: Policy, category: Category, transcript: string, turns: seq<DialogueTurn>, wires: seq<WireCandidate>,
                                          found: Candidates)
    requires AllDetected(policy, category, transcript, turns, wires) == Some(found)
    ensures AcceptsAll(policy, category, transcript, turns, wires, found)
  {
    if wires != [] {
      var init, last := DetectedSnoc(policy, category, transcript, turns, wires);
      EachIsDetected(policy, category, transcript, turns, wires[..|wires| - 1], init);
      AcceptsOneMore(policy, category, transcript, turns, wires, init, last);
    }
  }

  lemma AcceptsOneMore(policy: Policy, category: Category, transcript: string, turns: seq<DialogueTurn>, wires: seq<WireCandidate>,
                       init: Candidates, last: Candidate)
    requires wires != []
    ensures AcceptsAll(policy, category, transcript, turns, wires, init + [last]) <==>
      && AcceptsAll(policy, category, transcript, turns, wires[..|wires| - 1], init)
      && DetectedBy(policy, category, transcript, turns, wires[|wires| - 1], last)
  {
    var all, n := init + [last], |wires| - 1;
    if AcceptsAll(policy, category, transcript, turns, wires, all) {
      forall i | 0 <= i < n ensures DetectedBy(policy, category, transcript, turns, wires[..n][i], init[i]) {
        assert DetectedBy(policy, category, transcript, turns, wires[i], all[i]);
      }
      assert DetectedBy(policy, category, transcript, turns, wires[n], all[n]);
    } else if AcceptsAll(policy, category, transcript, turns, wires[..n], init) && DetectedBy(policy, category, transcript, turns, wires[n], last) {
      forall i | 0 <= i <= n ensures DetectedBy(policy, category, transcript, turns, wires[i], all[i]) {
        assert i < n ==> DetectedBy(policy, category, transcript, turns, wires[..n][i], init[i]);
      }
    }
  }

  lemma {:induction false} AcceptedAreDetected(policy: Policy, category: Category, transcript: string, turns: seq<DialogueTurn>, wires: seq<WireCandidate>,
                                               found: Candidates)
    requires AcceptsAll(policy, category, transcript, turns, wires, found)
    ensures AllDetected(policy, category, transcript, turns, wires) == Some(found)
  {
    if wires != [] {
      var n := |wires| - 1;
      assert found == found[..n] + [found[n]];
      AcceptsOneMore(policy, category, transcript, turns, wires, found[..n], found[n]);
      AcceptedAreDetected(policy, category, transcript, turns, wires[..n], found[..n]);
    }
  }

  /** A response is used exactly if every candidate in it is accepted and, in the language pass, they
      cover the required phrases and stand at their places. */
  lemma AnswerIff(policy: Policy, category: Category, transcript: string, turns: seq<DialogueTurn>, response: Response, found: Candidates)
    ensures Answer(policy, category, transcript, turns, response) == Some(found) <==>
      && response.Some? && AcceptsAll(policy, category, transcript, turns, response.value, found)
      && (category == LanguageSwitch ==>
            && Cover(policy, found, Required(policy.cyrillic, transcript, turns))
            && SpansCovered(found, Places(policy.cyrillic, Texts(transcript, turns))))
  {
    if response.Some? {
      if AllDetected(policy, category, transcript, turns, response.value) == Some(found) {
        EachIsDetected(policy, category, transcript, turns, response.value, found);
      } else if AcceptsAll(policy, category, transcript, turns, response.value, found) {
        AcceptedAreDetected(policy, category, transcript, turns, response.value, found);
      }
    }
  }

  /** The response that is used is the first usable one. */
  lemma {:induction false} FirstUsable(policy: Policy, category: Category, transcript: string, turns: seq<DialogueTurn>, responses: seq<Response>)
    ensures
      var first := FirstAnswer(policy, category, transcript, turns, responses);
      if first.None? then forall n :: 0 <= n < |responses| ==> Answer(policy, category, transcript, turns, responses[n]).None?
      else exists n :: 0 <= n < |responses| && Answer(policy, category, transcript, turns, responses[n]) == first
             && forall m :: 0 <= m < n ==> Answer(policy, category, transcript, turns, responses[m]).None?
  {
    if responses != [] && Answer(policy, category, transcript, turns, responses[0]).None? {
      var rest := responses[1..];
      FirstUsable(policy, category, transcript, turns, rest);
      assert forall m :: 0 < m < |responses| ==> responses[m] == rest[m - 1];
      if FirstAnswer(policy, category, transcript, turns, rest).Some? {
        var n :| 0 <= n < |rest| && Answer(policy, category, transcript, turns, rest[n]) == FirstAnswer(policy, category, transcript, turns, rest)
          && forall m :: 0 <= m < n ==> Answer(policy, category, transcript, turns, rest[m]).None?;
        assert responses[n + 1] == rest[n];
      }
    }
  }

  // ---- What a pass guarantees ---------------------------------------------------------

  predicate Stamped(category: Category, candidate: Candidate) {
    candidate.category == category && candidate.span.Some? && candidate.span.value.start < candidate.span.value.end
  }

  /** Every candidate carries the category of the pass and a span with a width; the language
      pass found the Cyrillic phrases, each once and nothing else. */
  predicate Guaranteed(policy: Policy, category: Category, transcript: string, turns: seq<DialogueTurn>, candidates: Candidates) {
    && (forall i :: 0 <= i < |candidates| ==> Stamped(category, candidates[i]))
    && (category == LanguageSwitch ==> SpansCovered(candidates, Places(policy.cyrillic, Texts(transcript, turns))))
  }

  lemma DetectedIsStamped(policy: Policy, category: Category, transcript: string, turns: seq<DialogueTurn>, wire: WireCandidate)
    requires Detected(policy, category, transcript, turns, wire).Some?
    ensures Stamped(category, Detected(policy, category, transcript, turns, wire).value)
  {
    ResolvedQuotes(policy.word, transcript, TrimSpace(wire.wrong), turns, wire.turn, wire.occurrence);
  }

  lemma {:induction false} AllAreStamped(policy: Policy, category: Category, transcript: string, turns: seq<DialogueTurn>, wires: seq<WireCandidate>)
    requires AllDetected(policy, category, transcript, turns, wires).Some?
    ensures forall i :: 0 <= i < |AllDetected(policy, category, transcript, turns, wires).value| ==>
      Stamped(category, AllDetected(policy, category, transcript, turns, wires).value[i])
  {
    if wires != [] {
      AllAreStamped(policy, category, transcript, turns, wires[..|wires| - 1]);
      DetectedIsStamped(policy, category, transcript, turns, wires[|wires| - 1]);
    }
  }

  /** Whatever the model answers: an answer that is accepted is guaranteed. */
  lemma {:induction false} AnswerIsGuaranteed(policy: Policy, category: Category, transcript: string, turns: seq<DialogueTurn>, responses: seq<Response>)
    requires FirstAnswer(policy, category, transcript, turns, responses).Some?
    ensures Guaranteed(policy, category, transcript, turns, FirstAnswer(policy, category, transcript, turns, responses).value)
  {
    if Answer(policy, category, transcript, turns, responses[0]).Some? {
      AllAreStamped(policy, category, transcript, turns, responses[0].value);
    } else {
      AnswerIsGuaranteed(policy, category, transcript, turns, responses[1..]);
    }
  }

  /** The language pass is skipped when no phrase is required; there is nothing to find then. */
  lemma SkippedIsGuaranteed(policy: Policy, transcript: string, turns: seq<DialogueTurn>)
    requires Required(policy.cyrillic, transcript, turns) == []
    ensures Guaranteed(policy, LanguageSwitch, transcript, turns, [])
  {
    var places := Places(policy.cyrillic, Texts(transcript, turns));
    if places != {} {
      var p :| p in places;
      RequiredAre(policy.cyrillic, transcript, turns, p.phrase);
    }
  }

  /** The candidates are those of the first usable response to the request, marked with the pass. */
  predicate IsAnswer(policy: Policy, pass: nat, transcript: string, turns: seq<DialogueTurn>, attempt: Option<seq<Response>>, candidates: Candidates)
    requires pass < |PASSES|
  {
    && attempt.Some? && FirstAnswer(policy, PASSES[pass], transcript, turns, attempt.value).Some?
    && var found := FirstAnswer(policy, PASSES[pass], transcript, turns, attempt.value).value;
    |candidates| == |found| && forall i :: 0 <= i < |found| ==> candidates[i] == found[i].(pass := pass)
  }

  /** The outcome of one pass: at most two requests, each answered or not. */
  method DetectorPass(policy: Policy, pass: nat, transcript: string, turns: seq<DialogueTurn>, attempts: seq<Option<seq<Response>>>)
    returns (outcome: Option<Candidates>)
    requires pass < |PASSES| && |attempts| == 2
    ensures outcome.Some? ==> Guaranteed(policy, PASSES[pass], transcript, turns, outcome.value)
    ensures outcome.Some? ==> forall i :: 0 <= i < |outcome.value| ==> outcome.value[i].pass == pass
    ensures PASSES[pass] == LanguageSwitch && Required(policy.cyrillic, transcript, turns) == [] ==> outcome == Some([])
    ensures outcome.Some? && outcome.value != [] ==> exists n :: 0 <= n < 2 && IsAnswer(policy, pass, transcript, turns, attempts[n], outcome.value)
    ensures outcome.None? ==>
      forall n :: 0 <= n < 2 && attempts[n].Some? ==> FirstAnswer(policy, PASSES[pass], transcript, turns, attempts[n].value).None?
  {
    var category := PASSES[pass];
    if category == LanguageSwitch && |Required(policy.cyrillic, transcript, turns)| == 0 {
      SkippedIsGuaranteed(policy, transcript, turns);
      return Some([]);
    }
    for attempt := 0 to 2
      invariant forall n :: 0 <= n < attempt && attempts[n].Some? ==> FirstAnswer(policy, category, transcript, turns, attempts[n].value).None?
    {
      if attempts[attempt].None? {
        continue;
      }
      var found := ParseDetectorCandidates(policy, category, transcript, turns, attempts[attempt].value);
      if found.Some? {
        AnswerIsGuaranteed(policy, category, transcript, turns, attempts[attempt].value);
        var marked := MarkPass(found.value, pass);
        assert IsAnswer(policy, pass, transcript, turns, attempts[attempt], marked);
        return Some(marked);
      }
    }
    return None;
  }

  method MarkPass(candidates: Candidates, pass: nat) returns (marked: Candidates)
    ensures |marked| == |candidates| && forall i :: 0 <= i < |marked| ==> marked[i] == candidates[i].(pass := pass)
  {
    marked := [];
    for n := 0 to |candidates|
      invariant |marked| == n && forall i :: 0 <= i < n ==> marked[i] == candidates[i].(pass := pass)
    {
      marked := marked + [candidates[n].(pass := pass)];
    }
  }
}
