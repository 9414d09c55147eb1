/** From the detectors to the accepted review: what happens to the Cyrillic phrases of the
    answers on the way (`internal/recording/analysis_service.go`, `analysis_review.go`). */
module AnalysisFlow {
  import opened Prelude
  import opened Text
  import opened Timeline
  import opened FeedbackSpan
  import opened Phrases
  import opened Detectors
  import opened DetectorPool
  import opened Review
  import opened ReviewDecisions

  ghost predicate Permutes(arrange: Candidates -> Candidates) { forall c: Candidates :: multiset(arrange(c)) == multiset(c) }

  lemma ArrangedIn(arrange: Candidates -> Candidates, candidates: Candidates, c: Candidate)
    requires Permutes(arrange)
    ensures c in arrange(candidates) <==> c in candidates
  {
    assert c in arrange(candidates) <==> c in multiset(arrange(candidates));
    assert c in candidates <==> c in multiset(candidates);
  }

  // ---- The merge keeps the language pass in front -------------------------------------

  predicate SwitchesLead(candidates: Candidates) {
    forall i, j :: 0 <= i < j < |candidates| && candidates[j].category == LanguageSwitch ==> candidates[i].category == LanguageSwitch
  }

  /** Only the first pass finds language switches, and it finds nothing else. */
  predicate Passes(results: seq<Outcome>) {
    forall k :: 0 <= k < |results| && results[k].Ok? ==>
      forall c :: c in results[k].value ==> (c.category == LanguageSwitch <==> k == 0)
  }

  predicate IsMarked(results: seq<Outcome>, k: nat, m: Candidate) {
    k < |results| && results[k].Ok? && exists c :: c in results[k].value && m == c.(pass := k)
  }

  lemma MarkedIn(arrange: Candidates -> Candidates, candidates: Candidates, k: nat, m: Candidate)
    requires Permutes(arrange)
    ensures m in WithPass(arrange(candidates), k) <==> exists c :: c in candidates && m == c.(pass := k)
  {
    var arranged := arrange(candidates);
    var marked := WithPass(arranged, k);
    if m in marked {
      var i :| 0 <= i < |marked| && marked[i] == m;
      ArrangedIn(arrange, candidates, arranged[i]);
      assert arranged[i] in candidates && m == arranged[i].(pass := k);
    }
    if exists c :: c in candidates && m == c.(pass := k) {
      var c :| c in candidates && m == c.(pass := k);
      ArrangedIn(arrange, candidates, c);
      var i :| 0 <= i < |arranged| && arranged[i] == c;
      assert marked[i] == m;
    }
  }

  /** A merge holds exactly the candidates of its passes, marked with them. */
  lemma {:induction false} MergedAre(arrange: Candidates -> Candidates, results: seq<Outcome>, m: Candidate)
    requires Permutes(arrange) && Merged(arrange, results).Ok?
    ensures m in Merged(arrange, results).value <==> exists k :: 0 <= k < |results| && IsMarked(results, k, m)
  {
    if results != [] {
      var init, last := results[..|results| - 1], |results| - 1;
      MergedAre(arrange, init, m);
      MarkedIn(arrange, results[last].value, last, m);
      if m in Merged(arrange, init).value {
        var k :| 0 <= k < |init| && IsMarked(init, k, m);
        assert IsMarked(results, k, m);
      } else if m in Merged(arrange, results).value {
        assert IsMarked(results, last, m);
      }
      if exists k :: 0 <= k < |results| && IsMarked(results, k, m) {
        var k :| 0 <= k < |results| && IsMarked(results, k, m);
        if k < last { assert IsMarked(init, k, m); }
      }
    }
  }

  lemma {:induction false} MergedLeads(arrange: Candidates -> Candidates, results: seq<Outcome>)
    requires Permutes(arrange) && Passes(results) && Merged(arrange, results).Ok?
    ensures SwitchesLead(Merged(arrange, results).value)
  {
    if results != [] {
      var init, last := results[..|results| - 1], |results| - 1;
      MergedLeads(arrange, init);
      var marked := WithPass(arrange(results[last].value), last);
      forall m | m in marked ensures m.category == LanguageSwitch <==> last == 0 {
        MarkedIn(arrange, results[last].value, last, m);
      }
      assert last == 0 ==> Merged(arrange, init).value == [];
    }
  }

  lemma IdsKeepTheRest(candidates: Candidates)
    ensures forall i :: 0 <= i < |candidates| ==> WithIds(candidates)[i] == candidates[i].(id := WithIds(candidates)[i].id)
  {
    forall i | 0 <= i < |candidates| ensures WithIds(candidates)[i] == candidates[i].(id := WithIds(candidates)[i].id) {
      IdAt(candidates, i);
    }
  }

  // ---- The review keeps it in front ---------------------------------------------------

  lemma StandsForCategory(policy: Policy, transcript: string, decisions: Decisions, candidate: Candidate, item: Suggestion)
    requires StandsFor(policy, transcript, decisions, candidate, item)
    ensures item.category == candidate.category
    ensures candidate.span.Some? ==> item.span == candidate.span
    ensures item.wrong == TrimSpace(candidate.wrong)
    ensures item.category == LanguageSwitch ==> Has(policy.latin, item.right) && !Has(policy.cyrillic, item.right)
  {
  }

  lemma {:induction false} VerdictsLead(policy: Policy, transcript: string, candidates: Candidates, decisions: Decisions)
    requires SwitchesLead(candidates) && Verdicts(policy, transcript, candidates, decisions).Some?
    ensures SwitchesFirst(Verdicts(policy, transcript, candidates, decisions).value)
  {
    if candidates != [] {
      var init, last := candidates[..|candidates| - 1], candidates[|candidates| - 1];
      var before, after := Verdicts(policy, transcript, init, decisions).value, Verdict(policy, transcript, last, decisions).value;
      VerdictsLead(policy, transcript, init, decisions);
      assert |after| <= 1 && (after != [] ==> after[0].category == last.category);
      if last.category == LanguageSwitch {
        forall x | x in before ensures x.category == LanguageSwitch {
          VerdictsAre(policy, transcript, init, decisions, x);
          var i :| 0 <= i < |init| && StandsFor(policy, transcript, decisions, init[i], x);
          assert init[i] == candidates[i];
          StandsForCategory(policy, transcript, decisions, init[i], x);
        }
      }
    }
  }

  lemma {:induction false} SwitchIsJudged(policy: Policy, transcript: string, candidates: Candidates, decisions: Decisions, i: nat)
    requires i < |candidates| && candidates[i].category == LanguageSwitch && Verdicts(policy, transcript, candidates, decisions).Some?
    ensures exists x :: x in Verdicts(policy, transcript, candidates, decisions).value
                        && StandsFor(policy, transcript, decisions, candidates[i], x)
    decreases |candidates|
  {
    var init, last := candidates[..|candidates| - 1], candidates[|candidates| - 1];
    if i < |init| {
      SwitchIsJudged(policy, transcript, init, decisions, i);
      var x :| x in Verdicts(policy, transcript, init, decisions).value && StandsFor(policy, transcript, decisions, init[i], x);
      assert x in Verdicts(policy, transcript, candidates, decisions).value;
    } else {
      var x := Verdict(policy, transcript, last, decisions).value[0];
      assert StandsFor(policy, transcript, decisions, last, x);
      assert x in Verdicts(policy, transcript, candidates, decisions).value;
    }
  }

  /** In every accepted review of candidates that lead with the language switches, each of them is
      represented by an overlapping language switch. */
  lemma EverySwitchIsRepresented(policy: Policy, transcript: string, candidates: Candidates, required: seq<string>, decisions: Decisions, i: nat)
    requires SwitchesLead(candidates) && Yield(policy, transcript, candidates, required, Some(decisions)).Some?
    requires i < |candidates| && candidates[i].category == LanguageSwitch && Stamped(LanguageSwitch, candidates[i])
    ensures exists k :: k in Yield(policy, transcript, candidates, required, Some(decisions)).value && k.category == LanguageSwitch
                        && Overlap(candidates[i].span, k.span)
  {
    var items := Verdicts(policy, transcript, candidates, decisions).value;
    VerdictsLead(policy, transcript, candidates, decisions);
    SwitchIsJudged(policy, transcript, candidates, decisions, i);
    var x :| x in items && StandsFor(policy, transcript, decisions, candidates[i], x);
    StandsForCategory(policy, transcript, decisions, candidates[i], x);
    ItemsAreAnchored(policy, transcript, candidates, decisions);
    SwitchIsRepresented(policy.word, transcript, items, x);
  }

  // ---- From the answers to the review -------------------------------------------------

  /** What the passes deliver, whoever runs them: the outcome of `DetectorPass`. */
  predicate Delivers(policy: Policy, transcript: string, turns: seq<DialogueTurn>, detect: Detect) {
    forall k :: 0 <= k < |PASSES| && detect(k).Ok? ==> Guaranteed(policy, PASSES[k], transcript, turns, detect(k).value)
  }

  lemma FirstPass(k: nat)
    requires k < |PASSES|
    ensures PASSES[k] == LanguageSwitch <==> k == 0
  {
  }

  lemma StampedIn(policy: Policy, category: Category, transcript: string, turns: seq<DialogueTurn>, candidates: Candidates, c: Candidate)
    requires Guaranteed(policy, category, transcript, turns, candidates) && c in candidates
    ensures Stamped(category, c)
  {
    var i :| 0 <= i < |candidates| && candidates[i] == c;
  }

  lemma DeliveredPasses(policy: Policy, transcript: string, turns: seq<DialogueTurn>, detect: Detect)
    requires Delivers(policy, transcript, turns, detect)
    ensures Passes(Sequential(detect, |PASSES|))
  {
    var results := Sequential(detect, |PASSES|);
    forall k, c | 0 <= k < |results| && results[k].Ok? && c in results[k].value ensures c.category == LanguageSwitch <==> k == 0 {
      FirstPass(k);
      StampedIn(policy, PASSES[k], transcript, turns, detect(k).value, c);
    }
  }

  lemma {:induction false} MergedNeedsAll(arrange: Candidates -> Candidates, results: seq<Outcome>, k: nat)
    requires Merged(arrange, results).Ok? && k < |results|
    ensures results[k].Ok?
    decreases |results|
  {
    if k < |results| - 1 { MergedNeedsAll(arrange, results[..|results| - 1], k); }
  }

  /** The language pass found a candidate for the place. */
  lemma FoundAt(policy: Policy, transcript: string, turns: seq<DialogueTurn>, candidates: Candidates, place: Place)
    requires Guaranteed(policy, LanguageSwitch, transcript, turns, candidates)
    requires place in Places(policy.cyrillic, Texts(transcript, turns))
    ensures exists c :: c in candidates && Stamped(LanguageSwitch, c) && PlaceOf(c) == Some(place)
  {
    CoveredPlaces(candidates, Places(policy.cyrillic, Texts(transcript, turns)), place);
    var n :| 0 <= n < |candidates| && PlaceOf(candidates[n]) == Some(place);
    assert candidates[n] in candidates && Stamped(LanguageSwitch, candidates[n]);
  }

  lemma CandidateAt(policy: Policy, transcript: string, turns: seq<DialogueTurn>, detect: Detect, arrange: Candidates -> Candidates, place: Place)
    requires Permutes(arrange) && Delivers(policy, transcript, turns, detect)
    requires Merged(arrange, Sequential(detect, |PASSES|)).Ok?
    requires place in Places(policy.cyrillic, Texts(transcript, turns))
    ensures
      var merged := Merged(arrange, Sequential(detect, |PASSES|)).value;
      exists i :: 0 <= i < |merged| && Stamped(LanguageSwitch, merged[i]) && PlaceOf(merged[i]) == Some(place)
  {
    var results := Sequential(detect, |PASSES|);
    MergedNeedsAll(arrange, results, 0);
    FirstPass(0);
    FoundAt(policy, transcript, turns, detect(0).value, place);
    var c :| c in detect(0).value && Stamped(LanguageSwitch, c) && PlaceOf(c) == Some(place);
    var m := c.(pass := 0);
    assert IsMarked(results, 0, m);
    MergedAre(arrange, results, m);
    assert Stamped(LanguageSwitch, m) && PlaceOf(m) == Some(place);
  }

  lemma PlaceExpected(policy: Policy, transcript: string, turns: seq<DialogueTurn>, candidates: Candidates, c: Candidate)
    requires Guaranteed(policy, LanguageSwitch, transcript, turns, candidates) && c in candidates
    ensures PlaceOf(c).Some? && PlaceOf(c).value in Places(policy.cyrillic, Texts(transcript, turns))
  {
    var n :| 0 <= n < |candidates| && candidates[n] == c;
  }

  /** Every language switch among the merged candidates stands at one of the places. */
  lemma SwitchHasPlace(policy: Policy, transcript: string, turns: seq<DialogueTurn>, detect: Detect, arrange: Candidates -> Candidates, m: Candidate)
    requires Permutes(arrange) && Delivers(policy, transcript, turns, detect)
    requires Merged(arrange, Sequential(detect, |PASSES|)).Ok?
    requires m in Merged(arrange, Sequential(detect, |PASSES|)).value && m.category == LanguageSwitch
    ensures PlaceOf(m).Some? && PlaceOf(m).value in Places(policy.cyrillic, Texts(transcript, turns))
  {
    var results := Sequential(detect, |PASSES|);
    MergedAre(arrange, results, m);
    DeliveredPasses(policy, transcript, turns, detect);
    var k :| 0 <= k < |results| && IsMarked(results, k, m);
    var c :| c in results[k].value && m == c.(pass := k);
    assert c.category == LanguageSwitch && k == 0;
    FirstPass(0);
    PlaceExpected(policy, transcript, turns, detect(0).value, c);
  }

  lemma {:induction false} DialogueNumbers(turns: seq<InterviewTurn>)
    requires forall i :: 0 <= i < |turns| ==> turns[i].sequence == i + 1
    ensures DistinctTurns(Dialogue(turns))
    ensures forall d :: d in Dialogue(turns) ==> d.sequence <= |turns|
  {
    if turns != [] { DialogueNumbers(turns[..|turns| - 1]); }
  }

  /** The dialogue of a composed interview numbers its answers apart. */
  lemma ComposedTurnsAreDistinct(turns: seq<InterviewTurn>)
    requires Composition(turns).Ok?
    ensures DistinctTurns(Composition(turns).value.dialogue)
  {
    ComposeSucceedsIff(turns);
    forall i | 0 <= i < |turns| ensures turns[i].sequence == i + 1 { assert UsableTurn(turns[i], i + 1); }
    DialogueNumbers(turns);
  }

  predicate Corrects(policy: Policy, item: Suggestion, place: Place) {
    && item.category == LanguageSwitch && item.span == Some(place.span) && item.wrong == TrimSpace(place.phrase)
    && Has(policy.latin, item.right) && !Has(policy.cyrillic, item.right)
  }

  /** Whatever the detectors, the pool's scheduling and the review do: in an accepted review every
      Cyrillic phrase of the answers is corrected by a language switch of its own, at its place. */
  lemma EveryPhraseIsCorrected(policy: Policy, transcript: string, turns: seq<DialogueTurn>, detect: Detect, workers: nat, actions: seq<Action>,
                               arrange: Candidates -> Candidates, required: seq<string>, decisions: Decisions, place: Place)
    requires Permutes(arrange) && Delivers(policy, transcript, turns, detect) && DistinctTurns(turns)
    requires workers >= 1 && Finished(Run(detect, Opened(|PASSES|, workers), actions))
    requires Identified(arrange, Sequential(detect, |PASSES|)).Ok?
    requires Yield(policy, transcript, Identified(arrange, Sequential(detect, |PASSES|)).value, required, Some(decisions)).Some?
    requires place in Places(policy.cyrillic, Texts(transcript, turns))
    ensures
      var p := Run(detect, Opened(|PASSES|, workers), actions);
      && (forall i :: 0 <= i < |p.results| ==> p.results[i].Some?)
      && Identified(arrange, Recorded(p)) == Identified(arrange, Sequential(detect, |PASSES|))
      && var candidates := Identified(arrange, Recorded(p)).value;
      exists k :: k in Yield(policy, transcript, candidates, required, Some(decisions)).value && Corrects(policy, k, place)
  {
    MergeIsSequential(detect, |PASSES|, workers, actions, arrange);
    MergedPhraseIsCorrected(policy, transcript, turns, detect, arrange, required, decisions, place);
  }

  lemma MergedPhraseIsCorrected(policy: Policy, transcript: string, turns: seq<DialogueTurn>, detect: Detect,
                                arrange: Candidates -> Candidates, required: seq<string>, decisions: Decisions, place: Place)
    requires Permutes(arrange) && Delivers(policy, transcript, turns, detect) && DistinctTurns(turns)
    requires Identified(arrange, Sequential(detect, |PASSES|)).Ok?
    requires Yield(policy, transcript, Identified(arrange, Sequential(detect, |PASSES|)).value, required, Some(decisions)).Some?
    requires place in Places(policy.cyrillic, Texts(transcript, turns))
    ensures
      var candidates := Identified(arrange, Sequential(detect, |PASSES|)).value;
      exists k :: k in Yield(policy, transcript, candidates, required, Some(decisions)).value && Corrects(policy, k, place)
  {
    var merged := Merged(arrange, Sequential(detect, |PASSES|)).value;
    var candidates := WithIds(merged);
    IdsKeepTheRest(merged);
    DeliveredPasses(policy, transcript, turns, detect);
    MergedLeads(arrange, Sequential(detect, |PASSES|));
    LeadsWithIds(merged);
    CandidateAt(policy, transcript, turns, detect, arrange, place);
    var i :| 0 <= i < |merged| && Stamped(LanguageSwitch, merged[i]) && PlaceOf(merged[i]) == Some(place);
    EverySwitchIsRepresented(policy, transcript, candidates, required, decisions, i);
    var result := Yield(policy, transcript, candidates, required, Some(decisions)).value;
    var k :| k in result && k.category == LanguageSwitch && Overlap(candidates[i].span, k.span);
    AcceptedReview(policy, transcript, candidates, required, decisions);
    var j :| 0 <= j < |candidates| && StandsFor(policy, transcript, decisions, candidates[j], k);
    StandsForCategory(policy, transcript, decisions, candidates[j], k);
    SwitchHasPlace(policy, transcript, turns, detect, arrange, merged[j]);
    var found := PlaceOf(merged[j]).value;
    if found != place { PlacesApart(policy.cyrillic, Texts(transcript, turns), place, found); }
    assert Corrects(policy, k, place);
  }

  lemma LeadsWithIds(merged: Candidates)
    requires SwitchesLead(merged)
    ensures SwitchesLead(WithIds(merged))
  {
    IdsKeepTheRest(merged);
  }
}
