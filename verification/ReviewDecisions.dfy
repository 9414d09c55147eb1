/** Accepting the decisions of the review pass on the detected candidates
    (`internal/recording/analysis_review.go`).

    A response is the map of decisions found in it, or nothing when there is none. */
module ReviewDecisions {
  import opened Prelude
  import opened Text
  import opened FeedbackSpan
  import opened Detectors
  import opened Sorting
  import opened Review

  type Decisions = map<string, string>

  const REJECT := "reject"

  function SeverityOf(decision: string): Option<Severity> {
    if decision == "major" then Some(Major)
    else if decision == "medium" then Some(Medium)
    else if decision == "minor" then Some(Minor)
    else None
  }

  predicate Presentable(policy: Policy, transcript: string, candidate: Candidate) {
    var wrong, right, explanation := TrimSpace(candidate.wrong), TrimSpace(candidate.right), TrimSpace(candidate.explanation);
    && wrong != "" && right != "" && explanation != "" && wrong != right
    && Occurs(transcript, wrong)
    && |wrong| <= 500 && |right| <= 500 && |explanation| <= 1600
    && (candidate.category == LanguageSwitch ==> !Has(policy.cyrillic, right) && Has(policy.latin, right))
  }

  /** The suggestion a candidate becomes, if it can be shown and anchored. */
  function FromCandidate(policy: Policy, transcript: string, candidate: Candidate, severity: Severity): Option<Suggestion> {
    var wrong := TrimSpace(candidate.wrong);
    var span := if candidate.span.Some? then candidate.span else Resolved(policy.word, transcript, wrong, [], None, None);
    if !Presentable(policy, transcript, candidate) || span.None? then None
    else Some(Suggestion(span, wrong, TrimSpace(candidate.right), TrimSpace(candidate.explanation), candidate.category, severity,
                         RuleOf(policy, candidate.category, candidate.rule)))
  }

  /** What the review made of one candidate: an error, nothing, or a suggestion. */
  function Verdict(policy: Policy, transcript: string, candidate: Candidate, decisions: Decisions): Option<seq<Suggestion>> {
    if candidate.id !in decisions then None
    else
      var decision := TrimSpace(decisions[candidate.id]);
      if decision == REJECT then if candidate.category == LanguageSwitch then None else Some([])
      else if SeverityOf(decision).None? then None
      else
        var reviewed := FromCandidate(policy, transcript, candidate, SeverityOf(decision).value);
        if reviewed.None? then None else Some([reviewed.value])
  }

  function Verdicts(policy: Policy, transcript: string, candidates: Candidates, decisions: Decisions): Option<seq<Suggestion>> {
    if candidates == [] then Some([])
    else
      var before := Verdicts(policy, transcript, candidates[..|candidates| - 1], decisions);
      var last := Verdict(policy, transcript, candidates[|candidates| - 1], decisions);
      if before.None? || last.None? then None else Some(before.value + last.value)
  }

  predicate Covers(policy: Policy, item: Suggestion, phrase: string) {
    item.category == LanguageSwitch && item.wrong == phrase && Has(policy.latin, item.right) && !Has(policy.cyrillic, item.right)
  }

  predicate Present(policy: Policy, items: seq<Suggestion>, phrase: string) {
    exists j :: 0 <= j < |items| && Covers(policy, items[j], phrase)
  }

  predicate Covered(policy: Policy, items: seq<Suggestion>, required: seq<string>) {
    forall i :: 0 <= i < |required| ==> Present(policy, items, required[i])
  }

  /** What one response yields, if it is acceptable. */
  function Yield(policy: Policy, transcript: string, candidates: Candidates, required: seq<string>, response: Option<Decisions>)
    : Option<seq<Suggestion>>
  {
    if response.None? || |response.value| != |candidates| then None
    else
      match Verdicts(policy, transcript, candidates, response.value)
      case None => None
      case Some(items) =>
        var selected := Deduplicated(policy.word, transcript, items);
        if Covered(policy, selected, required) then Some(selected) else None
  }

  function FirstYield(policy: Policy, transcript: string, candidates: Candidates, required: seq<string>, responses: seq<Option<Decisions>>)
    : Option<seq<Suggestion>>
  {
    if responses == [] then None
    else
      var yielded := Yield(policy, transcript, candidates, required, responses[0]);
      if yielded.Some? then yielded else FirstYield(policy, transcript, candidates, required, responses[1..])
  }

  /** The items correct the phrase with a language switch in Latin letters. */
  predicate Corrected(policy: Policy, items: seq<Suggestion>, phrase: string) {
    exists x :: x in items && x.category == LanguageSwitch && x.wrong == phrase && Has(policy.latin, x.right) && !Has(policy.cyrillic, x.right)
  }

  lemma PresentIff(policy: Policy, items: seq<Suggestion>, phrase: string)
    ensures Present(policy, items, phrase) <==> Corrected(policy, items, phrase)
  {
    if Corrected(policy, items, phrase) {
      var x :| x in items && x.category == LanguageSwitch && x.wrong == phrase && Has(policy.latin, x.right) && !Has(policy.cyrillic, x.right);
      var j :| 0 <= j < |items| && items[j] == x;
      assert Covers(policy, items[j], phrase);
    }
  }

  /** A review covers the required phrases exactly if it corrects each of them. */
  lemma CoveredIff(policy: Policy, items: seq<Suggestion>, required: seq<string>)
    ensures Covered(policy, items, required) <==> forall x :: x in required ==> Corrected(policy, items, x)
  {
    forall i | 0 <= i < |required| ensures Present(policy, items, required[i]) <==> Corrected(policy, items, required[i]) {
      PresentIff(policy, items, required[i]);
    }
    if Covered(policy, items, required) {
      forall x | x in required ensures Corrected(policy, items, x) {
        var i :| 0 <= i < |required| && required[i] == x;
      }
    } else {
      var i :| 0 <= i < |required| && !Present(policy, items, required[i]);
      assert required[i] in required;
    }
  }

  predicate IdsOk(candidates: Candidates) {
    && (forall i :: 0 <= i < |candidates| ==> candidates[i].id != "")
    && forall i, j :: 0 <= i < j < |candidates| ==> candidates[i].id != candidates[j].id
  }

  // ---- The methods --------------------------------------------------------------------

  method SuggestionFromCandidate(policy: Policy, transcript: string, candidate: Candidate, severity: Severity)
    returns (reviewed: Option<Suggestion>)
    ensures reviewed == FromCandidate(policy, transcript, candidate, severity)
  {
    var wrong, right, explanation := TrimSpace(candidate.wrong), TrimSpace(candidate.right), TrimSpace(candidate.explanation);
    if wrong == "" || right == "" || explanation == "" || wrong == right {
      return None;
    }
    var at := FeedbackSpan.Index(transcript, 0, wrong);
    if at.None? || |wrong| > 500 || |right| > 500 || |explanation| > 1600 {
      return None;
    }
    assert OccursAt(transcript, wrong, at.value);
    if candidate.category == LanguageSwitch && (Has(policy.cyrillic, right) || !Has(policy.latin, right)) {
      return None;
    }
    var span := candidate.span;
    if span.None? {
      span := ResolveFeedbackSpan(policy.word, transcript, wrong, [], None, None);
      if span.None? {
        return None;
      }
    }
    var rule := TrimSpace(candidate.rule);
    if !policy.reference(rule, candidate.category) {
      rule := "";
    }
    return Some(Suggestion(span, wrong, right, explanation, candidate.category, severity, rule));
  }

  method ReviewedRussianCovered(policy: Policy, items: seq<Suggestion>, required: seq<string>) returns (covered: bool)
    ensures covered <==> Covered(policy, items, required)
    ensures covered <==> forall x :: x in required ==> Corrected(policy, items, x)
  {
    CoveredIff(policy, items, required);
    for n := 0 to |required|
      invariant forall i :: 0 <= i < n ==> Present(policy, items, required[i])
    {
      var matches := 0;
      for m := 0 to |items|
        invariant matches > 0 <==> exists j :: 0 <= j < m && Covers(policy, items[j], required[n])
      {
        var item := items[m];
        if item.category == LanguageSwitch && item.wrong == required[n] && Has(policy.latin, item.right) && !Has(policy.cyrillic, item.right) {
          assert Covers(policy, items[m], required[n]);
          matches := matches + 1;
        }
      }
      if matches < 1 {
        assert !Present(policy, items, required[n]);
        return false;
      }
    }
    return true;
  }

  method CheckIds(candidates: Candidates) returns (ok: bool)
    ensures ok <==> IdsOk(candidates)
    ensures ok <==>
      && (forall i :: 0 <= i < |candidates| ==> candidates[i].id != "")
      && forall i, j :: 0 <= i < j < |candidates| ==> candidates[i].id != candidates[j].id
  {
    var seen: set<string> := {};
    for n := 0 to |candidates|
      invariant seen == Ids(candidates[..n]) && IdsOk(candidates[..n])
    {
      assert candidates[..n + 1][..n] == candidates[..n];
      if candidates[n].id == "" {
        return false;
      }
      if candidates[n].id in seen {
        ghost var i :| 0 <= i < n && candidates[..n][i].id == candidates[n].id;
        assert candidates[i].id == candidates[n].id;
        return false;
      }
      seen := seen + {candidates[n].id};
    }
    assert candidates[..|candidates|] == candidates;
    return true;
  }

  function Ids(candidates: Candidates): set<string> { set i | 0 <= i < |candidates| :: candidates[i].id }

  method Decide(policy: Policy, transcript: string, candidates: Candidates, decisions: Decisions) returns (normalized: Option<seq<Suggestion>>)
    ensures normalized == Verdicts(policy, transcript, candidates, decisions)
  {
    var items: seq<Suggestion> := [];
    for n := 0 to |candidates|
      invariant Verdicts(policy, transcript, candidates[..n], decisions) == Some(items)
    {
      assert candidates[..n + 1][..n] == candidates[..n];
      var candidate := candidates[n];
      if candidate.id !in decisions {
        RefusedByOne(policy, transcript, candidates, decisions, n);
        return None;
      }
      var decision := TrimSpace(decisions[candidate.id]);
      if decision == REJECT {
        if candidate.category == LanguageSwitch {
          RefusedByOne(policy, transcript, candidates, decisions, n);
          return None;
        }
        assert items + [] == items;
        continue;
      }
      var severity := SeverityOf(decision);
      if severity.None? {
        RefusedByOne(policy, transcript, candidates, decisions, n);
        return None;
      }
      var reviewed := SuggestionFromCandidate(policy, transcript, candidate, severity.value);
      if reviewed.None? {
        RefusedByOne(policy, transcript, candidates, decisions, n);
        return None;
      }
      items := items + [reviewed.value];
    }
    assert candidates[..|candidates|] == candidates;
    return Some(items);
  }

  lemma {:induction false} RefusedByOne(policy: Policy, transcript: string, candidates: Candidates, decisions: Decisions, n: nat)
    requires n < |candidates| && Verdict(policy, transcript, candidates[n], decisions).None?
    ensures Verdicts(policy, transcript, candidates, decisions).None?
    decreases |candidates|
  {
    if n < |candidates| - 1 { RefusedByOne(policy, transcript, candidates[..|candidates| - 1], decisions, n); }
  }

  method ParseReviewedSuggestions(policy: Policy, transcript: string, candidates: Candidates, required: seq<string>,
                                  responses: seq<Option<Decisions>>)
    returns (reviewed: Option<seq<Suggestion>>)
    ensures reviewed == if IdsOk(candidates) then FirstYield(policy, transcript, candidates, required, responses) else None
  {
    var ok := CheckIds(candidates);
    if !ok {
      return None;
    }
    assert responses[0..] == responses;
    for n := 0 to |responses|
      invariant FirstYield(policy, transcript, candidates, required, responses[n..])
        == FirstYield(policy, transcript, candidates, required, responses)
    {
      assert responses[n..][1..] == responses[n + 1..];
      if responses[n].None? || |responses[n].value| != |candidates| {
        continue;
      }
      var normalized := Decide(policy, transcript, candidates, responses[n].value);
      if normalized.None? {
        continue;
      }
      var selected := DeduplicateReviewedSuggestions(policy.word, transcript, normalized.value);
      var covered := ReviewedRussianCovered(policy, selected, required);
      if covered {
        return Some(selected);
      }
    }
    return None;
  }

  // ---- What a decision does -----------------------------------------------------------

  /** The candidate can be shown: its texts are there, differ and fit, the quoted one stands in the
      transcript, and a language switch is corrected in Latin letters only. */
  ghost predicate Showable(policy: Policy, transcript: string, candidate: Candidate) {
    && !Blank(candidate.wrong) && !Blank(candidate.right) && !Blank(candidate.explanation)
    && TrimSpace(candidate.wrong) != TrimSpace(candidate.right)
    && |TrimSpace(candidate.wrong)| <= 500 && |TrimSpace(candidate.right)| <= 500 && |TrimSpace(candidate.explanation)| <= 1600
    && (candidate.category == LanguageSwitch ==> Has(policy.latin, TrimSpace(candidate.right)) && !Has(policy.cyrillic, TrimSpace(candidate.right)))
    && exists before, after :: transcript == before + (TrimSpace(candidate.wrong) + after)
  }

  predicate Shows(policy: Policy, candidate: Candidate, severity: Severity, item: Suggestion) {
    && item.wrong == TrimSpace(candidate.wrong) && item.right == TrimSpace(candidate.right) && item.explanation == TrimSpace(candidate.explanation)
    && item.category == candidate.category && item.severity == severity && (candidate.span.Some? ==> item.span == candidate.span)
    && item.rule == if policy.reference(TrimSpace(candidate.rule), candidate.category) then TrimSpace(candidate.rule) else ""
  }

  /** A candidate becomes a suggestion exactly if it can be shown and has, or finds, a place. */
  lemma FromCandidateIff(policy: Policy, transcript: string, candidate: Candidate, severity: Severity)
    ensures FromCandidate(policy, transcript, candidate, severity).Some? <==>
      && Showable(policy, transcript, candidate)
      && (candidate.span.Some? || Resolved(policy.word, transcript, TrimSpace(candidate.wrong), [], None, None).Some?)
    ensures FromCandidate(policy, transcript, candidate, severity).Some? ==>
      Shows(policy, candidate, severity, FromCandidate(policy, transcript, candidate, severity).value)
  {
    TrimBlank(candidate.wrong);
    TrimBlank(candidate.right);
    TrimBlank(candidate.explanation);
    OccursIff(transcript, TrimSpace(candidate.wrong));
  }

  /** The word "reject" drops a candidate, unless it is a language switch; one of the three severities
      makes it a suggestion of that severity; any other word, or none, refuses the response. */
  lemma VerdictIs(policy: Policy, transcript: string, candidate: Candidate, decisions: Decisions)
    ensures
      var verdict, word := Verdict(policy, transcript, candidate, decisions),
        if candidate.id in decisions then TrimSpace(decisions[candidate.id]) else "";
      && (word == "reject" ==> verdict == if candidate.category == LanguageSwitch then None else Some([]))
      && (word == "major" ==> verdict == Only(FromCandidate(policy, transcript, candidate, Major)))
      && (word == "medium" ==> verdict == Only(FromCandidate(policy, transcript, candidate, Medium)))
      && (word == "minor" ==> verdict == Only(FromCandidate(policy, transcript, candidate, Minor)))
      && (word !in {"reject", "major", "medium", "minor"} ==> verdict == None)
  {
  }

  function Only(item: Option<Suggestion>): Option<seq<Suggestion>> { if item.None? then None else Some([item.value]) }

  /** A response is acceptable exactly if it has one decision per candidate, none is refused, and the
      selection still corrects every required phrase; it yields that selection. */
  lemma YieldIff(policy: Policy, transcript: string, candidates: Candidates, required: seq<string>, response: Option<Decisions>, result: seq<Suggestion>)
    ensures Yield(policy, transcript, candidates, required, response) == Some(result) <==>
      && response.Some? && |response.value| == |candidates| && Verdicts(policy, transcript, candidates, response.value).Some?
      && result == Deduplicated(policy.word, transcript, Verdicts(policy, transcript, candidates, response.value).value)
      && forall x :: x in required ==> Corrected(policy, result, x)
  {
    CoveredIff(policy, result, required);
  }

  // ---- What an accepted review guarantees ---------------------------------------------

  /** The candidate a suggestion came from, and the decision that let it through. */
  predicate StandsFor(policy: Policy, transcript: string, decisions: Decisions, candidate: Candidate, item: Suggestion) {
    && candidate.id in decisions
    && SeverityOf(TrimSpace(decisions[candidate.id])) == Some(item.severity)
    && FromCandidate(policy, transcript, candidate, item.severity) == Some(item)
  }

  lemma VerdictStands(policy: Policy, transcript: string, candidate: Candidate, decisions: Decisions)
    requires Verdict(policy, transcript, candidate, decisions).Some?
    ensures forall x :: x in Verdict(policy, transcript, candidate, decisions).value ==>
      StandsFor(policy, transcript, decisions, candidate, x)
  {
  }

  predicate Origin(policy: Policy, transcript: string, candidates: Candidates, decisions: Decisions, item: Suggestion) {
    exists i :: 0 <= i < |candidates| && StandsFor(policy, transcript, decisions, candidates[i], item)
  }

  lemma OriginGrows(policy: Policy, transcript: string, candidates: Candidates, decisions: Decisions, item: Suggestion)
    requires candidates != []
    requires Origin(policy, transcript, candidates[..|candidates| - 1], decisions, item)
      || StandsFor(policy, transcript, decisions, candidates[|candidates| - 1], item)
    ensures Origin(policy, transcript, candidates, decisions, item)
  {
    var init := candidates[..|candidates| - 1];
    if Origin(policy, transcript, init, decisions, item) {
      var i :| 0 <= i < |init| && StandsFor(policy, transcript, decisions, init[i], item);
      assert init[i] == candidates[i];
    }
  }

  lemma {:induction false} VerdictsAre(policy: Policy, transcript: string, candidates: Candidates, decisions: Decisions, item: Suggestion)
    requires Verdicts(policy, transcript, candidates, decisions).Some?
    requires item in Verdicts(policy, transcript, candidates, decisions).value
    ensures Origin(policy, transcript, candidates, decisions, item)
  {
    if candidates != [] {
      var init, last := candidates[..|candidates| - 1], candidates[|candidates| - 1];
      if item in Verdicts(policy, transcript, init, decisions).value {
        VerdictsAre(policy, transcript, init, decisions, item);
      } else {
        VerdictStands(policy, transcript, last, decisions);
      }
      OriginGrows(policy, transcript, candidates, decisions, item);
    }
  }

  lemma {:induction false} EachIsDecided(policy: Policy, transcript: string, candidates: Candidates, decisions: Decisions, i: nat)
    requires Verdicts(policy, transcript, candidates, decisions).Some? && i < |candidates|
    ensures Verdict(policy, transcript, candidates[i], decisions).Some?
    decreases |candidates|
  {
    if i < |candidates| - 1 { EachIsDecided(policy, transcript, candidates[..|candidates| - 1], decisions, i); }
  }

  lemma {:induction false} IdsCount(candidates: Candidates)
    requires IdsOk(candidates)
    ensures |Ids(candidates)| == |candidates|
  {
    if candidates != [] {
      var init, last := candidates[..|candidates| - 1], candidates[|candidates| - 1];
      IdsCount(init);
      assert Ids(candidates) == Ids(init) + {last.id};
      assert last.id !in Ids(init);
    }
  }

  /** An acceptable response decides every candidate and nothing else, and rejects no language
      switch. */
  lemma EveryCandidateIsDecided(policy: Policy, transcript: string, candidates: Candidates, required: seq<string>, decisions: Decisions)
    requires IdsOk(candidates) && Yield(policy, transcript, candidates, required, Some(decisions)).Some?
    ensures decisions.Keys == Ids(candidates)
    ensures forall i :: 0 <= i < |candidates| && candidates[i].category == LanguageSwitch ==>
      candidates[i].id in decisions && TrimSpace(decisions[candidates[i].id]) != REJECT
  {
    forall i | 0 <= i < |candidates| ensures Verdict(policy, transcript, candidates[i], decisions).Some? {
      EachIsDecided(policy, transcript, candidates, decisions, i);
    }
    IdsCount(candidates);
    assert Ids(candidates) <= decisions.Keys;
    FullSubset(Ids(candidates), decisions.Keys);
  }

  lemma ItemsAreAnchored(policy: Policy, transcript: string, candidates: Candidates, decisions: Decisions)
    requires Verdicts(policy, transcript, candidates, decisions).Some?
    ensures Anchored(policy.word, transcript, Verdicts(policy, transcript, candidates, decisions).value)
      == Verdicts(policy, transcript, candidates, decisions).value
  {
    var items := Verdicts(policy, transcript, candidates, decisions).value;
    forall x | x in items ensures x.span.Some? {
      VerdictsAre(policy, transcript, candidates, decisions, x);
      var i :| 0 <= i < |candidates| && StandsFor(policy, transcript, decisions, candidates[i], x);
    }
    AnchoredStays(policy.word, transcript, items);
  }

  /** The suggestions it yields do not overlap, follow the text, each stand for a candidate with
      the severity it was given, and still include every required phrase. */
  lemma AcceptedReview(policy: Policy, transcript: string, candidates: Candidates, required: seq<string>, decisions: Decisions)
    requires Yield(policy, transcript, candidates, required, Some(decisions)).Some?
    ensures
      var result := Yield(policy, transcript, candidates, required, Some(decisions)).value;
      && Ordered(TextBefore, result) && (forall x, y :: x in result && y in result && x != y ==> !Overlaps(x, y))
      && (forall x :: x in result ==> Origin(policy, transcript, candidates, decisions, x))
      && Covered(policy, result, required)
  {
    var items := Verdicts(policy, transcript, candidates, decisions).value;
    var result := Deduplicated(policy.word, transcript, items);
    ResultIsApart(policy.word, transcript, items);
    ItemsAreAnchored(policy, transcript, candidates, decisions);
    FirstsWithin(items);
    forall x | x in result ensures Origin(policy, transcript, candidates, decisions, x) {
      VerdictsAre(policy, transcript, candidates, decisions, x);
    }
  }

  lemma {:induction false} AnchoredStays(word: WordClass, transcript: string, items: seq<Suggestion>)
    requires forall x :: x in items ==> x.span.Some?
    ensures Anchored(word, transcript, items) == items
  {
    if items != [] {
      var n := |items| - 1;
      forall x | x in items[..n] ensures x.span.Some? { assert x in items; }
      AnchoredStays(word, transcript, items[..n]);
      assert items[n] in items && Anchor(word, transcript, items[n]) == items[n];
      assert items == items[..n] + [items[n]];
    }
  }

  lemma {:induction false} FirstsWithin(items: seq<Suggestion>)
    requires AllAnchored(items)
    ensures forall x :: x in Firsts(items) ==> x in items
  {
    if items != [] { FirstsWithin(items[..|items| - 1]); }
  }

  /** The review that is used is the first acceptable one. */
  lemma {:induction false} FirstAcceptable(policy: Policy, transcript: string, candidates: Candidates, required: seq<string>,
                                           responses: seq<Option<Decisions>>)
    ensures FirstYield(policy, transcript, candidates, required, responses).None? <==>
      forall n :: 0 <= n < |responses| ==> Yield(policy, transcript, candidates, required, responses[n]).None?
    ensures FirstYield(policy, transcript, candidates, required, responses).Some? ==>
      exists n :: 0 <= n < |responses|
        && Yield(policy, transcript, candidates, required, responses[n]) == FirstYield(policy, transcript, candidates, required, responses)
        && forall m :: 0 <= m < n ==> Yield(policy, transcript, candidates, required, responses[m]).None?
  {
    if responses != [] && Yield(policy, transcript, candidates, required, responses[0]).None? {
      FirstAcceptable(policy, transcript, candidates, required, responses[1..]);
      assert forall m :: 0 < m < |responses| ==> responses[m] == responses[1..][m - 1];
      if FirstYield(policy, transcript, candidates, required, responses).Some? {
        var n :| 0 <= n < |responses[1..]|
          && Yield(policy, transcript, candidates, required, responses[1..][n]) == FirstYield(policy, transcript, candidates, required, responses[1..])
          && forall m :: 0 <= m < n ==> Yield(policy, transcript, candidates, required, responses[1..][m]).None?;
        assert responses[n + 1] == responses[1..][n];
      }
    }
  }
}
