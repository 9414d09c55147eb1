/** Accepting a model's feedback on each answer (`internal/recording/focused_feedback.go`).

    `scripts` holds the Unicode classes the checks use and the catalogue of lessons. */
module FocusedFeedback {
  import opened Prelude
  import opened Text
  import opened FeedbackSpan
  import opened FeedbackPractice
  import opened Sorting
  import opened Greedy

  datatype Scripts = Scripts(classes: Classes, cyrillic: char -> bool, latin: char -> bool, lesson: (nat, nat) -> bool)

  /** An item as the model sent it; an unknown kind is `None`. */
  datatype WireItem = WireItem(
    kind: Option<Kind>, original: string, occurrence: Option<int>, title: string, explanation: string,
    corrected: string, rule: nat, category: nat, practiceText: string)

  datatype WireAnswer = WireAnswer(turn: int, items: Option<seq<WireItem>>)

  datatype Item = Item(focus: Focus, title: string, explanation: string, rule: nat, category: nat)

  datatype AnswerFeedback = AnswerFeedback(turn: int, items: seq<Item>)

  predicate Filled(text: string, limit: nat) { TrimSpace(text) != "" && |text| <= limit }

  /** The checks on one item, apart from its anchor. */
  predicate WellFormed(scripts: Scripts, item: WireItem) {
    && item.kind.Some? && item.occurrence.Some? && item.occurrence.value >= 1
    && item.original != "" && |item.original| <= 500
    && Filled(item.title, 300) && Filled(item.explanation, 1200)
    && Has(scripts.cyrillic, item.title) && Has(scripts.cyrillic, item.explanation)
    && scripts.lesson(item.rule, item.category)
    && if item.kind.value == Praise then
         !Has(scripts.cyrillic, item.original) && item.corrected == "" && item.practiceText == ""
       else
         && Filled(item.corrected, 500) && item.corrected != item.original
         && !Has(scripts.cyrillic, item.corrected) && Has(scripts.latin, item.corrected)
         && Filled(item.practiceText, 800)
         && !Has(scripts.cyrillic, item.practiceText) && Has(scripts.latin, item.practiceText)
  }

  /** The accepted item, with its span in its own answer. */
  function Accepted(scripts: Scripts, text: string, turn: int, item: WireItem): Option<Item> {
    if !WellFormed(scripts, item) then None
    else
      match Resolved(scripts.classes.word, text, item.original, [], None, item.occurrence)
      case None => None
      case Some(span) =>
        Some(Item(Focus(item.kind.value, item.original, item.occurrence.value, Some(span.(turn := turn)), item.corrected,
                        TrimSpace(item.practiceText)),
                  TrimSpace(item.title), TrimSpace(item.explanation), item.rule, item.category))
  }

  function AllAccepted(scripts: Scripts, text: string, turn: int, items: seq<WireItem>): Option<seq<Item>> {
    if items == [] then Some([])
    else
      match AllAccepted(scripts, text, turn, items[..|items| - 1])
      case None => None
      case Some(init) =>
        var last := Accepted(scripts, text, turn, items[|items| - 1]);
        if last.None? then None else Some(init + [last.value])
  }

  function CountOf(kind: Kind, items: seq<WireItem>): nat {
    if items == [] then 0 else CountOf(kind, items[..|items| - 1]) + if items[|items| - 1].kind == Some(kind) then 1 else 0
  }

  function KindRank(kind: Kind): nat { match kind case Blocker => 3 case Praise => 2 case NativeTip => 1 }

  function Outranks(a: Item, b: Item): bool { KindRank(a.focus.kind) > KindRank(b.focus.kind) }

  function StartOf(item: Item): int { if item.focus.span.Some? then item.focus.span.value.start else 0 }

  function Earlier(a: Item, b: Item): bool { StartOf(a) < StartOf(b) }

  function Overlaps(a: Item, b: Item): bool { Overlap(a.focus.span, b.focus.span) }

  function Selected(items: seq<Item>): seq<Item> { Sort(Earlier, Select(Overlaps, Sort(Outranks, items))) }

  function ParsedAnswer(scripts: Scripts, text: string, turn: int, items: seq<WireItem>): Option<AnswerFeedback> {
    var accepted := AllAccepted(scripts, text, turn, items);
    if accepted.None? || CountOf(Praise, items) > 1 || CountOf(NativeTip, items) > 1 then None
    else Some(AnswerFeedback(turn, Selected(accepted.value)))
  }

  function Turns(answers: seq<WireAnswer>): set<int> {
    if answers == [] then {} else Turns(answers[..|answers| - 1]) + {answers[|answers| - 1].turn}
  }

  /** Every text has exactly one answer, in any order. */
  function ParsedAnswers(scripts: Scripts, texts: map<int, string>, answers: seq<WireAnswer>): Option<seq<AnswerFeedback>> {
    if answers == [] then Some([])
    else
      var init, last := answers[..|answers| - 1], answers[|answers| - 1];
      match ParsedAnswers(scripts, texts, init)
      case None => None
      case Some(parsed) =>
        if last.turn !in texts || last.turn in Turns(init) || last.items.None? then None
        else
          match ParsedAnswer(scripts, texts[last.turn], last.turn, last.items.value)
          case None => None
          case Some(answer) => Some(parsed + [answer])
  }

  function ByTurn(a: AnswerFeedback, b: AnswerFeedback): bool { a.turn < b.turn }

  /** The first response that decodes and passes every check. */
  function Parsed(scripts: Scripts, texts: map<int, string>, responses: seq<Option<seq<WireAnswer>>>): Option<seq<AnswerFeedback>>
    decreases |responses|
  {
    if responses == [] then None
    else
      var answers := if responses[0].None? || |responses[0].value| != |texts| then None else ParsedAnswers(scripts, texts, responses[0].value);
      if answers.Some? then Some(Sort(ByTurn, answers.value)) else Parsed(scripts, texts, responses[1..])
  }

  // ---- The loops ----------------------------------------------------------------------

  lemma CountSnoc(kind: Kind, wire: seq<WireItem>, n: nat)
    requires n < |wire|
    ensures CountOf(kind, wire[..n + 1]) == CountOf(kind, wire[..n]) + if wire[n].kind == Some(kind) then 1 else 0
  {
    assert wire[..n + 1][..n] == wire[..n];
  }

  lemma AcceptedSnoc(scripts: Scripts, text: string, turn: int, wire: seq<WireItem>, n: nat)
    requires n < |wire|
    ensures
      var before, item := AllAccepted(scripts, text, turn, wire[..n]), Accepted(scripts, text, turn, wire[n]);
      AllAccepted(scripts, text, turn, wire[..n + 1]) == if before.None? || item.None? then None else Some(before.value + [item.value])
  {
    assert wire[..n + 1][..n] == wire[..n];
  }

  method ParseAnswer(scripts: Scripts, text: string, turn: int, wire: seq<WireItem>) returns (answer: Option<AnswerFeedback>)
    ensures answer == ParsedAnswer(scripts, text, turn, wire)
  {
    var praises, tips := 0, 0;
    var items: seq<Item> := [];
    for n := 0 to |wire|
      invariant praises == CountOf(Praise, wire[..n]) && tips == CountOf(NativeTip, wire[..n])
      invariant AllAccepted(scripts, text, turn, wire[..n]) == Some(items)
    {
      var item := wire[n];
      CountSnoc(Praise, wire, n);
      CountSnoc(NativeTip, wire, n);
      AcceptedSnoc(scripts, text, turn, wire, n);
      praises := praises + if item.kind == Some(Praise) then 1 else 0;
      tips := tips + if item.kind == Some(NativeTip) then 1 else 0;
      var accepted := AcceptItem(scripts, text, turn, item);
      if accepted.None? {
        RefusedThere(scripts, text, turn, wire, n);
        return None;
      }
      items := items + [accepted.value];
    }
    assert wire[..|wire|] == wire;
    if praises > 1 || tips > 1 {
      return None;
    }
    var kept := SelectLoop(Overlaps, Sort(Outranks, items));
    return Some(AnswerFeedback(turn, Sort(Earlier, kept)));
  }

  method AcceptItem(scripts: Scripts, text: string, turn: int, item: WireItem) returns (accepted: Option<Item>)
    ensures accepted == Accepted(scripts, text, turn, item)
  {
    if !WellFormed(scripts, item) {
      return None;
    }
    var span := ResolveFeedbackSpan(scripts.classes.word, text, item.original, [], None, item.occurrence);
    if span.None? {
      return None;
    }
    var focus := Focus(item.kind.value, item.original, item.occurrence.value, Some(span.value.(turn := turn)), item.corrected,
                       TrimSpace(item.practiceText));
    return Some(Item(focus, TrimSpace(item.title), TrimSpace(item.explanation), item.rule, item.category));
  }

  method ParseResponse(scripts: Scripts, texts: map<int, string>, answers: seq<WireAnswer>) returns (parsed: Option<seq<AnswerFeedback>>)
    ensures parsed == ParsedAnswers(scripts, texts, answers)
  {
    var feedback: seq<AnswerFeedback> := [];
    var seen: set<int> := {};
    for n := 0 to |answers|
      invariant ParsedAnswers(scripts, texts, answers[..n]) == Some(feedback)
      invariant seen == Turns(answers[..n])
    {
      assert answers[..n + 1][..n] == answers[..n];
      var wire := answers[n];
      if wire.turn !in texts || wire.turn in seen || wire.items.None? {
        ResponseRefusedThere(scripts, texts, answers, n);
        return None;
      }
      seen := seen + {wire.turn};
      var answer := ParseAnswer(scripts, texts[wire.turn], wire.turn, wire.items.value);
      if answer.None? {
        ResponseRefusedThere(scripts, texts, answers, n);
        return None;
      }
      feedback := feedback + [answer.value];
    }
    assert answers[..|answers|] == answers;
    return Some(feedback);
  }

  lemma {:induction false} ResponseRefusedThere(scripts: Scripts, texts: map<int, string>, answers: seq<WireAnswer>, n: nat)
    requires n < |answers| && ParsedAnswers(scripts, texts, answers[..n + 1]).None?
    ensures ParsedAnswers(scripts, texts, answers).None?
    decreases |answers|
  {
    if n + 1 < |answers| {
      assert answers[..|answers| - 1][..n + 1] == answers[..n + 1];
      ResponseRefusedThere(scripts, texts, answers[..|answers| - 1], n);
    } else {
      assert answers[..n + 1] == answers;
    }
  }

  method ParseFocusedFeedback(scripts: Scripts, texts: map<int, string>, responses: seq<Option<seq<WireAnswer>>>)
    returns (feedback: Option<seq<AnswerFeedback>>)
    ensures feedback == Parsed(scripts, texts, responses)
  {
    assert responses[0..] == responses;
    for n := 0 to |responses|
      invariant Parsed(scripts, texts, responses[n..]) == Parsed(scripts, texts, responses)
    {
      assert responses[n..][1..] == responses[n + 1..];
      if responses[n].None? || |responses[n].value| != |texts| {
        continue;
      }
      var answers := ParseResponse(scripts, texts, responses[n].value);
      if answers.Some? {
        return Some(Sort(ByTurn, answers.value));
      }
    }
    return None;
  }

  lemma {:induction false} RefusedThere(scripts: Scripts, text: string, turn: int, items: seq<WireItem>, n: nat)
    requires n < |items| && Accepted(scripts, text, turn, items[n]).None?
    ensures AllAccepted(scripts, text, turn, items).None?
    decreases |items|
  {
    if n < |items| - 1 { RefusedThere(scripts, text, turn, items[..|items| - 1], n); }
  }

  // ---- What is accepted ---------------------------------------------------------------

  /** The quotation, the lesson and the two Russian texts are there and fit; praise has nothing else,
      and a correction has an English one, different from the quotation, and a text to practise. */
  predicate Acceptable(scripts: Scripts, item: WireItem) {
    && item.kind.Some? && item.occurrence.Some? && 1 <= item.occurrence.value && 1 <= |item.original| <= 500
    && !Blank(item.title) && |item.title| <= 300 && Has(scripts.cyrillic, item.title)
    && !Blank(item.explanation) && |item.explanation| <= 1200 && Has(scripts.cyrillic, item.explanation)
    && scripts.lesson(item.rule, item.category)
    && (item.kind == Some(Praise) ==> item.corrected == "" && item.practiceText == "" && !Has(scripts.cyrillic, item.original))
    && (item.kind != Some(Praise) ==>
          && !Blank(item.corrected) && |item.corrected| <= 500 && item.corrected != item.original
          && Has(scripts.latin, item.corrected) && !Has(scripts.cyrillic, item.corrected)
          && !Blank(item.practiceText) && |item.practiceText| <= 800
          && Has(scripts.latin, item.practiceText) && !Has(scripts.cyrillic, item.practiceText))
  }

  lemma WellFormedIff(scripts: Scripts, item: WireItem)
    ensures WellFormed(scripts, item) <==> Acceptable(scripts, item)
  {
    TrimBlank(item.title);
    TrimBlank(item.explanation);
    TrimBlank(item.corrected);
    TrimBlank(item.practiceText);
  }

  predicate SaysWhatWasSent(sent: WireItem, turn: int, item: Item) {
    && sent.kind == Some(item.focus.kind) && item.focus.original == sent.original && sent.occurrence == Some(item.focus.occurrence)
    && item.focus.corrected == sent.corrected && item.focus.practiceText == TrimSpace(sent.practiceText)
    && item.title == TrimSpace(sent.title) && item.explanation == TrimSpace(sent.explanation)
    && item.rule == sent.rule && item.category == sent.category && item.focus.span.Some? && item.focus.span.value.turn == turn
  }

  /** An item is accepted exactly if it is acceptable and its quotation occurs often enough. */
  lemma AcceptedIff(scripts: Scripts, text: string, turn: int, item: WireItem)
    ensures Accepted(scripts, text, turn, item).Some? <==>
      Acceptable(scripts, item) && item.occurrence.value <= |Positions(scripts.classes.word, text, item.original)|
    ensures Accepted(scripts, text, turn, item).Some? ==> SaysWhatWasSent(item, turn, Accepted(scripts, text, turn, item).value)
  {
    WellFormedIff(scripts, item);
    if item.occurrence.Some? { ResolvedOccurrence(scripts.classes.word, text, item.original, item.occurrence.value); }
  }

  predicate AtMostOne(kind: Kind, items: seq<WireItem>) {
    forall i, j :: 0 <= i < j < |items| ==> items[i].kind != Some(kind) || items[j].kind != Some(kind)
  }

  predicate NoneOf(kind: Kind, items: seq<WireItem>) { forall i :: 0 <= i < |items| ==> items[i].kind != Some(kind) }

  lemma {:induction false} CountIs(kind: Kind, items: seq<WireItem>)
    ensures CountOf(kind, items) == 0 <==> NoneOf(kind, items)
    ensures CountOf(kind, items) <= 1 <==> AtMostOne(kind, items)
  {
    if items != [] {
      var init, n := items[..|items| - 1], |items| - 1;
      CountIs(kind, init);
      assert NoneOf(kind, items) <==> NoneOf(kind, init) && items[n].kind != Some(kind);
      if AtMostOne(kind, init) && (items[n].kind != Some(kind) || NoneOf(kind, init)) {
        forall i, j | 0 <= i < j < |items| ensures items[i].kind != Some(kind) || items[j].kind != Some(kind) {
          assert items[i] == init[i];
          if j < n { assert items[j] == init[j]; }
        }
      }
    }
  }

  predicate AcceptedAs(scripts: Scripts, text: string, turn: int, wire: WireItem, item: Item) {
    Accepted(scripts, text, turn, wire) == Some(item)
  }

  predicate AcceptsAll(scripts: Scripts, text: string, turn: int, wires: seq<WireItem>, items: seq<Item>) {
    |items| == |wires| && forall i :: 0 <= i < |wires| ==> AcceptedAs(scripts, text, turn, wires[i], items[i])
  }

  lemma AcceptsOneMore(scripts: Scripts, text: string, turn: int, wires: seq<WireItem>, init: seq<Item>, last: Item)
    requires wires != []
    ensures AcceptsAll(scripts, text, turn, wires, init + [last]) <==>
      AcceptsAll(scripts, text, turn, wires[..|wires| - 1], init) && AcceptedAs(scripts, text, turn, wires[|wires| - 1], last)
  {
    var all, n := init + [last], |wires| - 1;
    if AcceptsAll(scripts, text, turn, wires, all) {
      forall i | 0 <= i < n ensures AcceptedAs(scripts, text, turn, wires[..n][i], init[i]) {
        assert AcceptedAs(scripts, text, turn, wires[i], all[i]);
      }
      assert AcceptedAs(scripts, text, turn, wires[n], all[n]);
    } else if AcceptsAll(scripts, text, turn, wires[..n], init) && AcceptedAs(scripts, text, turn, wires[n], last) {
      forall i | 0 <= i <= n ensures AcceptedAs(scripts, text, turn, wires[i], all[i]) {
        assert i < n ==> AcceptedAs(scripts, text, turn, wires[..n][i], init[i]);
      }
    }
  }

  lemma {:induction false} AllAcceptedIff(scripts: Scripts, text: string, turn: int, wires: seq<WireItem>, items: seq<Item>)
    ensures AllAccepted(scripts, text, turn, wires) == Some(items) <==> AcceptsAll(scripts, text, turn, wires, items)
  {
    if wires != [] {
      var n := |wires| - 1;
      if AllAccepted(scripts, text, turn, wires) == Some(items) {
        var init := AllAccepted(scripts, text, turn, wires[..n]).value;
        var last := Accepted(scripts, text, turn, wires[n]).value;
        AllAcceptedIff(scripts, text, turn, wires[..n], init);
        assert AcceptedAs(scripts, text, turn, wires[n], last) && items == init + [last];
        AcceptsOneMore(scripts, text, turn, wires, init, last);
      } else if |items| == |wires| {
        AllAcceptedIff(scripts, text, turn, wires[..n], items[..n]);
        AcceptsOneMore(scripts, text, turn, wires, items[..n], items[n]);
        assert items == items[..n] + [items[n]];
      }
    }
  }

  /** An answer is parsed exactly if each of its items is accepted and it has at most one praise and
      at most one native tip. */
  lemma ParsedAnswerIff(scripts: Scripts, text: string, turn: int, wires: seq<WireItem>)
    ensures ParsedAnswer(scripts, text, turn, wires).Some? <==>
      (exists items :: AcceptsAll(scripts, text, turn, wires, items)) && AtMostOne(Praise, wires) && AtMostOne(NativeTip, wires)
    ensures ParsedAnswer(scripts, text, turn, wires).Some? ==> ParsedAnswer(scripts, text, turn, wires).value.turn == turn
  {
    CountIs(Praise, wires);
    CountIs(NativeTip, wires);
    var all := AllAccepted(scripts, text, turn, wires);
    if all.Some? { AllAcceptedIff(scripts, text, turn, wires, all.value); }
    if items :| AcceptsAll(scripts, text, turn, wires, items) { AllAcceptedIff(scripts, text, turn, wires, items); }
  }

  // ---- Anchors survive storage --------------------------------------------------------

  /** A stored item that can be read back against its answer. */
  predicate SoundFocus(classes: Classes, text: string, turn: int, focus: Focus) {
    && focus.span.Some? && focus.span.value.turn == turn
    && Quotes(text, focus.span.value, focus.original)
    && (focus.kind != Praise ==> HasContext(classes, text, focus))
  }

  predicate Sound(scripts: Scripts, text: string, turn: int, item: Item) { SoundFocus(scripts.classes, text, turn, item.focus) }

  /** What the checks established about an accepted item. */
  predicate Checked(classes: Classes, text: string, turn: int, focus: Focus) {
    && Resolved(classes.word, text, focus.original, [], None, Some(focus.occurrence)).Some?
    && focus.span == Some(Resolved(classes.word, text, focus.original, [], None, Some(focus.occurrence)).value.(turn := turn))
    && |focus.original| <= 500 && |focus.corrected| <= 500
    && (focus.kind != Praise ==> TrimSpace(focus.corrected) != "" && focus.corrected != focus.original)
  }

  lemma AcceptedIsChecked(scripts: Scripts, text: string, turn: int, item: WireItem)
    requires Accepted(scripts, text, turn, item).Some?
    ensures Checked(scripts.classes, text, turn, Accepted(scripts, text, turn, item).value.focus)
  {
  }

  /** The limits on fragments leave room for a context, wherever the quotation stands. */
  lemma RoomForContext(classes: Classes, text: string, item: Focus, start: nat)
    requires Located(classes, text, item) == Some(start) && |item.original| <= 500 && |item.corrected| <= 500
    ensures HasContext(classes, text, item)
  {
  }

  lemma LocatedAgain(classes: Classes, text: string, item: Focus)
    requires item.kind != Praise && TrimSpace(item.corrected) != "" && item.corrected != item.original && item.span.Some?
    requires 1 <= item.occurrence <= |Positions(classes.word, text, item.original)|
    requires item.span == Some(SpanAt(text, item.original, Positions(classes.word, text, item.original)[item.occurrence - 1], item.span.value.turn))
    ensures Located(classes, text, item) == Some(Positions(classes.word, text, item.original)[item.occurrence - 1])
  {
  }

  lemma CheckedIsSound(classes: Classes, text: string, turn: int, focus: Focus)
    requires Checked(classes, text, turn, focus)
    ensures SoundFocus(classes, text, turn, focus)
  {
    ResolvedIsOccurrence(classes.word, text, focus.original, focus.occurrence, turn);
    if focus.kind != Praise {
      LocatedAgain(classes, text, focus);
      RoomForContext(classes, text, focus, Positions(classes.word, text, focus.original)[focus.occurrence - 1]);
    }
  }

  /** An accepted span slices the answer's UTF-16 back to exactly the quoted fragment, and an
      accepted blocker or native tip always gets a practice context from the same answer. */
  lemma AcceptedIsSound(scripts: Scripts, text: string, turn: int, item: WireItem)
    requires Accepted(scripts, text, turn, item).Some?
    ensures Sound(scripts, text, turn, Accepted(scripts, text, turn, item).value)
  {
    AcceptedIsChecked(scripts, text, turn, item);
    CheckedIsSound(scripts.classes, text, turn, Accepted(scripts, text, turn, item).value.focus);
  }

  lemma {:induction false} AllAcceptedAreSound(scripts: Scripts, text: string, turn: int, items: seq<WireItem>)
    requires AllAccepted(scripts, text, turn, items).Some?
    ensures forall x :: x in AllAccepted(scripts, text, turn, items).value ==> Sound(scripts, text, turn, x)
    ensures |AllAccepted(scripts, text, turn, items).value| == |items|
  {
    if items != [] {
      AllAcceptedAreSound(scripts, text, turn, items[..|items| - 1]);
      AcceptedIsSound(scripts, text, turn, items[|items| - 1]);
    }
  }

  /** A blocker only gives way to a blocker, and praise to no native tip. */
  predicate MayDisplace(kept: Kind, dropped: Kind) { (dropped == Blocker ==> kept == Blocker) && (dropped == Praise ==> kept != NativeTip) }

  lemma OutranksIff(a: Item, b: Item)
    ensures Outranks(a, b) <==> !MayDisplace(b.focus.kind, a.focus.kind)
  {
  }

  /** Two items of one answer that share no place, in the order of the text. */
  predicate Precedes(a: Item, b: Item) {
    a.focus.span.Some? && b.focus.span.Some? && a.focus.span.value.end <= b.focus.span.value.start
  }

  /** The items shown for an answer: sound, disjoint, in text order; and an accepted item that is
      left out overlaps one of at least its rank, so an error is only ever left out for an error. */
  lemma AnswerIsSound(scripts: Scripts, text: string, turn: int, items: seq<WireItem>)
    requires ParsedAnswer(scripts, text, turn, items).Some?
    ensures
      var shown, accepted := ParsedAnswer(scripts, text, turn, items).value.items, AllAccepted(scripts, text, turn, items).value;
      && Ordered(Earlier, shown) && Apart(Overlaps, shown)
      && (forall x :: x in shown ==> x in accepted && Sound(scripts, text, turn, x))
      && (forall x :: x in accepted && x !in shown ==> exists k :: k in shown && Overlaps(x, k) && !Outranks(x, k))
      && (forall i, j :: 0 <= i < j < |shown| ==> Precedes(shown[i], shown[j]))
      && (forall x :: x in accepted && x !in shown ==> exists k :: k in shown && Overlaps(x, k) && MayDisplace(k.focus.kind, x.focus.kind))
  {
    var accepted := AllAccepted(scripts, text, turn, items).value;
    var sorted := Sort(Outranks, accepted);
    var kept := Select(Overlaps, sorted);
    AllAcceptedAreSound(scripts, text, turn, items);
    OrdersAreWeak();
    SortOrders(Outranks, accepted);
    SameElements(Outranks, accepted);
    SelectedApart(Overlaps, sorted);
    SortOrders(Earlier, kept);
    SameElements(Earlier, kept);
    SortPermutes(Earlier, kept);
    ApartIsDistinct(scripts, text, turn, kept);
    ApartPermuted(Overlaps, kept, Sort(Earlier, kept));
    forall x | x in accepted && x !in kept ensures exists k :: k in kept && Overlaps(x, k) && !Outranks(x, k) {
      DroppedOverlaps(Outranks, Overlaps, sorted, x);
    }
    LeftOutForRank(accepted, Sort(Earlier, kept));
    ShownPrecede(scripts, text, turn, Sort(Earlier, kept));
  }

  lemma LeftOutForRank(accepted: seq<Item>, shown: seq<Item>)
    requires forall x :: x in accepted && x !in shown ==> exists k :: k in shown && Overlaps(x, k) && !Outranks(x, k)
    ensures forall x :: x in accepted && x !in shown ==> exists k :: k in shown && Overlaps(x, k) && MayDisplace(k.focus.kind, x.focus.kind)
  {
    forall x | x in accepted && x !in shown ensures exists k :: k in shown && Overlaps(x, k) && MayDisplace(k.focus.kind, x.focus.kind) {
      var k :| k in shown && Overlaps(x, k) && !Outranks(x, k);
      OutranksIff(x, k);
    }
  }

  lemma ShownPrecede(scripts: Scripts, text: string, turn: int, shown: seq<Item>)
    requires Ordered(Earlier, shown) && Apart(Overlaps, shown) && forall x :: x in shown ==> Sound(scripts, text, turn, x)
    ensures forall i, j :: 0 <= i < j < |shown| ==> Precedes(shown[i], shown[j])
  {
    forall i, j | 0 <= i < j < |shown| ensures Precedes(shown[i], shown[j]) {
      assert shown[i] in shown && shown[j] in shown;
      assert !Earlier(shown[j], shown[i]) && !Overlaps(shown[j], shown[i]);
    }
  }

  lemma OrdersAreWeak()
    ensures WeakOrder(Outranks) && WeakOrder(Earlier)
  {
  }

  /** A sound item has a width, so it overlaps itself and cannot be listed twice. */
  lemma ApartIsDistinct(scripts: Scripts, text: string, turn: int, kept: seq<Item>)
    requires Apart(Overlaps, kept) && forall x :: x in kept ==> Sound(scripts, text, turn, x)
    ensures Distinct(kept)
  {
    forall i, j | 0 <= i < j < |kept| ensures kept[i] != kept[j] {
      assert kept[i] in kept && !Overlaps(kept[j], kept[i]);
    }
  }

  // ---- Every answer is covered --------------------------------------------------------

  lemma {:induction false} ParsedTurns(scripts: Scripts, texts: map<int, string>, answers: seq<WireAnswer>)
    requires ParsedAnswers(scripts, texts, answers).Some?
    ensures |Turns(answers)| == |answers| && Turns(answers) <= texts.Keys
  {
    if answers != [] {
      var init, last := answers[..|answers| - 1], answers[|answers| - 1];
      ParsedTurns(scripts, texts, init);
    }
  }

  predicate AnswerParses(scripts: Scripts, texts: map<int, string>, wire: WireAnswer, parsed: AnswerFeedback) {
    wire.items.Some? && wire.turn in texts && ParsedAnswer(scripts, texts[wire.turn], wire.turn, wire.items.value) == Some(parsed)
  }

  lemma {:induction false} ParsedLength(scripts: Scripts, texts: map<int, string>, answers: seq<WireAnswer>)
    requires ParsedAnswers(scripts, texts, answers).Some?
    ensures |ParsedAnswers(scripts, texts, answers).value| == |answers|
  {
    if answers != [] { ParsedLength(scripts, texts, answers[..|answers| - 1]); }
  }

  lemma ParsedLast(scripts: Scripts, texts: map<int, string>, answers: seq<WireAnswer>, parsed: seq<AnswerFeedback>)
    requires answers != [] && ParsedAnswers(scripts, texts, answers) == Some(parsed)
    ensures parsed != [] && ParsedAnswers(scripts, texts, answers[..|answers| - 1]) == Some(parsed[..|parsed| - 1])
    ensures AnswerParses(scripts, texts, answers[|answers| - 1], parsed[|parsed| - 1])
  {
  }

  /** The accepted feedback is, answer by answer, what each answer was parsed to. */
  lemma {:induction false} ParsedEach(scripts: Scripts, texts: map<int, string>, answers: seq<WireAnswer>, parsed: seq<AnswerFeedback>, i: nat)
    requires ParsedAnswers(scripts, texts, answers) == Some(parsed) && i < |answers|
    ensures |parsed| == |answers| && AnswerParses(scripts, texts, answers[i], parsed[i])
    decreases |answers|
  {
    ParsedLength(scripts, texts, answers);
    ParsedLast(scripts, texts, answers, parsed);
    if i < |answers| - 1 { ParsedEach(scripts, texts, answers[..|answers| - 1], parsed[..|parsed| - 1], i); }
  }

  /** A response with as many answers as there are texts, all accepted, answers every text once. */
  lemma EveryTextIsAnswered(scripts: Scripts, texts: map<int, string>, answers: seq<WireAnswer>)
    requires |answers| == |texts| && ParsedAnswers(scripts, texts, answers).Some?
    ensures Turns(answers) == texts.Keys
  {
    ParsedTurns(scripts, texts, answers);
    FullSubset(Turns(answers), texts.Keys);
  }

  // ---- Which response is used ---------------------------------------------------------

  predicate DistinctTurns(answers: seq<WireAnswer>) { forall i, j :: 0 <= i < j < |answers| ==> answers[i].turn != answers[j].turn }

  /** Each answer is about a text of its own and is parsed. */
  predicate AnswersParse(scripts: Scripts, texts: map<int, string>, answers: seq<WireAnswer>) {
    DistinctTurns(answers) && EachIsParsed(scripts, texts, answers)
  }

  predicate AnswerIsParsed(scripts: Scripts, texts: map<int, string>, wire: WireAnswer) {
    wire.items.Some? && wire.turn in texts && ParsedAnswer(scripts, texts[wire.turn], wire.turn, wire.items.value).Some?
  }

  lemma {:induction false} TurnsAre(answers: seq<WireAnswer>, turn: int)
    ensures turn in Turns(answers) <==> exists i :: 0 <= i < |answers| && answers[i].turn == turn
  {
    if answers != [] {
      var init, n := answers[..|answers| - 1], |answers| - 1;
      TurnsAre(init, turn);
      if turn in Turns(init) {
        var i :| 0 <= i < |init| && init[i].turn == turn;
        assert answers[i] == init[i];
      }
      if i :| 0 <= i < |answers| && answers[i].turn == turn {
        if i < n { assert init[i] == answers[i]; }
      }
    }
  }

  lemma DistinctSnoc(answers: seq<WireAnswer>)
    requires answers != []
    ensures
      var n := |answers| - 1;
      DistinctTurns(answers) <==> DistinctTurns(answers[..n]) && answers[n].turn !in Turns(answers[..n])
  {
    var init, n := answers[..|answers| - 1], |answers| - 1;
    TurnsAre(init, answers[n].turn);
    if DistinctTurns(init) && answers[n].turn !in Turns(init) {
      forall i, j | 0 <= i < j < |answers| ensures answers[i].turn != answers[j].turn {
        assert answers[i] == init[i];
        if j < n { assert answers[j] == init[j]; }
      }
    }
  }

  predicate EachIsParsed(scripts: Scripts, texts: map<int, string>, answers: seq<WireAnswer>) {
    forall i :: 0 <= i < |answers| ==> AnswerIsParsed(scripts, texts, answers[i])
  }

  lemma EachSnoc(scripts: Scripts, texts: map<int, string>, answers: seq<WireAnswer>)
    requires answers != []
    ensures
      var n := |answers| - 1;
      EachIsParsed(scripts, texts, answers) <==> EachIsParsed(scripts, texts, answers[..n]) && AnswerIsParsed(scripts, texts, answers[n])
  {
    var init, n := answers[..|answers| - 1], |answers| - 1;
    if EachIsParsed(scripts, texts, init) && AnswerIsParsed(scripts, texts, answers[n]) {
      forall i | 0 <= i < |answers| ensures AnswerIsParsed(scripts, texts, answers[i]) {
        if i < n { assert AnswerIsParsed(scripts, texts, init[i]); }
      }
    }
  }

  /** A response is parsed exactly if each answer is known, answered once and parsed. */
  lemma {:induction false} ParsedAnswersIff(scripts: Scripts, texts: map<int, string>, answers: seq<WireAnswer>)
    ensures ParsedAnswers(scripts, texts, answers).Some? <==> AnswersParse(scripts, texts, answers)
  {
    if answers != [] {
      ParsedAnswersIff(scripts, texts, answers[..|answers| - 1]);
      DistinctSnoc(answers);
      EachSnoc(scripts, texts, answers);
    }
  }

  predicate Usable(scripts: Scripts, texts: map<int, string>, response: Option<seq<WireAnswer>>) {
    response.Some? && |response.value| == |texts| && AnswersParse(scripts, texts, response.value)
  }

  /** There is no usable response, or this is the feedback of the first one. */
  ghost predicate IsFirst(scripts: Scripts, texts: map<int, string>, responses: seq<Option<seq<WireAnswer>>>, parsed: Option<seq<AnswerFeedback>>) {
    if parsed.None? then NoneUsable(scripts, texts, responses, |responses|)
    else exists n :: 0 <= n < |responses| && UsedAt(scripts, texts, responses, parsed.value, n)
  }

  predicate NoneUsable(scripts: Scripts, texts: map<int, string>, responses: seq<Option<seq<WireAnswer>>>, n: nat)
    requires n <= |responses|
  {
    forall m :: 0 <= m < n ==> !Usable(scripts, texts, responses[m])
  }

  predicate UsedAt(scripts: Scripts, texts: map<int, string>, responses: seq<Option<seq<WireAnswer>>>, feedback: seq<AnswerFeedback>, n: nat)
    requires n < |responses|
  {
    Usable(scripts, texts, responses[n]) && NoneUsable(scripts, texts, responses, n) && IsFeedback(scripts, texts, responses[n].value, feedback)
  }

  /** The feedback is that of the first usable response, in the order of the turns. */
  lemma {:induction false} FirstUsable(scripts: Scripts, texts: map<int, string>, responses: seq<Option<seq<WireAnswer>>>)
    ensures IsFirst(scripts, texts, responses, Parsed(scripts, texts, responses))
  {
    if responses != [] {
      if responses[0].Some? { ParsedAnswersIff(scripts, texts, responses[0].value); }
      if Usable(scripts, texts, responses[0]) {
        InTurnOrder(scripts, texts, responses[0].value);
        assert UsedAt(scripts, texts, responses, Parsed(scripts, texts, responses).value, 0);
      } else {
        FirstUsable(scripts, texts, responses[1..]);
        LaterUsable(scripts, texts, responses, Parsed(scripts, texts, responses[1..]));
      }
    }
  }

  lemma NoneUsableCons(scripts: Scripts, texts: map<int, string>, responses: seq<Option<seq<WireAnswer>>>, n: nat)
    requires n < |responses| && !Usable(scripts, texts, responses[0]) && NoneUsable(scripts, texts, responses[1..], n)
    ensures NoneUsable(scripts, texts, responses, n + 1)
  {
    forall m | 0 <= m < n + 1 ensures !Usable(scripts, texts, responses[m]) {
      if m > 0 { assert responses[m] == responses[1..][m - 1]; }
    }
  }

  lemma LaterUsable(scripts: Scripts, texts: map<int, string>, responses: seq<Option<seq<WireAnswer>>>, parsed: Option<seq<AnswerFeedback>>)
    requires responses != [] && !Usable(scripts, texts, responses[0]) && IsFirst(scripts, texts, responses[1..], parsed)
    ensures IsFirst(scripts, texts, responses, parsed)
  {
    var rest := responses[1..];
    if parsed.None? {
      NoneUsableCons(scripts, texts, responses, |rest|);
    } else {
      var n :| 0 <= n < |rest| && UsedAt(scripts, texts, rest, parsed.value, n);
      NoneUsableCons(scripts, texts, responses, n);
      assert UsedAt(scripts, texts, responses, parsed.value, n + 1);
    }
  }

  /** What the answers were parsed to, and nothing else, in the order of the turns. */
  predicate IsFeedback(scripts: Scripts, texts: map<int, string>, answers: seq<WireAnswer>, feedback: seq<AnswerFeedback>) {
    && ParsedAnswers(scripts, texts, answers).Some? && multiset(feedback) == multiset(ParsedAnswers(scripts, texts, answers).value)
    && forall i, j :: 0 <= i < j < |feedback| ==> feedback[i].turn <= feedback[j].turn
  }

  lemma InTurnOrder(scripts: Scripts, texts: map<int, string>, answers: seq<WireAnswer>)
    requires ParsedAnswers(scripts, texts, answers).Some?
    ensures IsFeedback(scripts, texts, answers, Sort(ByTurn, ParsedAnswers(scripts, texts, answers).value))
  {
    var parsed := ParsedAnswers(scripts, texts, answers).value;
    SortPermutes(ByTurn, parsed);
    SortOrders(ByTurn, parsed);
    var feedback := Sort(ByTurn, parsed);
    forall i, j | 0 <= i < j < |feedback| ensures feedback[i].turn <= feedback[j].turn { assert !ByTurn(feedback[j], feedback[i]); }
  }

  // ---- Reading the feedback back ------------------------------------------------------

  /** An item gets a practice context when its answer is still there, it is anchored in that very
      answer, and its quotation is found where the span says. */
  predicate Readable(classes: Classes, texts: map<int, string>, turn: int, focus: Focus) {
    turn in texts && focus.span.Some? && focus.span.value.turn == turn && HasContext(classes, texts[turn], focus)
  }

  ghost predicate ReadsAs(classes: Classes, texts: map<int, string>, turn: int, focus: Focus, context: Option<Context>) {
    && (context.Some? <==> Readable(classes, texts, turn, focus))
    && (context.Some? ==>
          && |context.value.originalText| <= PRACTICE_LIMIT && |context.value.correctedText| <= PRACTICE_LIMIT
          && exists w :: Shows(classes, texts[turn], focus, Located(classes, texts[turn], focus).value, w, context.value))
  }

  ghost predicate AllReadAs(classes: Classes, texts: map<int, string>, answer: AnswerFeedback, contexts: seq<Option<Context>>) {
    && |contexts| == |answer.items|
    && forall i :: 0 <= i < |contexts| ==> ReadsAs(classes, texts, answer.turn, answer.items[i].focus, contexts[i])
  }

  method DecodeAnswer(classes: Classes, answer: AnswerFeedback, texts: map<int, string>) returns (read: seq<Option<Context>>)
    ensures AllReadAs(classes, texts, answer, read)
  {
    read := [];
    for i := 0 to |answer.items|
      invariant |read| == i && forall k :: 0 <= k < i ==> ReadsAs(classes, texts, answer.turn, answer.items[k].focus, read[k])
    {
      var focus, context := answer.items[i].focus, None;
      if answer.turn in texts && focus.span.Some? && focus.span.value.turn == answer.turn {
        context := FeedbackPracticeContext(classes, texts[answer.turn], focus);
      }
      read := read + [context];
    }
  }

  /** `DecodeFocusedFeedbackForAnswers`, behind the JSON decoder: the context of every item. */
  method DecodeForAnswers(classes: Classes, feedback: seq<AnswerFeedback>, texts: map<int, string>)
    returns (contexts: seq<seq<Option<Context>>>)
    ensures |contexts| == |feedback|
    ensures forall n :: 0 <= n < |feedback| ==> AllReadAs(classes, texts, feedback[n], contexts[n])
  {
    contexts := [];
    for n := 0 to |feedback|
      invariant |contexts| == n && forall m :: 0 <= m < n ==> AllReadAs(classes, texts, feedback[m], contexts[m])
    {
      var read := DecodeAnswer(classes, feedback[n], texts);
      contexts := contexts + [read];
    }
  }

  predicate SoundAnswer(scripts: Scripts, texts: map<int, string>, answer: AnswerFeedback) {
    answer.turn in texts && forall x :: x in answer.items ==> Sound(scripts, texts[answer.turn], answer.turn, x)
  }

  lemma {:induction false} ParsedIsSound(scripts: Scripts, texts: map<int, string>, responses: seq<Option<seq<WireAnswer>>>, answer: AnswerFeedback)
    requires Parsed(scripts, texts, responses).Some? && answer in Parsed(scripts, texts, responses).value
    ensures SoundAnswer(scripts, texts, answer)
    decreases |responses|
  {
    var answers := if responses[0].None? || |responses[0].value| != |texts| then None else ParsedAnswers(scripts, texts, responses[0].value);
    if answers.Some? {
      SameElements(ByTurn, answers.value);
      var i :| 0 <= i < |answers.value| && answers.value[i] == answer;
      ParsedLength(scripts, texts, responses[0].value);
      ParsedEach(scripts, texts, responses[0].value, answers.value, i);
      var wire := responses[0].value[i];
      AnswerIsSound(scripts, texts[wire.turn], wire.turn, wire.items.value);
    } else {
      ParsedIsSound(scripts, texts, responses[1..], answer);
    }
  }

  /** Accepted feedback read back against the same answers: every blocker and native tip of every
      answer gets its practice context, and praise gets none. */
  lemma AcceptedReadsBack(scripts: Scripts, texts: map<int, string>, responses: seq<Option<seq<WireAnswer>>>, answer: AnswerFeedback, x: Item)
    requires Parsed(scripts, texts, responses).Some? && answer in Parsed(scripts, texts, responses).value && x in answer.items
    ensures Readable(scripts.classes, texts, answer.turn, x.focus) <==> x.focus.kind != Praise
  {
    ParsedIsSound(scripts, texts, responses, answer);
    assert Sound(scripts, texts[answer.turn], answer.turn, x);
  }
}
