/** Anchoring quoted feedback in an answer (`internal/recording/feedback_span.go`).

    Texts are sequences of code points; a span counts UTF-16 code units, as a browser does.
    Which code points belong to words is a parameter. */
module FeedbackSpan {
  import opened Prelude
  import opened Timeline

  type WordClass = char -> bool

  datatype Span = Span(start: int, end: int, turn: int)

  // ---- Whole-word occurrences ---------------------------------------------------------

  predicate OccursAt(text: string, phrase: string, p: int) {
    0 <= p && p + |phrase| <= |text| && text[p..p + |phrase|] == phrase
  }

  /** A boundary inside a word spoils an occurrence only on the sides where the phrase itself
      begins or ends with a word character. */
  predicate WholeAt(word: WordClass, text: string, phrase: string, p: int)
    requires phrase != ""
  {
    && OccursAt(text, phrase, p)
    && (p > 0 && word(phrase[0]) ==> !word(text[p - 1]))
    && (p + |phrase| < |text| && word(phrase[|phrase| - 1]) ==> !word(text[p + |phrase|]))
  }

  function PositionsUpTo(word: WordClass, text: string, phrase: string, n: nat): seq<nat>
    requires phrase != ""
  {
    if n == 0 then []
    else PositionsUpTo(word, text, phrase, n - 1) + if WholeAt(word, text, phrase, n - 1) then [n - 1] else []
  }

  function Positions(word: WordClass, text: string, phrase: string): seq<nat> {
    if phrase == "" then [] else PositionsUpTo(word, text, phrase, |text|)
  }

  lemma {:induction false} PositionsUpToAre(word: WordClass, text: string, phrase: string, n: nat, p: nat)
    requires phrase != ""
    ensures p in PositionsUpTo(word, text, phrase, n) <==> p < n && WholeAt(word, text, phrase, p)
  {
    if n > 0 { PositionsUpToAre(word, text, phrase, n - 1, p); }
  }

  predicate Increasing(positions: seq<nat>) { forall i, j :: 0 <= i < j < |positions| ==> positions[i] < positions[j] }

  lemma {:induction false} PositionsIncrease(word: WordClass, text: string, phrase: string, n: nat)
    requires phrase != ""
    ensures Increasing(PositionsUpTo(word, text, phrase, n))
    ensures forall i :: 0 <= i < |PositionsUpTo(word, text, phrase, n)| ==> PositionsUpTo(word, text, phrase, n)[i] < n
  {
    if n > 0 { PositionsIncrease(word, text, phrase, n - 1); }
  }

  /** Exactly the whole-word occurrences, overlapping ones included, in increasing order. */
  lemma PositionsAreExact(word: WordClass, text: string, phrase: string)
    requires phrase != ""
    ensures
      var positions := Positions(word, text, phrase);
      (forall p: nat :: p in positions <==> WholeAt(word, text, phrase, p)) && Increasing(positions)
  {
    forall p: nat ensures p in Positions(word, text, phrase) <==> WholeAt(word, text, phrase, p) {
      PositionsUpToAre(word, text, phrase, |text|, p);
    }
    PositionsIncrease(word, text, phrase, |text|);
  }

  /** The phrase stands there, and no word goes on over an end of it that is a word character. */
  predicate StandsAt(word: WordClass, text: string, phrase: string, p: nat) {
    && phrase != "" && p + |phrase| <= |text| && (forall i :: 0 <= i < |phrase| ==> text[p + i] == phrase[i])
    && !(p > 0 && word(text[p - 1]) && word(phrase[0]))
    && !(p + |phrase| < |text| && word(text[p + |phrase|]) && word(phrase[|phrase| - 1]))
  }

  lemma PositionsStand(word: WordClass, text: string, phrase: string, p: nat)
    ensures p in Positions(word, text, phrase) <==> StandsAt(word, text, phrase, p)
  {
    if phrase != "" {
      PositionsAreExact(word, text, phrase);
      assert p in Positions(word, text, phrase) <==> WholeAt(word, text, phrase, p);
      if OccursAt(text, phrase, p) {
        forall i | 0 <= i < |phrase| ensures text[p + i] == phrase[i] { assert text[p..p + |phrase|][i] == text[p + i]; }
      } else if p + |phrase| <= |text| {
        assert exists i :: 0 <= i < |phrase| && text[p..p + |phrase|][i] != phrase[i];
      }
    }
  }

  /** `strings.Index`. */
  method Index(text: string, from: nat, phrase: string) returns (at: Option<nat>)
    requires from <= |text|
    ensures at.Some? ==> from <= at.value && OccursAt(text, phrase, at.value)
    ensures forall p :: from <= p < (if at.Some? then at.value else |text| + 1) ==> !OccursAt(text, phrase, p)
  {
    var p := from;
    while p + |phrase| <= |text|
      invariant from <= p
      invariant forall q :: from <= q < p ==> !OccursAt(text, phrase, q)
    {
      if text[p..p + |phrase|] == phrase {
        return Some(p);
      }
      p := p + 1;
    }
    return None;
  }

  lemma {:induction false} NoPositionsBetween(word: WordClass, text: string, phrase: string, from: nat, until: nat)
    requires phrase != "" && from <= until
    requires forall p :: from <= p < until ==> !OccursAt(text, phrase, p)
    ensures PositionsUpTo(word, text, phrase, until) == PositionsUpTo(word, text, phrase, from)
    decreases until
  {
    if from < until { NoPositionsBetween(word, text, phrase, from, until - 1); }
  }

  lemma PositionsStep(word: WordClass, text: string, phrase: string, from: nat, start: nat)
    requires phrase != "" && from <= start
    requires forall p :: from <= p < start ==> !OccursAt(text, phrase, p)
    ensures PositionsUpTo(word, text, phrase, start + 1)
      == PositionsUpTo(word, text, phrase, from) + if WholeAt(word, text, phrase, start) then [start] else []
  {
    NoPositionsBetween(word, text, phrase, from, start);
  }

  method PhrasePositions(word: WordClass, text: string, phrase: string) returns (positions: seq<nat>)
    ensures positions == Positions(word, text, phrase)
  {
    positions := [];
    if phrase == "" {
      return;
    }
    var first, last := phrase[0], phrase[|phrase| - 1];
    var from := 0;
    while from < |text|
      invariant 0 <= from <= |text|
      invariant positions == PositionsUpTo(word, text, phrase, from)
    {
      var index := Index(text, from, phrase);
      if index.None? {
        NoPositionsBetween(word, text, phrase, from, |text|);
        return;
      }
      var start := index.value;
      var end := start + |phrase|;
      PositionsStep(word, text, phrase, from, start);
      var whole := IsWholeWord(word, text, start, end, first, last);
      if whole {
        positions := positions + [start];
      }
      from := start + 1;
    }
  }

  /** The checks on both ends of a match. */
  method IsWholeWord(word: WordClass, text: string, start: nat, end: nat, first: char, last: char) returns (whole: bool)
    requires start < end <= |text|
    ensures whole <==> (start > 0 && word(first) ==> !word(text[start - 1])) && (end < |text| && word(last) ==> !word(text[end]))
  {
    var left, right := true, true;
    if start > 0 && word(first) {
      left := !word(text[start - 1]);
    }
    if end < |text| && word(last) {
      right := !word(text[end]);
    }
    return left && right;
  }

  // ---- UTF-16 -------------------------------------------------------------------------

  function Units(c: char): seq<int> {
    if c as int > 0xffff then [0xd800 + (c as int - 0x10000) / 0x400, 0xdc00 + (c as int - 0x10000) % 0x400] else [c as int]
  }

  /** The text as a browser stores it. */
  function Utf16(text: string): seq<int> { if text == "" then [] else Utf16(text[..|text| - 1]) + Units(text[|text| - 1]) }

  /** A character up to U+FFFF is one unit; any other is a high and a low surrogate, from which it
      can be computed back. */
  lemma UnitsRead(c: char)
    ensures |Units(c)| == if c as int < 0x10000 then 1 else 2
    ensures c as int < 0x10000 ==> Units(c)[0] == c as int
    ensures c as int >= 0x10000 ==>
      && 0xd800 <= Units(c)[0] < 0xdc00 && 0xdc00 <= Units(c)[1] < 0xe000
      && 0x10000 + (Units(c)[0] - 0xd800) * 0x400 + (Units(c)[1] - 0xdc00) == c as int
  {
  }

  /** The characters that take two units. */
  function Wide(text: string): set<nat> { set i | 0 <= i < |text| && text[i] as int >= 0x10000 }

  lemma WideSnoc(text: string)
    requires text != ""
    ensures
      var init, last := text[..|text| - 1], |text| - 1;
      |Wide(text)| == |Wide(init)| + if text[last] as int >= 0x10000 then 1 else 0
  {
    var init, last := text[..|text| - 1], |text| - 1;
    assert last !in Wide(init);
    assert Wide(text) == if text[last] as int >= 0x10000 then Wide(init) + {last} else Wide(init);
  }

  method Utf16Length(text: string) returns (length: nat)
    ensures length == |Utf16(text)|
    ensures length == |text| + |Wide(text)|
  {
    length := 0;
    assert Wide(text[..0]) == {};
    for i := 0 to |text|
      invariant length == |Utf16(text[..i])|
      invariant length == i + |Wide(text[..i])|
    {
      assert text[..i + 1][..i] == text[..i];
      WideSnoc(text[..i + 1]);
      length := length + 1;
      if text[i] as int > 0xffff {
        length := length + 1;
      }
    }
    assert text[..|text|] == text;
  }

  lemma Utf16Snoc(text: string)
    requires text != ""
    ensures Utf16(text) == Utf16(text[..|text| - 1]) + Units(text[|text| - 1])
  {
  }

  lemma {:induction false} Utf16Append(a: string, b: string)
    ensures Utf16(a + b) == Utf16(a) + Utf16(b)
    decreases |b|
  {
    if b == "" {
      assert a + b == a;
    } else {
      var all, init := a + b, b[..|b| - 1];
      Utf16Append(a, init);
      assert all[..|all| - 1] == a + init && all[|all| - 1] == b[|b| - 1];
      Associates(Utf16(a), Utf16(init), Units(b[|b| - 1]));
      calc {
        Utf16(all);
      == { Utf16Snoc(all); }
        Utf16(a + init) + Units(b[|b| - 1]);
      ==
        Utf16(a) + (Utf16(init) + Units(b[|b| - 1]));
      == { Utf16Snoc(b); }
        Utf16(a) + Utf16(b);
      }
    }
  }

  lemma Associates(a: seq<int>, b: seq<int>, c: seq<int>)
    ensures (a + b) + c == a + (b + c)
  {
  }

  function Prefix(text: string, n: nat): string { if n <= |text| then text[..n] else text }

  function SpanAt(text: string, phrase: string, p: nat, turn: int): Span {
    Span(|Utf16(Prefix(text, p))|, |Utf16(Prefix(text, p + |phrase|))|, turn)
  }

  /** Slicing the browser's string with the span gives back the quoted phrase. */
  predicate Quotes(text: string, span: Span, phrase: string) {
    0 <= span.start < span.end <= |Utf16(text)| && Utf16(text)[span.start..span.end] == Utf16(phrase)
  }

  lemma SpanQuotes(text: string, phrase: string, p: nat, turn: int)
    requires phrase != "" && OccursAt(text, phrase, p)
    ensures Quotes(text, SpanAt(text, phrase, p, turn), phrase)
  {
    var head, tail := text[..p], text[p + |phrase|..];
    assert text == head + phrase + tail && text[..p + |phrase|] == head + phrase;
    Utf16Append(head, phrase);
    Utf16Append(head + phrase, tail);
    assert Utf16(phrase) == Utf16(phrase[..|phrase| - 1]) + Units(phrase[|phrase| - 1]);
  }

  // ---- Resolving a quotation ----------------------------------------------------------

  /** The answers a quotation may come from. */
  function Texts(transcript: string, turns: seq<DialogueTurn>): seq<DialogueTurn> {
    if |turns| > 0 then turns else [DialogueTurn(0, "", transcript)]
  }

  /** The quotation may mean occurrence `k + 1` in answer `i`. */
  predicate MayMean(word: WordClass, texts: seq<DialogueTurn>, phrase: string, sequence: Option<int>, occurrence: Option<int>, i: nat, k: nat) {
    && i < |texts| && (sequence == None || sequence == Some(texts[i].sequence))
    && k < |Positions(word, texts[i].answer, phrase)| && (occurrence == None || occurrence == Some(k + 1))
  }

  predicate Wanted(turn: DialogueTurn, sequence: Option<int>) { sequence.None? || sequence.value == turn.sequence }

  /** The spans of the wanted occurrences, among those at the given positions. */
  function SpansAt(turn: DialogueTurn, phrase: string, positions: seq<nat>, occurrence: Option<int>): seq<Span> {
    if positions == [] then []
    else
      SpansAt(turn, phrase, positions[..|positions| - 1], occurrence)
      + if occurrence.Some? && |positions| != occurrence.value then []
        else [SpanAt(turn.answer, phrase, positions[|positions| - 1], turn.sequence)]
  }

  lemma SpansSnoc(turn: DialogueTurn, phrase: string, positions: seq<nat>, n: nat, occurrence: Option<int>)
    requires n < |positions|
    ensures SpansAt(turn, phrase, positions[..n + 1], occurrence)
      == SpansAt(turn, phrase, positions[..n], occurrence)
         + if occurrence.Some? && n + 1 != occurrence.value then [] else [SpanAt(turn.answer, phrase, positions[n], turn.sequence)]
  {
    assert positions[..n + 1][..n] == positions[..n];
  }

  lemma PositionOccurs(word: WordClass, text: string, phrase: string, i: nat)
    requires i < |Positions(word, text, phrase)|
    ensures phrase != "" && OccursAt(text, phrase, Positions(word, text, phrase)[i])
  {
    PositionsAreExact(word, text, phrase);
    assert Positions(word, text, phrase)[i] in Positions(word, text, phrase);
  }

  function Matches(word: WordClass, texts: seq<DialogueTurn>, phrase: string, sequence: Option<int>, occurrence: Option<int>): seq<Span> {
    if texts == [] then []
    else
      var turn := texts[|texts| - 1];
      Matches(word, texts[..|texts| - 1], phrase, sequence, occurrence)
      + if Wanted(turn, sequence) then SpansAt(turn, phrase, Positions(word, turn.answer, phrase), occurrence) else []
  }

  function Resolved(word: WordClass, transcript: string, phrase: string, turns: seq<DialogueTurn>, sequence: Option<int>, occurrence: Option<int>): Option<Span> {
    if occurrence.Some? && occurrence.value < 1 then None
    else
      var matches := Matches(word, Texts(transcript, turns), phrase, sequence, occurrence);
      if |matches| == 1 then Some(matches[0]) else None
  }

  method ResolveFeedbackSpan(word: WordClass, transcript: string, phrase: string, turns: seq<DialogueTurn>, sequence: Option<int>, occurrence: Option<int>)
    returns (span: Option<Span>)
    ensures span == Resolved(word, transcript, phrase, turns, sequence, occurrence)
  {
    if occurrence.Some? && occurrence.value < 1 {
      return None;
    }
    var texts := [DialogueTurn(0, "", transcript)];
    if |turns| > 0 {
      texts := turns;
    }
    var matches: seq<Span> := [];
    for i := 0 to |texts|
      invariant matches == Matches(word, texts[..i], phrase, sequence, occurrence)
    {
      assert texts[..i + 1][..i] == texts[..i];
      if sequence.Some? && texts[i].sequence != sequence.value {
        continue;
      }
      var spans := TurnSpans(word, texts[i], phrase, occurrence);
      matches := matches + spans;
    }
    assert texts[..|texts|] == texts;
    if |matches| != 1 {
      return None;
    }
    return Some(matches[0]);
  }

  /** The inner loop: the spans of one answer. */
  method TurnSpans(word: WordClass, turn: DialogueTurn, phrase: string, occurrence: Option<int>) returns (spans: seq<Span>)
    ensures spans == SpansAt(turn, phrase, Positions(word, turn.answer, phrase), occurrence)
  {
    var positions := PhrasePositions(word, turn.answer, phrase);
    spans := [];
    for index := 0 to |positions|
      invariant spans == SpansAt(turn, phrase, positions[..index], occurrence)
    {
      SpansSnoc(turn, phrase, positions, index, occurrence);
      if occurrence.Some? && index + 1 != occurrence.value {
        continue;
      }
      PositionOccurs(word, turn.answer, phrase, index);
      var span := MeasureSpan(turn, phrase, positions[index]);
      spans := spans + [span];
    }
    assert positions[..|positions|] == positions;
  }

  method MeasureSpan(turn: DialogueTurn, phrase: string, p: nat) returns (span: Span)
    requires p + |phrase| <= |turn.answer|
    ensures span == SpanAt(turn.answer, phrase, p, turn.sequence)
  {
    var start := Utf16Length(turn.answer[..p]);
    var end := Utf16Length(turn.answer[..p + |phrase|]);
    return Span(start, end, turn.sequence);
  }

  lemma AllOccur(word: WordClass, text: string, phrase: string)
    ensures forall i :: 0 <= i < |Positions(word, text, phrase)| ==> OccursAt(text, phrase, Positions(word, text, phrase)[i])
    ensures Positions(word, text, phrase) != [] ==> phrase != ""
  {
    forall i | 0 <= i < |Positions(word, text, phrase)| ensures OccursAt(text, phrase, Positions(word, text, phrase)[i]) {
      PositionOccurs(word, text, phrase, i);
    }
  }

  predicate Overlap(a: Option<Span>, b: Option<Span>) {
    a.Some? && b.Some? && a.value.turn == b.value.turn && a.value.start < b.value.end && b.value.start < a.value.end
  }

  lemma {:induction false} SpansQuote(turn: DialogueTurn, phrase: string, positions: seq<nat>, occurrence: Option<int>, span: Span)
    requires phrase != "" && forall i :: 0 <= i < |positions| ==> OccursAt(turn.answer, phrase, positions[i])
    requires span in SpansAt(turn, phrase, positions, occurrence)
    ensures span.turn == turn.sequence && Quotes(turn.answer, span, phrase)
  {
    var init, last := positions[..|positions| - 1], positions[|positions| - 1];
    if span in SpansAt(turn, phrase, init, occurrence) {
      SpansQuote(turn, phrase, init, occurrence, span);
    } else {
      assert OccursAt(turn.answer, phrase, last);
      SpanQuotes(turn.answer, phrase, last, turn.sequence);
    }
  }

  lemma {:induction false} MatchesQuote(word: WordClass, texts: seq<DialogueTurn>, phrase: string, sequence: Option<int>, occurrence: Option<int>, span: Span)
    requires span in Matches(word, texts, phrase, sequence, occurrence)
    ensures exists i :: 0 <= i < |texts| && Wanted(texts[i], sequence) && span.turn == texts[i].sequence && Quotes(texts[i].answer, span, phrase)
  {
    var init, turn := texts[..|texts| - 1], texts[|texts| - 1];
    if span in Matches(word, init, phrase, sequence, occurrence) {
      MatchesQuote(word, init, phrase, sequence, occurrence, span);
      var i :| 0 <= i < |init| && Wanted(init[i], sequence) && span.turn == init[i].sequence && Quotes(init[i].answer, span, phrase);
      assert texts[i] == init[i];
    } else {
      AllOccur(word, turn.answer, phrase);
      SpansQuote(turn, phrase, Positions(word, turn.answer, phrase), occurrence, span);
    }
  }

  /** Every resolved span quotes the phrase from an answer it was allowed to come from. */
  lemma ResolvedQuotes(word: WordClass, transcript: string, phrase: string, turns: seq<DialogueTurn>, sequence: Option<int>, occurrence: Option<int>)
    requires Resolved(word, transcript, phrase, turns, sequence, occurrence).Some?
    ensures
      var span, texts := Resolved(word, transcript, phrase, turns, sequence, occurrence).value, Texts(transcript, turns);
      exists i :: 0 <= i < |texts| && Wanted(texts[i], sequence) && span.turn == texts[i].sequence && Quotes(texts[i].answer, span, phrase)
  {
    var matches := Matches(word, Texts(transcript, turns), phrase, sequence, occurrence);
    assert matches[0] in matches;
    MatchesQuote(word, Texts(transcript, turns), phrase, sequence, occurrence, matches[0]);
  }

  /** Of the first `n` occurrences in answer `i`, those a quotation may mean. */
  function MeantIn(i: nat, n: nat, occurrence: Option<int>): set<(nat, nat)> {
    set k | 0 <= k < n && (occurrence == None || occurrence == Some(k + 1)) :: (i, k)
  }

  function Meant(word: WordClass, texts: seq<DialogueTurn>, phrase: string, sequence: Option<int>, occurrence: Option<int>): set<(nat, nat)> {
    if texts == [] then {}
    else
      var last := |texts| - 1;
      Meant(word, texts[..last], phrase, sequence, occurrence)
      + if Wanted(texts[last], sequence) then MeantIn(last, |Positions(word, texts[last].answer, phrase)|, occurrence) else {}
  }

  lemma {:induction false} MeantAre(word: WordClass, texts: seq<DialogueTurn>, phrase: string, sequence: Option<int>, occurrence: Option<int>, i: nat, k: nat)
    ensures (i, k) in Meant(word, texts, phrase, sequence, occurrence) <==> MayMean(word, texts, phrase, sequence, occurrence, i, k)
  {
    if texts != [] { MeantAre(word, texts[..|texts| - 1], phrase, sequence, occurrence, i, k); }
  }

  lemma {:induction false} MeantBelow(word: WordClass, texts: seq<DialogueTurn>, phrase: string, sequence: Option<int>, occurrence: Option<int>)
    ensures forall p :: p in Meant(word, texts, phrase, sequence, occurrence) ==> p.0 < |texts|
  {
    if texts != [] { MeantBelow(word, texts[..|texts| - 1], phrase, sequence, occurrence); }
  }

  lemma {:induction false} SpansCount(turn: DialogueTurn, phrase: string, positions: seq<nat>, occurrence: Option<int>, i: nat)
    ensures |SpansAt(turn, phrase, positions, occurrence)| == |MeantIn(i, |positions|, occurrence)|
  {
    if positions == [] {
      assert MeantIn(i, 0, occurrence) == {};
    } else {
      var n := |positions| - 1;
      SpansCount(turn, phrase, positions[..n], occurrence, i);
      assert (i, n) !in MeantIn(i, n, occurrence);
      assert MeantIn(i, n + 1, occurrence)
        == if occurrence.Some? && occurrence.value != n + 1 then MeantIn(i, n, occurrence) else MeantIn(i, n, occurrence) + {(i, n)};
    }
  }

  lemma {:induction false} MatchesCount(word: WordClass, texts: seq<DialogueTurn>, phrase: string, sequence: Option<int>, occurrence: Option<int>)
    ensures |Matches(word, texts, phrase, sequence, occurrence)| == |Meant(word, texts, phrase, sequence, occurrence)|
  {
    if texts != [] {
      var n := |texts| - 1;
      var positions := Positions(word, texts[n].answer, phrase);
      MatchesCount(word, texts[..n], phrase, sequence, occurrence);
      SpansCount(texts[n], phrase, positions, occurrence, n);
      MeantBelow(word, texts[..n], phrase, sequence, occurrence);
      assert Meant(word, texts[..n], phrase, sequence, occurrence) !! MeantIn(n, |positions|, occurrence);
    }
  }

  /** It may mean this occurrence and no other. */
  ghost predicate MeansOnly(word: WordClass, texts: seq<DialogueTurn>, phrase: string, sequence: Option<int>, occurrence: Option<int>, i: nat, k: nat) {
    && MayMean(word, texts, phrase, sequence, occurrence, i, k)
    && forall j: nat, l: nat :: MayMean(word, texts, phrase, sequence, occurrence, j, l) ==> j == i && l == k
  }

  lemma OnlyMeant(word: WordClass, texts: seq<DialogueTurn>, phrase: string, sequence: Option<int>, occurrence: Option<int>, i: nat, k: nat)
    ensures MeansOnly(word, texts, phrase, sequence, occurrence, i, k) <==> Meant(word, texts, phrase, sequence, occurrence) == {(i, k)}
  {
    var meant := Meant(word, texts, phrase, sequence, occurrence);
    forall j: nat, l: nat ensures (j, l) in meant <==> MayMean(word, texts, phrase, sequence, occurrence, j, l) {
      MeantAre(word, texts, phrase, sequence, occurrence, j, l);
    }
    if MeansOnly(word, texts, phrase, sequence, occurrence, i, k) {
      forall p | p in meant ensures p == (i, k) { assert (p.0, p.1) in meant; }
    } else if meant == {(i, k)} {
      forall j: nat, l: nat | MayMean(word, texts, phrase, sequence, occurrence, j, l) ensures j == i && l == k { assert (j, l) in meant; }
    }
  }

  lemma NoneMeant(word: WordClass, texts: seq<DialogueTurn>, phrase: string, sequence: Option<int>, occurrence: Option<int>)
    requires occurrence.Some? && occurrence.value < 1
    ensures Meant(word, texts, phrase, sequence, occurrence) == {}
  {
    forall p | p in Meant(word, texts, phrase, sequence, occurrence) ensures false { MeantAre(word, texts, phrase, sequence, occurrence, p.0, p.1); }
  }

  /** A quotation resolves exactly if there is one occurrence that it may mean and no other. */
  lemma ResolvedIff(word: WordClass, transcript: string, phrase: string, turns: seq<DialogueTurn>, sequence: Option<int>, occurrence: Option<int>)
    ensures Resolved(word, transcript, phrase, turns, sequence, occurrence).Some? <==>
      exists i: nat, k: nat :: MeansOnly(word, Texts(transcript, turns), phrase, sequence, occurrence, i, k)
  {
    var texts := Texts(transcript, turns);
    var meant := Meant(word, texts, phrase, sequence, occurrence);
    MatchesCount(word, texts, phrase, sequence, occurrence);
    if occurrence.Some? && occurrence.value < 1 { NoneMeant(word, texts, phrase, sequence, occurrence); }
    if |meant| == 1 {
      OnlyOne(meant);
      var p :| meant == {p};
      OnlyMeant(word, texts, phrase, sequence, occurrence, p.0, p.1);
    }
    if i: nat, k: nat :| MeansOnly(word, texts, phrase, sequence, occurrence, i, k) {
      OnlyMeant(word, texts, phrase, sequence, occurrence, i, k);
    }
  }

  lemma OnlyOne<T>(s: set<T>)
    requires |s| == 1
    ensures exists x :: s == {x}
  {
    var x :| x in s;
    assert |s - {x}| == 0;
    assert s == {x};
  }

  lemma {:induction false} OneOccurrence(turn: DialogueTurn, phrase: string, positions: seq<nat>, k: int)
    requires k >= 1
    ensures SpansAt(turn, phrase, positions, Some(k))
      == if k <= |positions| then [SpanAt(turn.answer, phrase, positions[k - 1], turn.sequence)] else []
  {
    if positions != [] { OneOccurrence(turn, phrase, positions[..|positions| - 1], k); }
  }

  /** With an occurrence number and one answer, the span is that of the k-th occurrence. */
  lemma ResolvedOccurrence(word: WordClass, text: string, phrase: string, k: int)
    ensures
      var positions := Positions(word, text, phrase);
      Resolved(word, text, phrase, [], None, Some(k))
        == if 1 <= k <= |positions| then Some(SpanAt(text, phrase, positions[k - 1], 0)) else None
  {
    if k >= 1 {
      var turn := DialogueTurn(0, "", text);
      var positions := Positions(word, text, phrase);
      OneOccurrence(turn, phrase, positions, k);
      assert [turn][..0] == [];
      assert Matches(word, [], phrase, None, Some(k)) == [];
      assert Matches(word, [turn], phrase, None, Some(k)) == SpansAt(turn, phrase, positions, Some(k));
    }
  }

  /** So the resolved span, filed under any turn, is the span of that occurrence and quotes it. */
  lemma ResolvedIsOccurrence(word: WordClass, text: string, phrase: string, k: int, turn: int)
    requires Resolved(word, text, phrase, [], None, Some(k)).Some?
    ensures
      var positions := Positions(word, text, phrase);
      && 1 <= k <= |positions| && phrase != "" && OccursAt(text, phrase, positions[k - 1])
      && Resolved(word, text, phrase, [], None, Some(k)).value.(turn := turn) == SpanAt(text, phrase, positions[k - 1], turn)
      && Quotes(text, SpanAt(text, phrase, positions[k - 1], turn), phrase)
  {
    ResolvedOccurrence(word, text, phrase, k);
    PositionOccurs(word, text, phrase, k - 1);
    SpanQuotes(text, phrase, Positions(word, text, phrase)[k - 1], turn);
  }
}
