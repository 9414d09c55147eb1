/** Cutting a practice sentence around a correction (`internal/recording/feedback_practice.go`).

    Texts are sequences of code points.  The Unicode classes are parameters. */
module FeedbackPractice {
  import opened Prelude
  import opened Text
  import opened Timeline
  import opened FeedbackSpan

  const WINDOW := 796
  const PRACTICE_LIMIT := 800

  datatype Classes = Classes(word: char -> bool, letter: char -> bool, upper: char -> bool)

  datatype Kind = Blocker | Praise | NativeTip

  datatype Focus = Focus(kind: Kind, original: string, occurrence: int, span: Option<Span>, corrected: string, practiceText: string)

  /** Which recording is played: the item's own, or one identified by the item, the shown text and
      the span. */
  datatype Audio = OwnAudio | ContextAudio(text: string)

  datatype Context = Context(originalText: string, correctedText: string, audio: Audio)

  // ---- Sentence boundaries ------------------------------------------------------------

  predicate Closing(c: char) { c in {'"', '\'', '\U{201D}', '\U{2019}', ')'} }

  function AfterClosing(chars: string, index: nat): (next: nat)
    requires index <= |chars|
    ensures index <= next <= |chars|
    ensures (forall i :: index <= i < next ==> Closing(chars[i])) && (next < |chars| ==> !Closing(chars[next]))
    decreases |chars| - index
  {
    if index < |chars| && Closing(chars[index]) then AfterClosing(chars, index + 1) else index
  }

  function WordStart(letter: char -> bool, chars: string, index: nat): (start: nat)
    requires index <= |chars|
    ensures start <= index && forall i :: start <= i < index ==> letter(chars[i]) || chars[i] == '.'
  {
    if index > 0 && (letter(chars[index - 1]) || chars[index - 1] == '.') then WordStart(letter, chars, index - 1) else index
  }

  function Lower(word: string): string {
    if word == "" then "" else [if 'A' <= word[0] <= 'Z' then (word[0] as int + 32) as char else word[0]] + Lower(word[1..])
  }

  const ABBREVIATIONS: set<string> := {"mr", "mrs", "ms", "dr", "prof", "sr", "jr", "e.g", "i.e", "vs"}

  predicate Boundary(classes: Classes, chars: string, index: nat)
    requires index < |chars|
  {
    var r := chars[index];
    if r == '\n' || r == '\r' then true
    else if r !in {'.', '!', '?'} then false
    else
      var next := AfterClosing(chars, index + 1);
      if next < |chars| && !IsSpace(chars[next]) then false
      else if r != '.' then true
      else
        var start := WordStart(classes.letter, chars, index);
        Lower(chars[start..index]) !in ABBREVIATIONS && (index - start != 1 || !classes.upper(chars[start]))
  }

  // ---- Where a sentence ends ----------------------------------------------------------

  /** Nothing but closing quotes and brackets stands between the mark and the next white space or
      the end of the text. */
  predicate ClosesAt(chars: string, index: nat) {
    exists next :: index < next <= |chars|
      && (forall i :: index < i < next ==> chars[i] in {'"', '\'', '\U{201D}', '\U{2019}', ')'}) && (next == |chars| || IsSpace(chars[next]))
  }

  /** The longest run of letters and full stops in front of the mark begins at `start`. */
  predicate RunBefore(letter: char -> bool, chars: string, start: nat, index: nat) {
    && start <= index < |chars| && (forall i :: start <= i < index ==> letter(chars[i]) || chars[i] == '.')
    && (start > 0 ==> !letter(chars[start - 1]) && chars[start - 1] != '.')
  }

  /** The word is the given one of small letters, with any of its letters written large. */
  predicate Spells(word: string, small: string) {
    |word| == |small| && forall i :: 0 <= i < |word| ==>
      word[i] == small[i] || ('a' <= small[i] <= 'z' && 'A' <= word[i] <= 'Z' && word[i] - 'A' == small[i] - 'a')
  }

  predicate Abbreviated(word: string) {
    || Spells(word, "mr") || Spells(word, "mrs") || Spells(word, "ms") || Spells(word, "dr") || Spells(word, "prof")
    || Spells(word, "sr") || Spells(word, "jr") || Spells(word, "e.g") || Spells(word, "i.e") || Spells(word, "vs")
  }

  /** A line break ends a sentence and so does an exclamation or question mark that closes; a full
      stop that closes does unless an abbreviation or a single capital letter stands before it; a
      mark with anything else behind it ("3.14") ends none, and no other character does. */
  ghost predicate EndsSentence(classes: Classes, chars: string, index: nat, ends: bool)
    requires index < |chars|
  {
    && (chars[index] in {'\n', '\r'} ==> ends)
    && (chars[index] !in {'\n', '\r', '.', '!', '?'} ==> !ends)
    && (chars[index] in {'!', '?'} ==> (ends <==> ClosesAt(chars, index)))
    && (chars[index] == '.' && !ClosesAt(chars, index) ==> !ends)
    && forall start: nat :: chars[index] == '.' && ClosesAt(chars, index) && RunBefore(classes.letter, chars, start, index) ==>
         (ends <==> !Abbreviated(chars[start..index]) && !(index - start == 1 && classes.upper(chars[start])))
  }

  lemma {:induction false} LowerSpells(word: string, small: string)
    requires forall i :: 0 <= i < |small| ==> !('A' <= small[i] <= 'Z')
    ensures Lower(word) == small <==> Spells(word, small)
  {
    if word != "" && small != "" {
      LowerSpells(word[1..], small[1..]);
      SpellsSplit(word, small);
      var c := if 'A' <= word[0] <= 'Z' then (word[0] as int + 32) as char else word[0];
      SameHeadAndTail(c, Lower(word[1..]), small[0], small[1..]);
      assert small == [small[0]] + small[1..];
    }
  }

  lemma SameHeadAndTail(a: char, x: string, b: char, y: string)
    ensures [a] + x == [b] + y <==> a == b && x == y
  {
    if [a] + x == [b] + y {
      assert ([a] + x)[0] == ([b] + y)[0] && ([a] + x)[1..] == ([b] + y)[1..];
    }
  }

  lemma SpellsSplit(word: string, small: string)
    requires word != "" && small != ""
    ensures Spells(word, small) <==> Spells(word[..1], small[..1]) && Spells(word[1..], small[1..])
  {
    if Spells(word[..1], small[..1]) && Spells(word[1..], small[1..]) {
      forall i | 0 <= i < |word|
        ensures word[i] == small[i] || ('a' <= small[i] <= 'z' && 'A' <= word[i] <= 'Z' && word[i] - 'A' == small[i] - 'a')
      {
        if i == 0 {
          assert word[..1][0] == word[0] && small[..1][0] == small[0];
        } else {
          assert word[1..][i - 1] == word[i] && small[1..][i - 1] == small[i];
        }
      }
    }
  }

  lemma AbbreviationsAre(word: string)
    ensures Lower(word) in ABBREVIATIONS <==> Abbreviated(word)
  {
    LowerSpells(word, "mr");
    LowerSpells(word, "mrs");
    LowerSpells(word, "ms");
    LowerSpells(word, "dr");
    LowerSpells(word, "prof");
    LowerSpells(word, "sr");
    LowerSpells(word, "jr");
    LowerSpells(word, "e.g");
    LowerSpells(word, "i.e");
    LowerSpells(word, "vs");
  }

  lemma ClosesIff(chars: string, index: nat)
    requires index < |chars|
    ensures ClosesAt(chars, index) <==> var next := AfterClosing(chars, index + 1); next == |chars| || IsSpace(chars[next])
  {
    var after := AfterClosing(chars, index + 1);
    if ClosesAt(chars, index) {
      var next :| index < next <= |chars|
        && (forall i :: index < i < next ==> chars[i] in {'"', '\'', '\U{201D}', '\U{2019}', ')'}) && (next == |chars| || IsSpace(chars[next]));
      if next < after {
        assert false;
      } else if after < next {
        assert false;
      }
    }
  }

  lemma {:induction false} WordStartIs(letter: char -> bool, chars: string, index: nat, start: nat)
    requires index <= |chars| && start <= index && forall i :: start <= i < index ==> letter(chars[i]) || chars[i] == '.'
    requires start > 0 ==> !letter(chars[start - 1]) && chars[start - 1] != '.'
    ensures WordStart(letter, chars, index) == start
  {
    if start < index { WordStartIs(letter, chars, index - 1, start); }
  }

  lemma BoundaryEndsSentence(classes: Classes, chars: string, index: nat)
    requires index < |chars|
    ensures EndsSentence(classes, chars, index, Boundary(classes, chars, index))
  {
    ClosesIff(chars, index);
    forall start: nat | chars[index] == '.' && ClosesAt(chars, index) && RunBefore(classes.letter, chars, start, index)
      ensures Boundary(classes, chars, index) <==>
        !Abbreviated(chars[start..index]) && !(index - start == 1 && classes.upper(chars[start]))
    {
      WordStartIs(classes.letter, chars, index, start);
      AbbreviationsAre(chars[start..index]);
    }
  }

  method PracticeSentenceBoundary(classes: Classes, chars: string, index: nat) returns (boundary: bool)
    requires index < |chars|
    ensures boundary == Boundary(classes, chars, index)
    ensures EndsSentence(classes, chars, index, boundary)
  {
    BoundaryEndsSentence(classes, chars, index);
    var r := chars[index];
    if r == '\n' || r == '\r' {
      return true;
    }
    if r != '.' && r != '!' && r != '?' {
      return false;
    }
    var next := index + 1;
    while next < |chars| && Closing(chars[next])
      invariant index < next <= |chars| && AfterClosing(chars, next) == AfterClosing(chars, index + 1)
    {
      next := next + 1;
    }
    if next < |chars| && !IsSpace(chars[next]) {
      return false;
    }
    if r != '.' {
      return true;
    }
    var wordStart := index;
    while wordStart > 0 && (classes.letter(chars[wordStart - 1]) || chars[wordStart - 1] == '.')
      invariant wordStart <= index && WordStart(classes.letter, chars, wordStart) == WordStart(classes.letter, chars, index)
      decreases wordStart
    {
      wordStart := wordStart - 1;
    }
    if Lower(chars[wordStart..index]) in ABBREVIATIONS {
      return false;
    }
    return index - wordStart != 1 || !classes.upper(chars[wordStart]);
  }

  // ---- The window ---------------------------------------------------------------------

  /** The sentence around `[start, end)`: from behind the boundary before it up to and including
      the boundary after it and the closing quotes that follow. */
  predicate SentenceLeft(classes: Classes, chars: string, start: nat, left: nat)
    requires start <= |chars|
  {
    && left <= start && (left > 0 ==> Boundary(classes, chars, left - 1))
    && forall i :: left <= i < start ==> !Boundary(classes, chars, i)
  }

  predicate SentenceRight(classes: Classes, chars: string, end: nat, right: nat)
    requires end <= |chars|
  {
    && end <= right <= |chars|
    && (|| (right == |chars| && forall i :: end <= i < |chars| ==> !Boundary(classes, chars, i))
        || exists b :: end <= b < right && Boundary(classes, chars, b) && (forall i :: end <= i < b ==> !Boundary(classes, chars, i))
                       && right == AfterClosing(chars, b + 1))
  }

  method FindLeft(classes: Classes, chars: string, start: nat) returns (left: nat)
    requires start <= |chars|
    ensures SentenceLeft(classes, chars, start, left)
  {
    left := start;
    while left > 0
      invariant left <= start && forall i :: left <= i < start ==> !Boundary(classes, chars, i)
      decreases left
    {
      var boundary := PracticeSentenceBoundary(classes, chars, left - 1);
      if boundary {
        break;
      }
      left := left - 1;
    }
  }

  method FindRight(classes: Classes, chars: string, end: nat) returns (right: nat)
    requires end <= |chars|
    ensures SentenceRight(classes, chars, end, right)
    ensures right < |chars| ==> chars[right] !in {'"', '\'', '\U{201D}', '\U{2019}', ')'}
  {
    right := end;
    while right < |chars|
      invariant end <= right <= |chars| && forall i :: end <= i < right ==> !Boundary(classes, chars, i)
      decreases |chars| - right
    {
      var boundary := PracticeSentenceBoundary(classes, chars, right);
      right := right + 1;
      if boundary {
        ghost var b := right - 1;
        // Closing quotes and brackets belong to the sentence they close.
        while right < |chars| && Closing(chars[right])
          invariant b < right <= |chars| && AfterClosing(chars, right) == AfterClosing(chars, b + 1)
        {
          right := right + 1;
        }
        assert Boundary(classes, chars, b);
        return;
      }
    }
  }

  function Max(a: int, b: int): int { if a < b then b else a }

  function Min(a: int, b: int): int { if a < b then a else b }

  /** How much of the sentence may stay, so that the corrected text fits as well. */
  function Budget(start: nat, end: nat, corrected: string): int { Min(WINDOW, WINDOW - |corrected| + end - start) }

  /** Where a window of `budget` characters with the fragment in its middle ends, if the
      sentence reaches that far, and where it begins. */
  function RawRight(start: nat, end: nat, sentenceLeft: nat, sentenceRight: nat, budget: int): int {
    Min(sentenceRight, Max(sentenceLeft, start - (budget - (end - start)) / 2) + budget)
  }

  function RawLeft(start: nat, end: nat, sentenceLeft: nat, sentenceRight: nat, budget: int): int {
    Max(sentenceLeft, RawRight(start, end, sentenceLeft, sentenceRight, budget) - budget)
  }

  /** A window that does not take the whole sentence uses up its budget, and it has the fragment in
      its middle unless it reaches an end of the sentence. */
  lemma RawWindowIsCentred(start: nat, end: nat, sentenceLeft: nat, sentenceRight: nat, budget: int)
    requires sentenceLeft <= start <= end <= sentenceRight && end - start <= budget < sentenceRight - sentenceLeft
    ensures
      var left := RawLeft(start, end, sentenceLeft, sentenceRight, budget);
      var right := RawRight(start, end, sentenceLeft, sentenceRight, budget);
      && sentenceLeft <= left <= start && end <= right <= sentenceRight && right - left == budget
      && (left == sentenceLeft || right == sentenceRight || 0 <= (right - end) - (start - left) <= 1)
  {
  }

  predicate InWord(chars: string, k: int) { 0 <= k < |chars| && !IsSpace(chars[k]) }

  /** The edges of the window: the whole sentence if it fits, and otherwise each edge of the
      centred window moved towards the fragment, but not into it, past the word it would cut. */
  predicate Clipped(chars: string, start: nat, end: nat, sentenceLeft: nat, sentenceRight: nat, budget: int, left: nat, right: nat)
  {
    if sentenceRight - sentenceLeft <= budget then left == sentenceLeft && right == sentenceRight
    else
      var rawLeft, rawRight := RawLeft(start, end, sentenceLeft, sentenceRight, budget), RawRight(start, end, sentenceLeft, sentenceRight, budget);
      && rawLeft <= left <= start && end <= right <= rawRight
      && (left == start || !InWord(chars, left - 1)) && (forall k :: rawLeft - 1 <= k < left - 1 ==> InWord(chars, k))
      && (right == end || !InWord(chars, right)) && (forall k :: right < k <= rawRight ==> InWord(chars, k))
  }

  method Clip(chars: string, start: nat, end: nat, sentenceLeft: nat, sentenceRight: nat, budget: int) returns (left: nat, right: nat)
    requires sentenceLeft <= start <= end <= sentenceRight <= |chars|
    requires budget >= end - start
    ensures sentenceLeft <= left <= start && end <= right <= sentenceRight && right - left <= budget
    ensures Clipped(chars, start, end, sentenceLeft, sentenceRight, budget, left, right)
    // a sentence that fits is not clipped, and a clipped one is clipped between two words or at the fragment
    ensures sentenceRight - sentenceLeft <= budget ==> left == sentenceLeft && right == sentenceRight
    ensures sentenceLeft < left < start ==> IsSpace(chars[left - 1])
    ensures end < right < sentenceRight ==> IsSpace(chars[right])
  {
    left, right := sentenceLeft, sentenceRight;
    if right - left > budget {
      left := Max(left, start - (budget - (end - start)) / 2);
      right := Min(right, left + budget);
      left := Max(sentenceLeft, right - budget);
      while left < start && left > 0 && !IsSpace(chars[left - 1])
        invariant RawLeft(start, end, sentenceLeft, sentenceRight, budget) <= left <= start && right - left <= budget
        invariant forall k :: RawLeft(start, end, sentenceLeft, sentenceRight, budget) - 1 <= k < left - 1 ==> InWord(chars, k)
        decreases start - left
      {
        left := left + 1;
      }
      while right > end && right < |chars| && !IsSpace(chars[right])
        invariant end <= right <= RawRight(start, end, sentenceLeft, sentenceRight, budget) && right - left <= budget
        invariant forall k :: right < k <= RawRight(start, end, sentenceLeft, sentenceRight, budget) ==> InWord(chars, k)
        decreases right
      {
        right := right - 1;
      }
    }
  }

  // ---- The context --------------------------------------------------------------------

  /** Where the item's quotation stands, if its span still agrees with the text. */
  function Located(classes: Classes, text: string, item: Focus): Option<nat> {
    var positions := Positions(classes.word, text, item.original);
    if item.kind == Praise || item.span.None? || item.occurrence < 1 || TrimSpace(item.corrected) == "" || item.corrected == item.original then None
    else if item.occurrence > |positions| then None
    else
      var at := SpanAt(text, item.original, positions[item.occurrence - 1], item.span.value.turn);
      if item.span.value != at then None else Some(positions[item.occurrence - 1])
  }

  /** A context is given exactly for an item that is located and whose fragments leave room. */
  predicate HasContext(classes: Classes, text: string, item: Focus) {
    var at := Located(classes, text, item);
    at.Some? && Budget(at.value, at.value + |item.original|, item.corrected) >= |item.original|
  }

  lemma HasContextIff(classes: Classes, text: string, item: Focus)
    ensures HasContext(classes, text, item) <==>
      |item.original| <= 796 && |item.corrected| <= 796 && exists at :: LocatedAt(classes, text, item, at)
  {
    var at := Located(classes, text, item);
    if at.Some? { LocatedIff(classes, text, item, at.value); }
    if exists p :: LocatedAt(classes, text, item, p) {
      var p :| LocatedAt(classes, text, item, p);
      LocatedIff(classes, text, item, p);
    }
  }

  function Framed(window: string, clippedLeft: bool, clippedRight: bool): string {
    (if clippedLeft then "\U{2026} " else "") + TrimSpace(window) + if clippedRight then " \U{2026}" else ""
  }

  /** A window into one sentence of the text, around a fragment. */
  datatype Window = Window(sentenceLeft: nat, left: nat, start: nat, end: nat, right: nat, sentenceRight: nat)

  /** The window of the given size in the sentence around the fragment, which it contains whole. */
  predicate IsWindow(classes: Classes, text: string, w: Window, budget: int) {
    && w.sentenceLeft <= w.left <= w.start <= w.end <= w.right <= w.sentenceRight <= |text|
    && SentenceLeft(classes, text, w.start, w.sentenceLeft) && SentenceRight(classes, text, w.end, w.sentenceRight)
    && Clipped(text, w.start, w.end, w.sentenceLeft, w.sentenceRight, budget, w.left, w.right)
  }

  /** The window with the given words in place of the fragment; an ellipsis marks a clipped edge. */
  function Shown(text: string, w: Window, words: string): string
    requires w.sentenceLeft <= w.left <= w.start <= w.end <= w.right <= w.sentenceRight <= |text|
  {
    Framed(text[w.left..w.start] + words + text[w.end..w.right], w.left > w.sentenceLeft, w.right < w.sentenceRight)
  }

  /** When an item is located: it is a correction with a span, its corrected words are not blank and
      differ from the original, and the occurrence it names stands between the UTF-16 offsets of its
      span. */
  predicate LocatedAt(classes: Classes, text: string, item: Focus, at: nat) {
    && Correction(item) && item.occurrence <= |Positions(classes.word, text, item.original)|
    && at == Positions(classes.word, text, item.original)[item.occurrence - 1]
    && Spans(text, at, |item.original|, item.span.value)
  }

  predicate Correction(item: Focus) {
    && item.kind in {Blocker, NativeTip} && item.span.Some? && 1 <= item.occurrence
    && !Blank(item.corrected) && item.corrected != item.original
  }

  predicate Spans(text: string, at: nat, length: nat, span: Span) {
    at + length <= |text| && span.start == |Utf16(text[..at])| && span.end == |Utf16(text[..at + length])|
  }

  lemma CorrectionIff(item: Focus)
    ensures Correction(item) <==>
      !(item.kind == Praise || item.span.None? || item.occurrence < 1 || TrimSpace(item.corrected) == "" || item.corrected == item.original)
  {
    TrimBlank(item.corrected);
  }

  lemma SpanAtIs(text: string, phrase: string, p: nat, span: Span)
    requires p + |phrase| <= |text|
    ensures span == SpanAt(text, phrase, p, span.turn) <==> Spans(text, p, |phrase|, span)
  {
  }

  lemma LocatedIff(classes: Classes, text: string, item: Focus, at: nat)
    ensures Located(classes, text, item) == Some(at) <==> LocatedAt(classes, text, item, at)
  {
    CorrectionIff(item);
    if Correction(item) && item.occurrence <= |Positions(classes.word, text, item.original)| {
      var p := Positions(classes.word, text, item.original)[item.occurrence - 1];
      PositionOccurs(classes.word, text, item.original, item.occurrence - 1);
      SpanAtIs(text, item.original, p, item.span.value);
      assert Located(classes, text, item) == if Spans(text, p, |item.original|, item.span.value) then Some(p) else None;
    }
  }

  /** The item's quotation stands at `start`, and its texts show one window around it. */
  predicate Shows(classes: Classes, text: string, item: Focus, start: nat, w: Window, context: Context) {
    && w.start == start && w.end == start + |item.original|
    && IsWindow(classes, text, w, Budget(w.start, w.end, item.corrected)) && text[w.start..w.end] == item.original
    && context.originalText == Shown(text, w, item.original) && context.correctedText == Shown(text, w, item.corrected)
    && context.audio == if item.practiceText == context.correctedText then OwnAudio else ContextAudio(context.correctedText)
  }

  /** The original is shown as it stands in the text, and corrected with the corrected words in place
      of the quoted ones; the item's own recording is played if it is of the corrected text. */
  lemma ShownReads(classes: Classes, text: string, item: Focus, start: nat, w: Window, context: Context)
    requires Shows(classes, text, item, start, w, context)
    ensures
      var before, behind := if w.sentenceLeft < w.left then "\U{2026} " else "", if w.right < w.sentenceRight then " \U{2026}" else "";
      && context.originalText == before + TrimSpace(text[w.left..w.right]) + behind
      && context.correctedText == before + TrimSpace(text[w.left..start] + item.corrected + text[start + |item.original|..w.right]) + behind
    ensures text[start..start + |item.original|] == item.original
    ensures context.audio.OwnAudio? <==> item.practiceText == context.correctedText
    ensures context.audio.ContextAudio? ==> context.audio.text == context.correctedText
  {
    ThreePieces(text, w.left, w.start, w.end, w.right);
  }

  lemma ThreePieces(text: string, a: nat, b: nat, c: nat, d: nat)
    requires a <= b <= c <= d <= |text|
    ensures text[a..b] + text[b..c] + text[c..d] == text[a..d]
  {
  }

  method Locate(classes: Classes, text: string, item: Focus) returns (at: Option<nat>)
    ensures at == Located(classes, text, item)
    ensures at.Some? ==> OccursAt(text, item.original, at.value) && item.original != ""
  {
    if (item.kind != Blocker && item.kind != NativeTip) || item.span.None? || item.occurrence < 1
       || TrimSpace(item.corrected) == "" || item.corrected == item.original {
      return None;
    }
    var positions := PhrasePositions(classes.word, text, item.original);
    if item.occurrence > |positions| {
      return None;
    }
    var start := positions[item.occurrence - 1];
    PositionOccurs(classes.word, text, item.original, item.occurrence - 1);
    var span := MeasureSpan(DialogueTurn(0, "", text), item.original, start);
    if item.span.value.start != span.start || item.span.value.end != span.end {
      return None;
    }
    return Some(start);
  }

  method FeedbackPracticeContext(classes: Classes, text: string, item: Focus) returns (context: Option<Context>)
    ensures context.Some? <==> HasContext(classes, text, item)
    ensures context.Some? ==> |context.value.originalText| <= PRACTICE_LIMIT && |context.value.correctedText| <= PRACTICE_LIMIT
    ensures context.Some? ==> exists w :: Shows(classes, text, item, Located(classes, text, item).value, w, context.value)
  {
    var at := Locate(classes, text, item);
    if at.None? {
      return None;
    }
    var start := at.value;
    var end := start + |item.original|;
    var budget := Min(WINDOW, WINDOW - |item.corrected| + end - start);
    if budget < end - start {
      return None;
    }
    var w := FindWindow(classes, text, start, end, budget);
    var shown := ShowIn(classes, text, item, w);
    return Some(shown);
  }

  method ShowIn(classes: Classes, text: string, item: Focus, w: Window) returns (context: Context)
    requires w.end == w.start + |item.original| && IsWindow(classes, text, w, Budget(w.start, w.end, item.corrected))
    requires text[w.start..w.end] == item.original && w.right - w.left <= Budget(w.start, w.end, item.corrected)
    ensures Shows(classes, text, item, w.start, w, context)
    ensures |context.originalText| <= PRACTICE_LIMIT && |context.correctedText| <= PRACTICE_LIMIT
  {
    var original := Frame(text[w.left..w.start], item.original, text[w.end..w.right], w.left > w.sentenceLeft, w.right < w.sentenceRight);
    var corrected := Frame(text[w.left..w.start], item.corrected, text[w.end..w.right], w.left > w.sentenceLeft, w.right < w.sentenceRight);
    var audio := ContextAudio(corrected);
    if item.practiceText == corrected {
      audio := OwnAudio;
    }
    return Context(original, corrected, audio);
  }

  method FindWindow(classes: Classes, text: string, start: nat, end: nat, budget: int) returns (w: Window)
    requires start <= end <= |text| && budget >= end - start
    ensures IsWindow(classes, text, w, budget) && w.start == start && w.end == end && w.right - w.left <= budget
  {
    var sentenceLeft := FindLeft(classes, text, start);
    var sentenceRight := FindRight(classes, text, end);
    var left, right := Clip(text, start, end, sentenceLeft, sentenceRight, budget);
    return Window(sentenceLeft, left, start, end, right, sentenceRight);
  }

  method Frame(prefix: string, words: string, suffix: string, clippedLeft: bool, clippedRight: bool) returns (shown: string)
    ensures shown == Framed(prefix + words + suffix, clippedLeft, clippedRight)
    ensures |shown| <= |prefix| + |words| + |suffix| + 4
  {
    shown := TrimSpace(prefix + words + suffix);
    TrimShortens(prefix + words + suffix);
    if clippedLeft {
      shown := "\U{2026} " + shown;
    }
    if clippedRight {
      shown := shown + " \U{2026}";
    }
  }

  lemma {:induction false} TrimShortens(s: string)
    ensures |TrimSpace(s)| <= |s|
  {
    TrimLeftShortens(s);
    TrimRightShortens(TrimLeft(s));
  }

  lemma {:induction false} TrimLeftShortens(s: string)
    ensures |TrimLeft(s)| <= |s|
  {
    if s != "" && IsSpace(s[0]) { TrimLeftShortens(s[1..]); }
  }

  lemma {:induction false} TrimRightShortens(s: string)
    ensures |TrimRight(s)| <= |s|
  {
    if s != "" && IsSpace(s[|s| - 1]) { TrimRightShortens(s[..|s| - 1]); }
  }
}
