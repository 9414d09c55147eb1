/** Finding JSON objects in model output (`internal/aiparse/content.go`). */
module JsonExtract {
  import opened Prelude

  // ---- The scanner --------------------------------------------------------------------

  /** The scan from the left: `current` is the object being read, while `depth` is positive. */
  function Objects(text: string, depth: nat, current: string, inString: bool, escaped: bool): seq<string> {
    if text == "" then []
    else
      var c, rest := text[0], text[1..];
      var longer := if depth > 0 then current + [c] else current;
      if inString then
        (if escaped then Objects(rest, depth, longer, true, false)
         else if c == '\\' then Objects(rest, depth, longer, true, true)
         else Objects(rest, depth, longer, c != '"', false))
      else if c == '"' then Objects(rest, depth, longer, true, false)
      else if c == '{' then Objects(rest, depth + 1, if depth == 0 then "{" else longer, false, false)
      else if c == '}' && depth > 1 then Objects(rest, depth - 1, longer, false, false)
      else if c == '}' && depth == 1 then [longer] + Objects(rest, 0, "", false, false)
      else Objects(rest, depth, longer, false, false)
  }

  method ExtractJsonObjects(value: string) returns (objects: seq<string>)
    ensures objects == Objects(value, 0, "", false, false)
  {
    objects := [];
    var depth: nat := 0;
    var start := -1;
    var inString, escaped := false, false;
    assert value[0..] == value;
    for i := 0 to |value|
      invariant depth > 0 <==> start >= 0
      invariant -1 <= start <= i
      invariant escaped ==> inString
      invariant objects + Objects(value[i..], depth, if start >= 0 then value[start..i] else "", inString, escaped) == Objects(value, 0, "", false, false)
    {
      var c := value[i];
      assert value[i..][1..] == value[i + 1..];
      assert start >= 0 ==> value[start..i] + [c] == value[start..i + 1];
      if inString {
        if escaped {
          escaped := false;
          continue;
        }
        if c == '\\' {
          escaped := true;
          continue;
        }
        if c == '"' {
          inString := false;
        }
        continue;
      }
      if c == '"' {
        inString := true;
        continue;
      }
      if c == '{' {
        if depth == 0 {
          start := i;
          assert value[i..i + 1] == "{";
        }
        depth := depth + 1;
        continue;
      }
      if c == '}' && depth > 0 {
        depth := depth - 1;
        if depth == 0 && start >= 0 {
          objects := objects + [value[start..i + 1]];
          start := -1;
        }
      }
    }
  }

  /** Whatever the text is: what is found begins and ends with a brace. */
  predicate Braced(text: string) { |text| >= 2 && text[0] == '{' && text[|text| - 1] == '}' }

  lemma {:induction false} FoundAreBraced(text: string, depth: nat, current: string, inString: bool, escaped: bool)
    requires depth > 0 ==> current != "" && current[0] == '{'
    ensures forall i :: 0 <= i < |Objects(text, depth, current, inString, escaped)| ==> Braced(Objects(text, depth, current, inString, escaped)[i])
    decreases |text|
  {
    if text != "" {
      var c, rest := text[0], text[1..];
      var longer := if depth > 0 then current + [c] else current;
      if inString {
        FoundAreBraced(rest, depth, longer, true, false);
        FoundAreBraced(rest, depth, longer, true, true);
        FoundAreBraced(rest, depth, longer, c != '"', false);
      } else if c == '"' {
        FoundAreBraced(rest, depth, longer, true, false);
      } else if c == '{' {
        FoundAreBraced(rest, depth + 1, if depth == 0 then "{" else longer, false, false);
      } else if c == '}' && depth > 1 {
        FoundAreBraced(rest, depth - 1, longer, false, false);
      } else if c == '}' && depth == 1 {
        FoundAreBraced(rest, 0, "", false, false);
      } else {
        FoundAreBraced(rest, depth, longer, false, false);
      }
    }
  }

  // ---- Printed JSON -------------------------------------------------------------------

  /** A character of a string: itself, or a backslash with what follows it.  `\u0041` is the
      escape `u` followed by four plain characters. */
  datatype StringChar = Plain(c: char) | Escape(c: char)

  /** A JSON value with the white space it is printed with (sections 2 to 7 of RFC 8259). */
  datatype Value =
    | Scalar(text: string)
    | Text(chars: seq<StringChar>)
    | Array(elements: Elements)
    | Object(members: Members)

  datatype Elements = NoMore(space: string) | Element(before: string, value: Value, after: string, rest: Elements)

  datatype Members =
    | NoMembers(space: string)
    | Member(before: string, key: seq<StringChar>, after: string, gap: string, value: Value, end: string, rest: Members)

  function PrintChars(chars: seq<StringChar>): string {
    if chars == [] then "" else (match chars[0] case Plain(c) => [c] case Escape(c) => ['\\', c]) + PrintChars(chars[1..])
  }

  function Quoted(chars: seq<StringChar>): string { ['"'] + (PrintChars(chars) + ['"']) }

  function Print(value: Value): string {
    match value
    case Scalar(text) => text
    case Text(chars) => Quoted(chars)
    case Array(elements) => "[" + (PrintElements(elements) + "]")
    case Object(members) => "{" + (PrintMembers(members) + "}")
  }

  function PrintElements(elements: Elements): string {
    match elements
    case NoMore(space) => space
    case Element(before, value, after, rest) =>
      before + (Print(value) + (after + ((if rest.Element? then "," else "") + PrintElements(rest))))
  }

  function PrintMembers(members: Members): string {
    match members
    case NoMembers(space) => space
    case Member(before, key, after, gap, value, end, rest) =>
      before + (Quoted(key) + (after + (":" + (gap + (Print(value) + (end + ((if rest.Member? then "," else "") + PrintMembers(rest))))))))
  }

  /** Text that leaves the scanner's state alone: scalars, white space and punctuation. */
  predicate Inert(text: string) { forall i :: 0 <= i < |text| ==> text[i] !in {'"', '{', '}'} }

  predicate CharsOk(chars: seq<StringChar>) { forall i :: 0 <= i < |chars| && chars[i].Plain? ==> chars[i].c !in {'"', '\\'} }

  predicate ValueOk(value: Value) {
    match value
    case Scalar(text) => Inert(text)
    case Text(chars) => CharsOk(chars)
    case Array(elements) => ElementsOk(elements)
    case Object(members) => MembersOk(members)
  }

  predicate ElementsOk(elements: Elements) {
    match elements
    case NoMore(space) => Inert(space)
    case Element(before, value, after, rest) => Inert(before) && ValueOk(value) && Inert(after) && ElementsOk(rest)
  }

  predicate MembersOk(members: Members) {
    match members
    case NoMembers(space) => Inert(space)
    case Member(before, key, after, gap, value, end, rest) =>
      Inert(before) && CharsOk(key) && Inert(after) && Inert(gap) && ValueOk(value) && Inert(end) && MembersOk(rest)
  }

  // ---- Reading back -------------------------------------------------------------------

  /** Inside an object, the scanner passes over a piece of text and ends up as it began. */
  ghost predicate Passes(piece: string) {
    forall next: string, depth: nat, current: string :: depth >= 1 ==>
      Objects(piece + next, depth, current, false, false) == Objects(next, depth, current + piece, false, false)
  }

  lemma {:induction false} InertPasses(piece: string)
    requires Inert(piece)
    ensures Passes(piece)
  {
    forall next: string, depth: nat, current: string | depth >= 1
      ensures Objects(piece + next, depth, current, false, false) == Objects(next, depth, current + piece, false, false)
    {
      if piece == "" {
        assert piece + next == next && current + piece == current;
      } else {
        assert (piece + next)[1..] == piece[1..] + next;
        InertPasses(piece[1..]);
        assert (current + [piece[0]]) + piece[1..] == current + piece;
      }
    }
  }

  lemma PassesAppend(a: string, b: string)
    requires Passes(a) && Passes(b)
    ensures Passes(a + b)
  {
    forall next: string, depth: nat, current: string | depth >= 1
      ensures Objects(a + b + next, depth, current, false, false) == Objects(next, depth, current + (a + b), false, false)
    {
      assert a + b + next == a + (b + next);
      assert Objects(a + (b + next), depth, current, false, false) == Objects(b + next, depth, current + a, false, false);
      assert current + a + b == current + (a + b);
    }
  }

  lemma {:induction false} CharsPass(chars: seq<StringChar>, next: string, depth: nat, current: string)
    requires CharsOk(chars) && depth >= 1
    ensures Objects(PrintChars(chars) + (['"'] + next), depth, current, true, false)
      == Objects(next, depth, current + (PrintChars(chars) + ['"']), false, false)
    decreases |chars|
  {
    var tail := ['"'] + next;
    var text := PrintChars(chars) + tail;
    if chars == [] {
      assert text == tail && tail[1..] == next && PrintChars(chars) + ['"'] == ['"'];
      assert Objects(tail, depth, current, true, false) == Objects(next, depth, current + ['"'], false, false);
    } else {
      var head := if chars[0].Plain? then [chars[0].c] else ['\\', chars[0].c];
      var rest := PrintChars(chars[1..]);
      assert text == head + (rest + tail);
      CharPasses(chars[0], rest + tail, depth, current);
      CharsPass(chars[1..], next, depth, current + head);
      assert (current + head) + (rest + ['"']) == current + (PrintChars(chars) + ['"']);
    }
  }

  lemma CharPasses(c: StringChar, after: string, depth: nat, current: string)
    requires (c.Plain? ==> c.c !in {'"', '\\'}) && depth >= 1
    ensures
      var head := if c.Plain? then [c.c] else ['\\', c.c];
      Objects(head + after, depth, current, true, false) == Objects(after, depth, current + head, true, false)
  {
    if c.Plain? {
      assert ([c.c] + after)[1..] == after;
    } else {
      var text := ['\\', c.c] + after;
      assert text[1..] == [c.c] + after && text[1..][1..] == after;
      assert (current + ['\\']) + [c.c] == current + ['\\', c.c];
    }
  }

  lemma QuotedPasses(chars: seq<StringChar>)
    requires CharsOk(chars)
    ensures Passes(Quoted(chars))
  {
    forall next: string, depth: nat, current: string | depth >= 1
      ensures Objects(Quoted(chars) + next, depth, current, false, false) == Objects(next, depth, current + Quoted(chars), false, false)
    {
      var tail := PrintChars(chars) + (['"'] + next);
      assert Quoted(chars) + next == ['"'] + tail && (['"'] + tail)[1..] == tail;
      CharsPass(chars, next, depth, current + ['"']);
      assert (current + ['"']) + (PrintChars(chars) + ['"']) == current + Quoted(chars);
    }
  }

  lemma BracesPass(inner: string)
    requires Passes(inner)
    ensures Passes("{" + (inner + "}"))
  {
    forall next: string, depth: nat, current: string | depth >= 1
      ensures Objects("{" + (inner + "}") + next, depth, current, false, false) == Objects(next, depth, current + ("{" + (inner + "}")), false, false)
    {
      OpenBrace(inner + ("}" + next), depth, current);
      assert "{" + (inner + "}") + next == "{" + (inner + ("}" + next));
      assert Objects(inner + ("}" + next), depth + 1, current + "{", false, false) == Objects("}" + next, depth + 1, current + "{" + inner, false, false);
      CloseBrace(next, depth + 1, current + "{" + inner);
      assert current + "{" + inner + "}" == current + ("{" + (inner + "}"));
    }
  }

  lemma OpenBrace(after: string, depth: nat, current: string)
    ensures Objects("{" + after, depth, current, false, false) == Objects(after, depth + 1, if depth == 0 then "{" else current + "{", false, false)
  {
    assert ("{" + after)[1..] == after;
  }

  lemma CloseBrace(after: string, depth: nat, current: string)
    requires depth >= 1
    ensures Objects("}" + after, depth, current, false, false)
      == if depth == 1 then [current + "}"] + Objects(after, 0, "", false, false) else Objects(after, depth - 1, current + "}", false, false)
  {
    assert ("}" + after)[1..] == after;
  }

  lemma {:induction false} ValuePasses(value: Value)
    requires ValueOk(value)
    ensures Passes(Print(value))
  {
    match value
    case Scalar(text) => InertPasses(text);
    case Text(chars) => QuotedPasses(chars);
    case Array(elements) =>
      ElementsPass(elements);
      InertPasses("[");
      InertPasses("]");
      PassesAppend(PrintElements(elements), "]");
      PassesAppend("[", PrintElements(elements) + "]");
    case Object(members) =>
      MembersPass(members);
      BracesPass(PrintMembers(members));
  }

  lemma {:induction false} ElementsPass(elements: Elements)
    requires ElementsOk(elements)
    ensures Passes(PrintElements(elements))
  {
    match elements
    case NoMore(space) => InertPasses(space);
    case Element(before, value, after, rest) =>
      var comma := if rest.Element? then "," else "";
      ValuePasses(value);
      ElementsPass(rest);
      InertPasses(comma);
      InertPasses(after);
      InertPasses(before);
      PassesAppend(comma, PrintElements(rest));
      PassesAppend(after, comma + PrintElements(rest));
      PassesAppend(Print(value), after + (comma + PrintElements(rest)));
      PassesAppend(before, Print(value) + (after + (comma + PrintElements(rest))));
  }

  lemma {:induction false} MembersPass(members: Members)
    requires MembersOk(members)
    ensures Passes(PrintMembers(members))
  {
    match members
    case NoMembers(space) => InertPasses(space);
    case Member(before, key, after, gap, value, end, rest) =>
      var comma := if rest.Member? then "," else "";
      ValuePasses(value);
      MembersPass(rest);
      QuotedPasses(key);
      InertPasses(comma);
      InertPasses(":");
      InertPasses(before);
      InertPasses(after);
      InertPasses(gap);
      InertPasses(end);
      var t1 := comma + PrintMembers(rest);
      PassesAppend(comma, PrintMembers(rest));
      PassesAppend(end, t1);
      PassesAppend(Print(value), end + t1);
      PassesAppend(gap, Print(value) + (end + t1));
      PassesAppend(":", gap + (Print(value) + (end + t1)));
      PassesAppend(after, ":" + (gap + (Print(value) + (end + t1))));
      PassesAppend(Quoted(key), after + (":" + (gap + (Print(value) + (end + t1)))));
      PassesAppend(before, Quoted(key) + (after + (":" + (gap + (Print(value) + (end + t1))))));
  }

  // ---- Objects between other text -----------------------------------------------------

  /** Text between objects: anything without a quote or an opening brace. */
  predicate Between(text: string) { forall i :: 0 <= i < |text| ==> text[i] !in {'"', '{'} }

  function Interleaved(gaps: seq<string>, objects: seq<Value>): string
    requires |gaps| == |objects| + 1
  {
    if objects == [] then gaps[0] else gaps[0] + (Print(objects[0]) + Interleaved(gaps[1..], objects[1..]))
  }

  function PrintedAll(objects: seq<Value>): seq<string> { if objects == [] then [] else [Print(objects[0])] + PrintedAll(objects[1..]) }

  lemma {:induction false} GapIsSkipped(gap: string, next: string)
    requires Between(gap)
    ensures Objects(gap + next, 0, "", false, false) == Objects(next, 0, "", false, false)
  {
    if gap == "" {
      assert gap + next == next;
    } else {
      assert (gap + next)[1..] == gap[1..] + next;
      GapIsSkipped(gap[1..], next);
    }
  }

  lemma ObjectIsFound(found: Value, next: string)
    requires found.Object? && ValueOk(found)
    ensures Objects(Print(found) + next, 0, "", false, false) == [Print(found)] + Objects(next, 0, "", false, false)
  {
    var inner := PrintMembers(found.members);
    MembersPass(found.members);
    assert Print(found) + next == "{" + (inner + ("}" + next));
    OpenBrace(inner + ("}" + next), 0, "");
    assert Objects(inner + ("}" + next), 1, "{", false, false) == Objects("}" + next, 1, "{" + inner, false, false);
    CloseBrace(next, 1, "{" + inner);
    assert "{" + inner + "}" == Print(found);
  }

  /** Extraction undoes printing: whatever escapes, nesting and white space the objects contain,
      exactly they are found, in order. */
  lemma {:induction false} ExtractionUndoesPrinting(gaps: seq<string>, objects: seq<Value>)
    requires |gaps| == |objects| + 1 && forall i :: 0 <= i < |gaps| ==> Between(gaps[i])
    requires forall i :: 0 <= i < |objects| ==> objects[i].Object? && ValueOk(objects[i])
    ensures Objects(Interleaved(gaps, objects), 0, "", false, false) == PrintedAll(objects)
    decreases |objects|
  {
    if objects == [] {
      GapIsSkipped(gaps[0], "");
      assert gaps[0] + "" == gaps[0];
    } else {
      var rest := Interleaved(gaps[1..], objects[1..]);
      GapIsSkipped(gaps[0], Print(objects[0]) + rest);
      ObjectIsFound(objects[0], rest);
      ExtractionUndoesPrinting(gaps[1..], objects[1..]);
    }
  }

  // ---- Thinking blocks ----------------------------------------------------------------

  function LowerChar(c: char): char { if 'A' <= c <= 'Z' then (c as int + 32) as char else c }

  function Lower(text: string): (lower: string)
    ensures |lower| == |text| && forall i :: 0 <= i < |text| ==> lower[i] == LowerChar(text[i])
  {
    seq(|text|, i requires 0 <= i < |text| => LowerChar(text[i]))
  }

  predicate At(text: string, tag: string, i: int) { 0 <= i && i + |tag| <= |text| && text[i..i + |tag|] == tag }

  /** `strings.Index` from a position on, with -1 for no occurrence. */
  function First(text: string, tag: string, from: nat): (at: int)
    ensures at == -1 || (from <= at && At(text, tag, at))
    decreases |text| - from
  {
    if from + |tag| > |text| then -1 else if At(text, tag, from) then from else First(text, tag, from + 1)
  }

  method Index(text: string, tag: string) returns (at: int)
    ensures at == First(text, tag, 0)
  {
    at := 0;
    while at + |tag| <= |text|
      invariant 0 <= at && First(text, tag, 0) == First(text, tag, at)
    {
      if text[at..at + |tag|] == tag {
        return;
      }
      at := at + 1;
    }
    at := -1;
  }

  /** One block less, from the first opening to the first closing tag. */
  function Removed(text: string, open: string, close: string): (shorter: Option<string>)
    requires |close| > 1
    ensures shorter.Some? ==> |shorter.value| < |text|
  {
    var start, end := First(Lower(text), open, 0), First(Lower(text), close, 0);
    if start < 0 || end < start then None else Some(text[..start] + " " + text[end + |close|..])
  }

  /** What is left when every block from the first opening to the first closing tag is a space. */
  function Stripped(text: string, open: string, close: string): string
    requires |close| > 1
    decreases |text|
  {
    match Removed(text, open, close)
    case None => text
    case Some(shorter) => Stripped(shorter, open, close)
  }

  lemma StrippedStep(text: string, shorter: string, open: string, close: string)
    requires |close| > 1 && Removed(text, open, close) == Some(shorter)
    ensures Stripped(text, open, close) == Stripped(shorter, open, close)
  {
  }

  method StripBlocks(value: string, open: string, close: string) returns (out: string)
    requires |close| > 1
    ensures out == Stripped(value, open, close)
  {
    out := value;
    while true
      invariant Stripped(out, open, close) == Stripped(value, open, close)
      decreases |out|
    {
      var shorter := RemoveBlock(out, open, close);
      if shorter.None? {
        return;
      }
      StrippedStep(out, shorter.value, open, close);
      out := shorter.value;
    }
  }

  /** The body of the loop. */
  method RemoveBlock(text: string, open: string, close: string) returns (shorter: Option<string>)
    requires |close| > 1
    ensures shorter == Removed(text, open, close)
  {
    var lower := Lower(text);
    var start := Index(lower, open);
    var end := Index(lower, close);
    if start < 0 || end < start {
      return None;
    }
    return Some(text[..start] + " " + text[end + |close|..]);
  }

  method StripThinkingBlocks(value: string) returns (out: string)
    ensures out == Stripped(Stripped(value, "<think>", "</think>"), "<thinking>", "</thinking>")
  {
    out := StripBlocks(value, "<think>", "</think>");
    out := StripBlocks(out, "<thinking>", "</thinking>");
  }

  /** Nothing is left to remove: the first closing tag, if any, comes before the first opening one. */
  ghost predicate Settled(text: string, open: string, close: string) {
    || (forall i :: !At(Lower(text), open, i))
    || (forall i :: !At(Lower(text), close, i))
    || exists c :: At(Lower(text), close, c) && forall i :: At(Lower(text), open, i) ==> c < i
  }

  lemma {:induction false} FirstSkips(text: string, tag: string, from: nat, at: nat)
    requires from <= at && forall i :: from <= i < at ==> !At(text, tag, i)
    ensures First(text, tag, from) == First(text, tag, at)
    decreases at - from
  {
    if from < at && from + |tag| <= |text| { FirstSkips(text, tag, from + 1, at); }
  }

  lemma {:induction false} FirstIsFirst(text: string, tag: string, from: nat, i: nat)
    requires from <= i && At(text, tag, i)
    ensures from <= First(text, tag, from) <= i
    decreases i - from
  {
    if !At(text, tag, from) { FirstIsFirst(text, tag, from + 1, i); }
  }

  lemma StopsIffSettled(text: string, open: string, close: string)
    requires |close| > 1
    ensures Removed(text, open, close).None? <==> Settled(text, open, close)
  {
    var lower := Lower(text);
    var start, end := First(lower, open, 0), First(lower, close, 0);
    forall i: nat | At(lower, open, i) ensures 0 <= start <= i { FirstIsFirst(lower, open, 0, i); }
    forall i: nat | At(lower, close, i) ensures 0 <= end <= i { FirstIsFirst(lower, close, 0, i); }
  }

  lemma {:induction false} StrippedStops(text: string, open: string, close: string)
    requires |close| > 1
    ensures Removed(Stripped(text, open, close), open, close).None?
    decreases |text|
  {
    var shorter := Removed(text, open, close);
    if shorter.Some? { StrippedStops(shorter.value, open, close); }
  }

  /** Stripping runs to the end, and leaves a text alone in which there is nothing to remove. */
  lemma StrippedIsSettled(text: string, open: string, close: string)
    requires |close| > 1
    ensures Settled(Stripped(text, open, close), open, close)
    ensures Settled(text, open, close) ==> Stripped(text, open, close) == text
  {
    StrippedStops(text, open, close);
    StopsIffSettled(Stripped(text, open, close), open, close);
    StopsIffSettled(text, open, close);
  }

  /** A block and the text behind it, with the tags in any mixture of cases. */
  datatype Block = Block(open: string, body: string, close: string, after: string)

  predicate NoTag(text: string) { forall i :: 0 <= i < |text| ==> text[i] != '<' }

  /** An opening and a closing tag that cannot be mistaken for each other. */
  predicate TagPair(open: string, close: string) {
    |open| > 1 && |close| > 1 && open[0] == close[0] == '<' && open[1] != close[1] && NoTag(open[1..]) && NoTag(close[1..])
  }

  predicate BlocksOk(blocks: seq<Block>, open: string, close: string) {
    forall i :: 0 <= i < |blocks| ==> BlockOk(blocks[i], open, close)
  }

  function Marked(blocks: seq<Block>): string {
    if blocks == [] then "" else blocks[0].open + (blocks[0].body + (blocks[0].close + (blocks[0].after + Marked(blocks[1..]))))
  }

  function Unmarked(blocks: seq<Block>): string { if blocks == [] then "" else " " + blocks[0].after + Unmarked(blocks[1..]) }

  lemma LowerSlice(text: string, from: nat, until: nat)
    requires from <= until <= |text|
    ensures Lower(text)[from..until] == Lower(text[from..until])
  {
  }

  lemma FirstIs(text: string, tag: string, at: nat)
    requires at + |tag| <= |text| && Lower(text[at..at + |tag|]) == tag
    requires forall i :: 0 <= i < at ==> !At(Lower(text), tag, i)
    ensures First(Lower(text), tag, 0) == at
  {
    LowerSlice(text, at, at + |tag|);
    FirstSkips(Lower(text), tag, 0, at);
  }

  /** A tag is found only where a '<' stands. */
  lemma NoTagHere(text: string, tag: string, i: nat)
    requires tag != "" && tag[0] == '<' && i < |text| && text[i] != '<'
    ensures !At(Lower(text), tag, i)
  {
    if At(Lower(text), tag, i) {
      SliceHead(Lower(text), i, |tag|);
      assert false;
    }
  }

  lemma SliceHead(text: string, i: nat, n: nat)
    requires i + n <= |text| && n > 0
    ensures text[i..i + n][0] == text[i]
  {
  }

  predicate TagsAround(text: string, gap: string, block: Block, open: string, close: string) {
    && |gap| + |open| + |block.body| + |close| <= |text|
    && text[..|gap|] == gap
    && Lower(text[|gap|..|gap| + |open|]) == open
    && text[|gap| + |open|..|gap| + |open| + |block.body|] == block.body
    && Lower(text[|gap| + |open| + |block.body|..|gap| + |open| + |block.body| + |close|]) == close
  }

  lemma OpensAtGap(text: string, gap: string, block: Block, open: string, close: string)
    requires TagPair(open, close) && NoTag(gap) && TagsAround(text, gap, block, open, close)
    ensures First(Lower(text), open, 0) == |gap|
  {
    forall i | 0 <= i < |gap| ensures !At(Lower(text), open, i) {
      assert text[i] == text[..|gap|][i];
      NoTagHere(text, open, i);
    }
    FirstIs(text, open, |gap|);
  }

  lemma NotClosingYet(text: string, gap: string, block: Block, open: string, close: string, i: nat)
    requires TagPair(open, close) && NoTag(gap) && NoTag(block.body) && TagsAround(text, gap, block, open, close)
    requires i < |gap| + |open| + |block.body| && i != |gap|
    ensures !At(Lower(text), close, i)
  {
    if i < |gap| {
      assert text[i] == text[..|gap|][i];
    } else if i < |gap| + |open| {
      var k := i - |gap|;
      assert text[i] == text[|gap|..|gap| + |open|][k];
      assert open[1..][k - 1] == open[k];
    } else {
      assert text[i] == block.body[i - |gap| - |open|];
    }
    NoTagHere(text, close, i);
  }

  lemma OpeningIsNotClosing(text: string, open: string, close: string, i: nat)
    requires TagPair(open, close) && At(Lower(text), open, i)
    ensures !At(Lower(text), close, i)
  {
    if At(Lower(text), close, i) {
      SecondOf(Lower(text), open, i);
      SecondOf(Lower(text), close, i);
      assert false;
    }
  }

  lemma SecondOf(text: string, tag: string, i: nat)
    requires At(text, tag, i) && |tag| > 1
    ensures i + 1 < |text| && text[i + 1] == tag[1]
  {
    assert tag[1] == text[i..i + |tag|][1];
  }

  lemma ClosesBehindBody(text: string, gap: string, block: Block, open: string, close: string)
    requires TagPair(open, close) && NoTag(gap) && NoTag(block.body) && TagsAround(text, gap, block, open, close)
    ensures First(Lower(text), close, 0) == |gap| + |open| + |block.body|
  {
    var end := |gap| + |open| + |block.body|;
    LowerSlice(text, |gap|, |gap| + |open|);
    OpeningIsNotClosing(text, open, close, |gap|);
    forall i | 0 <= i < end ensures !At(Lower(text), close, i) {
      if i != |gap| { NotClosingYet(text, gap, block, open, close, i); }
    }
    FirstIs(text, close, end);
  }

  predicate BlockOk(block: Block, open: string, close: string) {
    Lower(block.open) == open && Lower(block.close) == close && NoTag(block.body) && NoTag(block.after)
  }

  lemma StripAt(text: string, start: nat, end: nat, shorter: string, open: string, close: string)
    requires |close| > 1 && First(Lower(text), open, 0) == start && First(Lower(text), close, 0) == end && start <= end
    requires end + |close| <= |text| && shorter == text[..start] + " " + text[end + |close|..]
    ensures Stripped(text, open, close) == Stripped(shorter, open, close)
  {
    StrippedStep(text, shorter, open, close);
  }

  lemma OneBlock(text: string, gap: string, block: Block, tail: string, open: string, close: string)
    requires TagPair(open, close) && NoTag(gap) && NoTag(block.body) && TagsAround(text, gap, block, open, close)
    requires tail == text[|gap| + |open| + |block.body| + |close|..]
    ensures Stripped(text, open, close) == Stripped(gap + " " + tail, open, close)
  {
    OpensAtGap(text, gap, block, open, close);
    ClosesBehindBody(text, gap, block, open, close);
    assert text[..|gap|] == gap;
    StripAt(text, |gap|, |gap| + |open| + |block.body|, gap + " " + tail, open, close);
  }

  lemma Piece(text: string, from: nat, until: nat, whole: string, a: string, b: string)
    requires from <= |text| && text[from..] == whole && whole == a + b && until == from + |a|
    ensures until <= |text| && text[from..until] == a && text[until..] == b
  {
    assert text[from..until] == text[from..][..|a|] && whole[..|a|] == a;
    assert text[until..] == text[from..][|a|..] && whole[|a|..] == b;
  }

  lemma MarkedSlices(text: string, gap: string, block: Block, tail: string)
    requires text == gap + (block.open + (block.body + (block.close + tail)))
    ensures
      var i, j, k := |gap| + |block.open|, |gap| + |block.open| + |block.body|, |gap| + |block.open| + |block.body| + |block.close|;
      && k <= |text|
      && text[..|gap|] == gap && text[|gap|..i] == block.open && text[i..j] == block.body && text[j..k] == block.close
      && text[k..] == tail
  {
    var t3 := block.close + tail;
    var t2 := block.body + t3;
    var t1 := block.open + t2;
    assert text[0..] == text;
    Pieces(text, gap, t1, block.open, t2, block.body, t3, block.close, tail);
    assert text[0..|gap|] == text[..|gap|];
  }

  lemma Pieces(text: string, gap: string, t1: string, a: string, t2: string, b: string, t3: string, c: string, tail: string)
    requires text[0..] == text && text == gap + t1 && t1 == a + t2 && t2 == b + t3 && t3 == c + tail
    ensures
      var h, i, j, k := |gap|, |gap| + |a|, |gap| + |a| + |b|, |gap| + |a| + |b| + |c|;
      k <= |text| && text[0..h] == gap && text[h..i] == a && text[i..j] == b && text[j..k] == c && text[k..] == tail
  {
    var h, i, j, k := |gap|, |gap| + |a|, |gap| + |a| + |b|, |gap| + |a| + |b| + |c|;
    Piece(text, 0, h, text, gap, t1);
    Piece(text, h, i, t1, a, t2);
    Piece(text, i, j, t2, b, t3);
    Piece(text, j, k, t3, c, tail);
  }

  lemma MarkedTags(text: string, gap: string, block: Block, open: string, close: string)
    requires BlockOk(block, open, close)
    requires |gap| + |block.open| + |block.body| + |block.close| <= |text|
    requires
      var i, j, k := |gap| + |block.open|, |gap| + |block.open| + |block.body|, |gap| + |block.open| + |block.body| + |block.close|;
      text[..|gap|] == gap && text[|gap|..i] == block.open && text[i..j] == block.body && text[j..k] == block.close
    ensures TagsAround(text, gap, block, open, close)
    ensures |open| == |block.open| && |close| == |block.close|
  {
  }

  lemma MarkedRemoved(gap: string, block: Block, tail: string, open: string, close: string)
    requires TagPair(open, close) && NoTag(gap) && BlockOk(block, open, close)
    ensures Stripped(gap + (block.open + (block.body + (block.close + tail))), open, close) == Stripped(gap + " " + tail, open, close)
  {
    var text := gap + (block.open + (block.body + (block.close + tail)));
    MarkedSlices(text, gap, block, tail);
    MarkedTags(text, gap, block, open, close);
    OneBlock(text, gap, block, tail, open, close);
  }

  lemma AfterBlock(gap: string, after: string, rest: string)
    ensures gap + " " + (after + rest) == gap + " " + after + rest
    ensures gap + (" " + after + rest) == gap + " " + after + rest
  {
  }

  lemma NoTagsNoBlock(gap: string, open: string, close: string)
    requires TagPair(open, close) && NoTag(gap)
    ensures Stripped(gap, open, close) == gap
  {
    forall i | 0 <= i < |gap| ensures !At(Lower(gap), open, i) { NoTagHere(gap, open, i); }
    FirstSkips(Lower(gap), open, 0, |gap|);
  }

  /** Whatever stands in the blocks and around them, as long as it holds no further '<': exactly
      the blocks go, and a space takes the place of each. */
  lemma {:induction false} StrippingUndoesMarking(gap: string, blocks: seq<Block>, open: string, close: string)
    requires TagPair(open, close) && NoTag(gap) && BlocksOk(blocks, open, close)
    ensures Stripped(gap + Marked(blocks), open, close) == gap + Unmarked(blocks)
    decreases |blocks|
  {
    if blocks == [] {
      assert gap + "" == gap;
      NoTagsNoBlock(gap, open, close);
    } else {
      var b, rest := blocks[0], blocks[1..];
      MarkedRemoved(gap, b, b.after + Marked(rest), open, close);
      AfterBlock(gap, b.after, Marked(rest));
      AfterBlock(gap, b.after, Unmarked(rest));
      StrippingUndoesMarking(gap + " " + b.after, rest, open, close);
    }
  }
}
