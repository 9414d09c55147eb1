/** SQL text as a sequence of lexical items, and the proof that the migration scanner decides
    exactly whether some statement of it begins with transaction control. */
module SqlItems {
  import opened Prelude
  import opened SqlScanner

  /** What stands between the delimiters of a block comment, up to its end. */
  datatype Comment = End | Char(c: char, rest: Comment) | Nested(inner: Comment, rest: Comment)

  /** A character of a quoted text: itself, the doubled quote, or a backslash escape. */
  datatype QuotedChar = Plain(c: char) | Doubled | Escape(c: char)

  datatype Lexeme =
    | Space(c: char)
    | LineComment(body: string)
    | BlockComment(comment: Comment)
    | Quoted(quote: char, chars: seq<QuotedChar>)
    | EscapeQuoted(prefix: char, chars: seq<QuotedChar>)
    | DollarQuoted(tag: string, body: string)
    | Semicolon
    | Word(word: string)
    | Other(c: char)

  // ---- Characters and keywords, as the database reads them -----------------------------

  predicate NameCharacter(c: char) { 'a' <= c <= 'z' || 'A' <= c <= 'Z' || '0' <= c <= '9' || c == '_' }

  predicate WhiteCharacter(c: char) { c in {' ', '\t', '\n', '\r', '\U{C}'} }

  /** An E that stands alone as a word: a quote behind it opens a string with backslash escapes. */
  predicate EndsInPrefix(before: string) {
    && before != "" && (before[|before| - 1] == 'E' || before[|before| - 1] == 'e')
    && (|before| >= 2 ==> !NameCharacter(before[|before| - 2]))
  }

  /** Letters and a second dollar sign follow the first one: a delimiter. */
  predicate ClosesTag(after: string) {
    exists n :: 0 <= n < |after| && after[n] == '$' && forall i :: 0 <= i < n ==> NameCharacter(after[i])
  }

  /** The word is the given capitals, with any of its letters written small. */
  predicate WrittenAs(word: string, capitals: string) {
    |word| == |capitals| && forall i :: 0 <= i < |word| ==>
      word[i] == capitals[i] || ('A' <= capitals[i] <= 'Z' && 'a' <= word[i] <= 'z' && word[i] - 'a' == capitals[i] - 'A')
  }

  predicate ControlWord(word: string) {
    || WrittenAs(word, "BEGIN") || WrittenAs(word, "COMMIT") || WrittenAs(word, "ROLLBACK") || WrittenAs(word, "START")
    || WrittenAs(word, "END") || WrittenAs(word, "ABORT") || WrittenAs(word, "PREPARE")
  }

  lemma {:induction false} UpperIsWritten(word: string, capitals: string)
    requires forall i :: 0 <= i < |capitals| ==> 'A' <= capitals[i] <= 'Z'
    ensures Upper(word) == capitals <==> WrittenAs(word, capitals)
  {
    if word != "" && capitals != "" {
      UpperIsWritten(word[1..], capitals[1..]);
      assert capitals == [capitals[0]] + capitals[1..];
      WrittenSplit(word, capitals);
    }
  }

  lemma WrittenSplit(word: string, capitals: string)
    requires word != "" && capitals != ""
    ensures WrittenAs(word, capitals) <==> WrittenAs(word[..1], capitals[..1]) && WrittenAs(word[1..], capitals[1..])
  {
    if WrittenAs(word[..1], capitals[..1]) && WrittenAs(word[1..], capitals[1..]) {
      forall i | 0 <= i < |word|
        ensures word[i] == capitals[i] || ('A' <= capitals[i] <= 'Z' && 'a' <= word[i] <= 'z' && word[i] - 'a' == capitals[i] - 'A')
      {
        if i == 0 {
          assert word[..1][0] == word[0] && capitals[..1][0] == capitals[0];
        } else {
          assert word[1..][i - 1] == word[i] && capitals[1..][i - 1] == capitals[i];
        }
      }
    }
  }

  /** The seven words, and no others, in every mixture of cases. */
  lemma KeywordsAre(word: string)
    ensures IsKeyword(word) <==> ControlWord(word)
  {
    UpperIsWritten(word, "BEGIN");
    UpperIsWritten(word, "COMMIT");
    UpperIsWritten(word, "ROLLBACK");
    UpperIsWritten(word, "START");
    UpperIsWritten(word, "END");
    UpperIsWritten(word, "ABORT");
    UpperIsWritten(word, "PREPARE");
  }

  // ---- Rendering ----------------------------------------------------------------------

  function RenderComment(comment: Comment): string {
    match comment
    case End => "*/"
    case Char(c, rest) => [c] + RenderComment(rest)
    case Nested(inner, rest) => "/*" + (RenderComment(inner) + RenderComment(rest))
  }

  function RenderChar(quote: char, c: QuotedChar): string {
    match c
    case Plain(p) => [p]
    case Doubled => [quote, quote]
    case Escape(p) => ['\\', p]
  }

  function RenderChars(quote: char, chars: seq<QuotedChar>): string {
    if chars == [] then "" else RenderChar(quote, chars[0]) + RenderChars(quote, chars[1..])
  }

  function Delimiter(tag: string): string { "$" + tag + "$" }

  function Render(lexeme: Lexeme): string {
    match lexeme
    case Space(c) => [c]
    case LineComment(body) => "--" + body
    case BlockComment(comment) => "/*" + RenderComment(comment)
    case Quoted(quote, chars) => [quote] + (RenderChars(quote, chars) + [quote])
    case EscapeQuoted(prefix, chars) => [prefix] + ("'" + (RenderChars('\'', chars) + "'"))
    case DollarQuoted(tag, body) => Delimiter(tag) + (body + Delimiter(tag))
    case Semicolon => ";"
    case Word(word) => word
    case Other(c) => [c]
  }

  function RenderAll(lexemes: seq<Lexeme>): string {
    if lexemes == [] then "" else Render(lexemes[0]) + RenderAll(lexemes[1..])
  }

  // ---- Well-formed lexemes ------------------------------------------------------------

  /** A slash or star inside a comment does not run into a delimiter. */
  predicate CommentOk(comment: Comment) {
    match comment
    case End => true
    case Char(c, rest) => CommentOk(rest) && (c == '/' ==> RenderComment(rest)[0] != '*') && (c == '*' ==> RenderComment(rest)[0] != '/')
    case Nested(inner, rest) => CommentOk(inner) && CommentOk(rest)
  }

  predicate CharsOk(quote: char, escapes: bool, chars: seq<QuotedChar>) {
    forall i :: 0 <= i < |chars| ==>
      match chars[i]
      case Plain(c) => c != quote && (escapes ==> c != '\\')
      case Doubled => true
      case Escape(_) => escapes
  }

  predicate IsSqlWords(word: string) { forall i :: 0 <= i < |word| ==> NameCharacter(word[i]) }

  /** The closing delimiter is the first one. */
  predicate BodyOk(tag: string, body: string) { forall k :: 0 <= k < |body| ==> !StartsWith((body + Delimiter(tag))[k..], Delimiter(tag)) }

  predicate LexemeOk(lexeme: Lexeme) {
    match lexeme
    case Space(c) => WhiteCharacter(c)
    case LineComment(body) => forall i :: 0 <= i < |body| ==> body[i] != '\n'
    case BlockComment(comment) => CommentOk(comment)
    case Quoted(quote, chars) => quote in {'\'', '"'} && CharsOk(quote, false, chars)
    case EscapeQuoted(prefix, chars) => prefix in {'E', 'e'} && CharsOk('\'', true, chars)
    case DollarQuoted(tag, body) => IsSqlWords(tag) && BodyOk(tag, body)
    case Semicolon => true
    case Word(word) => word != "" && IsSqlWords(word)
    case Other(c) => !WhiteCharacter(c) && !NameCharacter(c) && c !in {'\'', '"', ';'}
  }

  /** Neighbours do not run together. */
  predicate Separated(before: string, lexeme: Lexeme, after: string) {
    match lexeme
    case Space(_) => true
    case LineComment(_) => after == "" || after[0] == '\n'
    case BlockComment(_) => true
    case Quoted(quote, _) => (after == "" || after[0] != quote) && (quote == '\'' ==> !EndsInPrefix(before))
    case EscapeQuoted(_, _) => (after == "" || after[0] != '\'') && (before == "" || !NameCharacter(before[|before| - 1]))
    case DollarQuoted(_, _) => true
    case Semicolon => true
    case Word(_) => after == "" || !NameCharacter(after[0])
    case Other(c) => (c == '-' ==> after == "" || after[0] != '-') && (c == '/' ==> after == "" || after[0] != '*') && (c == '$' ==> !ClosesTag(after))
  }

  predicate Fits(before: string, lexemes: seq<Lexeme>)
    decreases |lexemes|
  {
    lexemes == []
    || (&& LexemeOk(lexemes[0]) && Separated(before, lexemes[0], RenderAll(lexemes[1..]))
        && Fits(before + Render(lexemes[0]), lexemes[1..]))
  }

  // ---- What the scanner should decide -------------------------------------------------

  predicate Ignored(lexeme: Lexeme) { lexeme.Space? || lexeme.LineComment? || lexeme.BlockComment? }

  /** A statement begins at the start of the text and behind every semicolon. */
  predicate Begins(lexemes: seq<Lexeme>, m: nat, atStart: bool)
    requires m <= |lexemes|
  {
    if m == 0 then atStart else lexemes[m - 1].Semicolon?
  }

  predicate AllIgnored(lexemes: seq<Lexeme>, m: nat, k: nat)
    requires m <= k <= |lexemes|
  {
    forall j :: m <= j < k ==> Ignored(lexemes[j])
  }

  /** Only spaces and comments stand between the beginning of a statement and position `k`. */
  predicate Leads(lexemes: seq<Lexeme>, k: nat, atStart: bool)
    requires k <= |lexemes|
  {
    exists m :: 0 <= m <= k && Begins(lexemes, m, atStart) && AllIgnored(lexemes, m, k)
  }

  predicate ControlAt(lexemes: seq<Lexeme>, k: nat, atStart: bool)
    requires k < |lexemes|
  {
    lexemes[k].Word? && ControlWord(lexemes[k].word) && Leads(lexemes, k, atStart)
  }

  /** Some statement's first item other than spaces and comments is a keyword. */
  predicate ControlsTransaction(lexemes: seq<Lexeme>) { exists k :: 0 <= k < |lexemes| && ControlAt(lexemes, k, true) }

  function StartsNext(lexeme: Lexeme, atStart: bool): bool { if Ignored(lexeme) then atStart else lexeme.Semicolon? }

  /** The same, item by item. */
  predicate Controls(lexemes: seq<Lexeme>, atStart: bool) {
    lexemes != []
    && ((atStart && lexemes[0].Word? && ControlWord(lexemes[0].word)) || Controls(lexemes[1..], StartsNext(lexemes[0], atStart)))
  }

  lemma LeadsShifts(lexemes: seq<Lexeme>, k: nat, atStart: bool)
    requires 1 <= k <= |lexemes|
    ensures Leads(lexemes, k, atStart) <==> Leads(lexemes[1..], k - 1, StartsNext(lexemes[0], atStart))
  {
    var rest, start := lexemes[1..], StartsNext(lexemes[0], atStart);
    if m :| 0 <= m <= k && Begins(lexemes, m, atStart) && AllIgnored(lexemes, m, k) {
      var m' := if m == 0 then 0 else m - 1;
      assert Begins(rest, m', start) && AllIgnored(rest, m', k - 1);
    }
    if m :| 0 <= m <= k - 1 && Begins(rest, m, start) && AllIgnored(rest, m, k - 1) {
      var m' := if m == 0 && Ignored(lexemes[0]) then 0 else m + 1;
      forall j | m' <= j < k ensures Ignored(lexemes[j]) { assert j > 0 ==> rest[j - 1] == lexemes[j]; }
      assert Begins(lexemes, m', atStart) && AllIgnored(lexemes, m', k);
    }
  }

  /** The item-by-item decision is the one about statements. */
  lemma {:induction false} ControlsIff(lexemes: seq<Lexeme>, atStart: bool)
    ensures Controls(lexemes, atStart) <==> exists k :: 0 <= k < |lexemes| && ControlAt(lexemes, k, atStart)
  {
    if lexemes != [] {
      var rest, start := lexemes[1..], StartsNext(lexemes[0], atStart);
      ControlsIff(rest, start);
      assert Begins(lexemes, 0, atStart) <==> atStart;
      assert atStart ==> AllIgnored(lexemes, 0, 0);
      assert Leads(lexemes, 0, atStart) <==> atStart;
      if Controls(rest, start) {
        var k :| 0 <= k < |rest| && ControlAt(rest, k, start);
        LeadsShifts(lexemes, k + 1, atStart);
        assert ControlAt(lexemes, k + 1, atStart);
      } else if Controls(lexemes, atStart) {
        assert ControlAt(lexemes, 0, atStart);
      } else {
        forall k | 0 <= k < |lexemes| ensures !ControlAt(lexemes, k, atStart) {
          if k > 0 {
            LeadsShifts(lexemes, k, atStart);
            assert !ControlAt(rest, k - 1, start);
          }
        }
      }
    }
  }

  // ---- Reading back one lexeme --------------------------------------------------------

  lemma CommentBegins(comment: Comment)
    ensures RenderComment(comment) != ""
  {
  }

  lemma StartsPair(text: string, a: char, b: char)
    ensures StartsWith(text, [a, b]) <==> |text| >= 2 && text[0] == a && text[1] == b
  {
    if |text| >= 2 { assert text[..2] == [text[0], text[1]]; }
  }

  lemma CommentStep(text: string, depth: nat)
    requires text != "" && depth >= 1
    ensures CommentRest(text, depth)
      == if |text| >= 2 && text[0] == '/' && text[1] == '*' then CommentRest(text[2..], depth + 1)
         else if |text| >= 2 && text[0] == '*' && text[1] == '/' then CommentRest(text[2..], depth - 1)
         else CommentRest(text[1..], depth)
  {
    StartsPair(text, '/', '*');
    StartsPair(text, '*', '/');
  }

  lemma CharStep(c: char, rest: string, next: string, depth: nat)
    requires depth >= 1 && rest != ""
    requires (c == '/' ==> rest[0] != '*') && (c == '*' ==> rest[0] != '/')
    ensures CommentRest([c] + rest + next, depth) == CommentRest(rest + next, depth)
  {
    CommentStep([c] + rest + next, depth);
    assert ([c] + rest + next)[1..] == rest + next;
  }

  lemma DelimiterStep(delimiter: string, rest: string, depth: nat)
    requires delimiter in {"/*", "*/"} && depth >= 1
    ensures CommentRest(delimiter + rest, depth) == CommentRest(rest, if delimiter == "/*" then depth + 1 else depth - 1)
  {
    CommentStep(delimiter + rest, depth);
    assert (delimiter + rest)[2..] == rest;
  }

  lemma NestedText(a: string, b: string, next: string)
    ensures ("/*" + (a + b)) + next == "/*" + (a + (b + next))
  {
  }

  lemma NestedReads(inner: Comment, rest: Comment, next: string, depth: nat)
    requires depth >= 1
    requires CommentRest(RenderComment(inner) + (RenderComment(rest) + next), depth + 1) == CommentRest(RenderComment(rest) + next, depth)
    requires CommentRest(RenderComment(rest) + next, depth) == CommentRest(next, depth - 1)
    ensures CommentRest(RenderComment(Nested(inner, rest)) + next, depth) == CommentRest(next, depth - 1)
  {
    var tail := RenderComment(inner) + (RenderComment(rest) + next);
    DelimiterStep("/*", tail, depth);
    NestedText(RenderComment(inner), RenderComment(rest), next);
  }

  lemma CharBegins(c: char, rest: Comment, next: string, depth: nat)
    requires CommentOk(Char(c, rest)) && depth >= 1
    ensures CommentRest(RenderComment(Char(c, rest)) + next, depth) == CommentRest(RenderComment(rest) + next, depth)
  {
    CommentBegins(rest);
    CharStep(c, RenderComment(rest), next, depth);
  }

  lemma {:induction false} CommentReads(comment: Comment, next: string, depth: nat)
    requires CommentOk(comment) && depth >= 1
    ensures CommentRest(RenderComment(comment) + next, depth) == CommentRest(next, depth - 1)
  {
    match comment
    case End => DelimiterStep("*/", next, depth);
    case Char(c, rest) =>
      CommentReads(rest, next, depth);
      CharBegins(c, rest, next, depth);
    case Nested(inner, rest) =>
      CommentReads(inner, RenderComment(rest) + next, depth + 1);
      CommentReads(rest, next, depth);
      NestedReads(inner, rest, next, depth);
  }

  lemma {:induction false} CharsRead(quote: char, escapes: bool, chars: seq<QuotedChar>, next: string)
    requires CharsOk(quote, escapes, chars) && quote != '\\' && (next == "" || next[0] != quote)
    ensures QuoteRest(RenderChars(quote, chars) + ([quote] + next), quote, escapes) == Some(next)
  {
    var text := RenderChars(quote, chars) + ([quote] + next);
    if chars == [] {
      assert text == [quote] + next && text[1..] == next;
    } else {
      var rest := RenderChars(quote, chars[1..]) + ([quote] + next);
      CharsRead(quote, escapes, chars[1..], next);
      assert text == RenderChar(quote, chars[0]) + rest;
      assert text[|RenderChar(quote, chars[0])|..] == rest;
    }
  }

  lemma {:induction false} LineReads(body: string, next: string)
    requires (forall i :: 0 <= i < |body| ==> body[i] != '\n') && (next == "" || next[0] == '\n')
    ensures LineRest(body + next) == next
  {
    if body == "" {
      assert body + next == next;
    } else {
      assert (body + next)[1..] == body[1..] + next;
      LineReads(body[1..], next);
    }
  }

  lemma {:induction false} WordReads(word: string, next: string)
    requires IsSqlWords(word) && (next == "" || !IsSqlWord(next[0]))
    ensures WordLength(word + next) == |word|
  {
    if word == "" {
      assert word + next == next;
    } else {
      assert (word + next)[1..] == word[1..] + next;
      WordReads(word[1..], next);
    }
  }

  lemma {:induction false} FindReads(body: string, delimiter: string, next: string)
    requires delimiter != "" && forall k :: 0 <= k < |body| ==> !StartsWith((body + delimiter)[k..], delimiter)
    ensures FindRest(body + (delimiter + next), delimiter) == Some(next)
  {
    var text := body + (delimiter + next);
    if body == "" {
      assert text[..|delimiter|] == delimiter && text[|delimiter|..] == next;
    } else {
      assert !StartsWith((body + delimiter)[0..], delimiter);
      NotHere(body + delimiter, delimiter, next);
      assert text == (body + delimiter) + next;
      assert text[1..] == body[1..] + (delimiter + next);
      forall k | 0 <= k < |body[1..]| ensures !StartsWith((body[1..] + delimiter)[k..], delimiter) {
        assert (body[1..] + delimiter)[k..] == (body + delimiter)[k + 1..];
      }
      FindReads(body[1..], delimiter, next);
    }
  }

  lemma NotHere(text: string, delimiter: string, next: string)
    requires |delimiter| <= |text| && !StartsWith(text[0..], delimiter)
    ensures !StartsWith(text + next, delimiter)
  {
    assert text[0..] == text;
    assert (text + next)[..|delimiter|] == text[..|delimiter|];
  }

  // ---- Reading back a whole text ------------------------------------------------------

  /** The scanner's step over the rendering of one lexeme. */
  predicate ReadsAs(before: string, lexeme: Lexeme, after: string, atStart: bool) {
    && Render(lexeme) + after != ""
    && ItemAt(before, Render(lexeme) + after, atStart)
       == if atStart && lexeme.Word? && ControlWord(lexeme.word) then Stop(TransactionControl) else GoOn(after, StartsNext(lexeme, atStart))
  }

  lemma QuoteItem(before: string, quote: char, body: string, after: string, atStart: bool)
    requires quote in {'\'', '"'}
    requires QuoteRest(body, quote, quote == '\'' && EscapesAfter(before)) == Some(after)
    ensures ItemAt(before, [quote] + body, atStart) == GoOn(after, false)
  {
    assert ([quote] + body)[1..] == body;
    StartsPair([quote] + body, '-', '-');
    StartsPair([quote] + body, '/', '*');
  }

  lemma PrefixIff(before: string)
    ensures EscapesAfter(before) <==> EndsInPrefix(before)
  {
  }

  lemma QuotedReads(before: string, lexeme: Lexeme, after: string, atStart: bool)
    requires lexeme.Quoted? && LexemeOk(lexeme) && Separated(before, lexeme, after)
    ensures ReadsAs(before, lexeme, after, atStart)
  {
    var body := RenderChars(lexeme.quote, lexeme.chars) + ([lexeme.quote] + after);
    CharsRead(lexeme.quote, false, lexeme.chars, after);
    PrefixIff(before);
    assert lexeme.quote == '\'' ==> !EscapesAfter(before);
    QuoteItem(before, lexeme.quote, body, after, atStart);
    assert Render(lexeme) + after == [lexeme.quote] + body;
  }

  lemma LineCommentReads(before: string, lexeme: Lexeme, after: string, atStart: bool)
    requires lexeme.LineComment? && LexemeOk(lexeme) && Separated(before, lexeme, after)
    ensures ReadsAs(before, lexeme, after, atStart)
  {
    var text := Render(lexeme) + after;
    assert text[..2] == "--" && text[2..] == lexeme.body + after;
    LineReads(lexeme.body, after);
  }

  lemma BlockCommentReads(before: string, lexeme: Lexeme, after: string, atStart: bool)
    requires lexeme.BlockComment? && LexemeOk(lexeme)
    ensures ReadsAs(before, lexeme, after, atStart)
  {
    var text := Render(lexeme) + after;
    assert text[..2] == "/*" && text[2..] == RenderComment(lexeme.comment) + after;
    StartsPair(text, '-', '-');
    CommentReads(lexeme.comment, after, 1);
  }

  lemma DollarItemIs(before: string, tag: string, tail: string, atStart: bool)
    requires IsSqlWords(tag)
    ensures ItemAt(before, Delimiter(tag) + tail, atStart) == GoOnIf(FindRest(tail, Delimiter(tag)))
  {
    var text := Delimiter(tag) + tail;
    var n := |tag| + 2;
    assert text[1..] == tag + ("$" + tail);
    WordReads(tag, "$" + tail);
    assert text[n - 1] == '$' && text[..n] == Delimiter(tag) && text[n..] == tail;
    StartsPair(text, '-', '-');
    StartsPair(text, '/', '*');
  }

  lemma DollarReads(before: string, lexeme: Lexeme, after: string, atStart: bool)
    requires lexeme.DollarQuoted? && LexemeOk(lexeme)
    ensures ReadsAs(before, lexeme, after, atStart)
  {
    var delimiter := Delimiter(lexeme.tag);
    var tail := lexeme.body + (delimiter + after);
    DollarItemIs(before, lexeme.tag, tail, atStart);
    FindReads(lexeme.body, delimiter, after);
    assert Render(lexeme) + after == delimiter + tail;
  }

  lemma WordItemReads(before: string, lexeme: Lexeme, after: string, atStart: bool)
    requires lexeme.Word? && LexemeOk(lexeme) && Separated(before, lexeme, after)
    ensures ReadsAs(before, lexeme, after, atStart)
  {
    var text := lexeme.word + after;
    WordReads(lexeme.word, after);
    KeywordsAre(lexeme.word);
    assert text[0] == lexeme.word[0] && text[..|lexeme.word|] == lexeme.word && text[|lexeme.word|..] == after;
    StartsPair(text, '-', '-');
    StartsPair(text, '/', '*');
  }

  lemma CharacterReads(before: string, lexeme: Lexeme, after: string, atStart: bool)
    requires (lexeme.Space? || lexeme.Semicolon? || lexeme.Other?) && LexemeOk(lexeme) && Separated(before, lexeme, after)
    ensures ReadsAs(before, lexeme, after, atStart)
  {
    var text := Render(lexeme) + after;
    assert text[1..] == after;
    StartsPair(text, '-', '-');
    StartsPair(text, '/', '*');
    if lexeme.Other? && lexeme.c == '$' { assert WordLength(after) < |after| ==> after[WordLength(after)] != '$'; }
  }

  /** An escape string is read in two steps: its prefix as a word, its quotes with escapes. */
  lemma EscapeQuotedReads(before: string, lexeme: Lexeme, after: string, atStart: bool)
    requires lexeme.EscapeQuoted? && LexemeOk(lexeme) && Separated(before, lexeme, after)
    ensures Scan(before, Render(lexeme) + after, atStart) == Scan(before + Render(lexeme), after, false)
  {
    var chars := RenderChars('\'', lexeme.chars);
    CharsRead('\'', true, lexeme.chars, after);
    EscapeText(before, lexeme.prefix, chars, after);
    QuotesAfterPrefix(before, lexeme.prefix, chars, after, atStart);
  }

  lemma EscapeText(before: string, prefix: char, chars: string, after: string)
    ensures ([prefix] + ("'" + (chars + "'"))) + after == [prefix] + (['\''] + (chars + (['\''] + after)))
    ensures Read(before + [prefix], ['\''] + (chars + (['\''] + after)), after) == before + ([prefix] + ("'" + (chars + "'")))
  {
    assert ['\''] + (chars + (['\''] + after)) == ("'" + (chars + "'")) + after;
  }

  lemma QuotesAfterPrefix(before: string, prefix: char, chars: string, after: string, atStart: bool)
    requires prefix in {'E', 'e'} && (before == "" || !IsSqlWord(before[|before| - 1]))
    requires QuoteRest(chars + (['\''] + after), '\'', true) == Some(after)
    ensures
      var quoted := ['\''] + (chars + (['\''] + after));
      Scan(before, [prefix] + quoted, atStart) == Scan(Read(before + [prefix], quoted, after), after, false)
  {
    var here, body := before + [prefix], chars + (['\''] + after);
    PrefixReads(before, prefix, ['\''] + body, atStart);
    assert EscapesAfter(here);
    QuoteItem(here, '\'', body, after, false);
    ScanGoesOn(here, ['\''] + body, after, false);
  }

  lemma ScanGoesOn(before: string, text: string, rest: string, atStart: bool)
    requires text != "" && |rest| <= |text| && ItemAt(before, text, atStart) == GoOn(rest, false)
    ensures Scan(before, text, atStart) == Scan(Read(before, text, rest), rest, false)
  {
  }

  lemma PrefixReads(before: string, prefix: char, quoted: string, atStart: bool)
    requires prefix in {'E', 'e'} && quoted != "" && quoted[0] == '\''
    ensures Scan(before, [prefix] + quoted, atStart) == Scan(before + [prefix], quoted, false)
  {
    var text := [prefix] + quoted;
    WordItemReads(before, Word([prefix]), quoted, atStart);
    PrefixIsNoKeyword(prefix);
    KeywordsAre([prefix]);
    ScanGoesOn(before, text, quoted, atStart);
    assert text[..|text| - |quoted|] == [prefix];
  }

  lemma PrefixIsNoKeyword(prefix: char)
    requires prefix in {'E', 'e'}
    ensures !IsKeyword([prefix])
  {
    assert |Upper([prefix])| == 1;
  }

  lemma LexemeReads(before: string, lexeme: Lexeme, after: string, atStart: bool)
    requires !lexeme.EscapeQuoted? && LexemeOk(lexeme) && Separated(before, lexeme, after)
    ensures ReadsAs(before, lexeme, after, atStart)
  {
    if lexeme.LineComment? {
      LineCommentReads(before, lexeme, after, atStart);
    } else if lexeme.BlockComment? {
      BlockCommentReads(before, lexeme, after, atStart);
    } else if lexeme.Quoted? {
      QuotedReads(before, lexeme, after, atStart);
    } else if lexeme.DollarQuoted? {
      DollarReads(before, lexeme, after, atStart);
    } else if lexeme.Word? {
      WordItemReads(before, lexeme, after, atStart);
    } else {
      CharacterReads(before, lexeme, after, atStart);
    }
  }

  lemma {:induction false} ScanFollows(before: string, lexemes: seq<Lexeme>, atStart: bool)
    requires Fits(before, lexemes)
    ensures Scan(before, RenderAll(lexemes), atStart) == if Controls(lexemes, atStart) then TransactionControl else Clean
    decreases |lexemes|
  {
    if lexemes != [] {
      var lexeme, rest := lexemes[0], lexemes[1..];
      var after := RenderAll(rest);
      ScanFollows(before + Render(lexeme), rest, StartsNext(lexeme, atStart));
      if lexeme.EscapeQuoted? {
        EscapeQuotedReads(before, lexeme, after, atStart);
      } else {
        LexemeReads(before, lexeme, after, atStart);
        var text := Render(lexeme) + after;
        assert text[..|text| - |after|] == Render(lexeme);
      }
    }
  }

  /** For every sequence of lexical items whose neighbours do not run together, the scanner
      reports transaction control exactly when some statement begins with one of the seven
      keywords, and it never reports an unterminated text. */
  lemma ScannerIsExact(lexemes: seq<Lexeme>)
    requires Fits("", lexemes)
    ensures Scan("", RenderAll(lexemes), true) == if ControlsTransaction(lexemes) then TransactionControl else Clean
  {
    ScanFollows("", lexemes, true);
    ControlsIff(lexemes, true);
  }

  // ---- Items that are never closed ----------------------------------------------------

  /** The text occurs nowhere in the body. */
  predicate Lacks(body: string, text: string) { forall k :: 0 <= k <= |body| ==> !StartsWith(body[k..], text) }

  lemma LacksTail(body: string, text: string, n: nat)
    requires Lacks(body, text) && n <= |body|
    ensures Lacks(body[n..], text) && !StartsWith(body, text)
  {
    assert body[0..] == body;
    forall k | 0 <= k <= |body[n..]| ensures !StartsWith(body[n..][k..], text) { assert body[n..][k..] == body[n + k..]; }
  }

  lemma {:induction false} CommentStaysOpen(body: string, depth: nat)
    requires depth >= 1 && Lacks(body, "*/")
    ensures CommentRest(body, depth) == None
    decreases |body|
  {
    LacksTail(body, "*/", 0);
    if body != "" {
      LacksTail(body, "*/", 1);
      CommentStaysOpen(body[1..], depth);
      if StartsWith(body, "/*") {
        LacksTail(body, "*/", 2);
        CommentStaysOpen(body[2..], depth + 1);
      }
    }
  }

  lemma {:induction false} QuoteStaysOpen(quote: char, escapes: bool, chars: seq<QuotedChar>)
    requires CharsOk(quote, escapes, chars) && quote != '\\'
    ensures QuoteRest(RenderChars(quote, chars), quote, escapes) == None
  {
    if chars != [] {
      var rest := RenderChars(quote, chars[1..]);
      QuoteStaysOpen(quote, escapes, chars[1..]);
      assert RenderChars(quote, chars)[|RenderChar(quote, chars[0])|..] == rest;
    }
  }

  lemma {:induction false} DollarStaysOpen(body: string, delimiter: string)
    requires Lacks(body, delimiter)
    ensures FindRest(body, delimiter) == None
  {
    LacksTail(body, delimiter, 0);
    if body != "" {
      LacksTail(body, delimiter, 1);
      DollarStaysOpen(body[1..], delimiter);
    }
  }

  /** A comment, a quote or a dollar quote that is opened and never closed is reported as such. */
  lemma OpenCommentIsReported(before: string, body: string, atStart: bool)
    requires Lacks(body, "*/")
    ensures Scan(before, "/*" + body, atStart) == Unterminated
  {
    var text := "/*" + body;
    assert text[..2] == "/*" && text[2..] == body;
    StartsPair(text, '-', '-');
    CommentStaysOpen(body, 1);
  }

  lemma OpenQuoteIsReported(before: string, quote: char, chars: seq<QuotedChar>, atStart: bool)
    requires quote in {'\'', '"'} && CharsOk(quote, quote == '\'' && EndsInPrefix(before), chars)
    ensures Scan(before, [quote] + RenderChars(quote, chars), atStart) == Unterminated
  {
    var text := [quote] + RenderChars(quote, chars);
    assert text[1..] == RenderChars(quote, chars);
    StartsPair(text, '-', '-');
    StartsPair(text, '/', '*');
    QuoteStaysOpen(quote, quote == '\'' && EndsInPrefix(before), chars);
  }

  lemma OpenDollarIsReported(before: string, tag: string, body: string, atStart: bool)
    requires IsSqlWords(tag) && Lacks(body, Delimiter(tag))
    ensures Scan(before, Delimiter(tag) + body, atStart) == Unterminated
  {
    DollarItemIs(before, tag, body, atStart);
    DollarStaysOpen(body, Delimiter(tag));
  }

  // ---- Any items can be written next to each other, with line breaks in between --------

  function OnLines(lexemes: seq<Lexeme>): seq<Lexeme> { if lexemes == [] then [] else [lexemes[0], Space('\n')] + OnLines(lexemes[1..]) }

  lemma {:induction false} LinesFit(before: string, lexemes: seq<Lexeme>)
    requires forall i :: 0 <= i < |lexemes| ==> LexemeOk(lexemes[i])
    requires before == "" || before[|before| - 1] == '\n'
    ensures Fits(before, OnLines(lexemes))
    decreases |lexemes|
  {
    if lexemes != [] {
      var lines, rest := OnLines(lexemes), OnLines(lexemes[1..]);
      var here := before + Render(lexemes[0]);
      LinesFit(here + "\n", lexemes[1..]);
      assert lines[1..] == [Space('\n')] + rest && lines[1..][1..] == rest;
      assert RenderAll(lines[1..]) == "\n" + RenderAll(rest);
      assert Fits(here, lines[1..]);
      assert Separated(before, lexemes[0], RenderAll(lines[1..])) by {
        var text := ['$'] + ("\n" + RenderAll(rest));
        assert text[1..] == "\n" + RenderAll(rest);
        assert WordLength(text[1..]) == 0;
      }
    }
  }

  /** So the scanner decides every sequence of well-formed items, written on separate lines. */
  lemma EverySequenceIsDecided(lexemes: seq<Lexeme>)
    requires forall i :: 0 <= i < |lexemes| ==> LexemeOk(lexemes[i])
    ensures Scan("", RenderAll(OnLines(lexemes)), true) == if Controls(lexemes, true) then TransactionControl else Clean
  {
    LinesFit("", lexemes);
    ScanFollows("", OnLines(lexemes), true);
    LinesControl(lexemes, true);
  }

  lemma {:induction false} LinesControl(lexemes: seq<Lexeme>, atStart: bool)
    ensures Controls(OnLines(lexemes), atStart) == Controls(lexemes, atStart)
    decreases |lexemes|
  {
    if lexemes != [] {
      var lines, rest := OnLines(lexemes), OnLines(lexemes[1..]);
      assert lines[1..] == [Space('\n')] + rest && lines[1..][1..] == rest;
      LinesControl(lexemes[1..], StartsNext(lexemes[0], atStart));
    }
  }
}
