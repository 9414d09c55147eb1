/** The scan for transaction control in migration files (`migrations/migrations.go`).

    The functions consume the text from the left: `before` is what has been read, `text` what
    is left.  Method `RejectTransactionControl` is the scanner with its index and loops. */
module SqlScanner {
  import opened Prelude

  datatype Verdict = Clean | TransactionControl | Unterminated

  predicate IsSqlSpace(c: char) { c in {' ', '\t', '\n', '\r', '\U{C}'} }

  predicate IsSqlWord(c: char) { 'a' <= c <= 'z' || 'A' <= c <= 'Z' || '0' <= c <= '9' || c == '_' }

  function Upper(word: string): string {
    if word == "" then ""
    else [if 'a' <= word[0] <= 'z' then (word[0] as int - 32) as char else word[0]] + Upper(word[1..])
  }

  const KEYWORDS: set<string> := {"BEGIN", "COMMIT", "ROLLBACK", "START", "END", "ABORT", "PREPARE"}

  predicate IsKeyword(word: string) { Upper(word) in KEYWORDS }

  predicate StartsWith(text: string, prefix: string) { |prefix| <= |text| && text[..|prefix|] == prefix }

  // ---- Reading one lexical item -------------------------------------------------------

  function LineRest(text: string): (rest: string)
    ensures |rest| <= |text|
  {
    if text == "" || text[0] == '\n' then text else LineRest(text[1..])
  }

  function CommentRest(text: string, depth: nat): (rest: Option<string>)
    ensures rest.Some? ==> |rest.value| <= |text|
    decreases |text|
  {
    if depth == 0 then Some(text)
    else if text == "" then None
    else if StartsWith(text, "/*") then CommentRest(text[2..], depth + 1)
    else if StartsWith(text, "*/") then CommentRest(text[2..], depth - 1)
    else CommentRest(text[1..], depth)
  }

  function QuoteRest(text: string, quote: char, escapes: bool): (rest: Option<string>)
    ensures rest.Some? ==> |rest.value| < |text|
    decreases |text|
  {
    if text == "" then None
    else if escapes && text[0] == '\\' && |text| > 1 then QuoteRest(text[2..], quote, escapes)
    else if text[0] == quote then (if |text| > 1 && text[1] == quote then QuoteRest(text[2..], quote, escapes) else Some(text[1..]))
    else QuoteRest(text[1..], quote, escapes)
  }

  function WordLength(text: string): (n: nat)
    ensures n <= |text| && (forall i :: 0 <= i < n ==> IsSqlWord(text[i])) && (n < |text| ==> !IsSqlWord(text[n]))
  {
    if text == "" || !IsSqlWord(text[0]) then 0 else 1 + WordLength(text[1..])
  }

  function FindRest(text: string, delimiter: string): (rest: Option<string>)
    ensures rest.Some? ==> |rest.value| <= |text|
    decreases |text|
  {
    if StartsWith(text, delimiter) then Some(text[|delimiter|..]) else if text == "" then None else FindRest(text[1..], delimiter)
  }

  /** Whether a quote that comes next is read with backslash escapes. */
  predicate EscapesAfter(before: string) {
    && before != "" && before[|before| - 1] in {'E', 'e'}
    && (|before| == 1 || !IsSqlWord(before[|before| - 2]))
  }

  predicate OpensDollar(text: string) { text != "" && text[0] == '$' && WordLength(text[1..]) + 1 < |text| && text[WordLength(text[1..]) + 1] == '$' }

  function Read(before: string, text: string, rest: string): string
    requires |rest| <= |text|
  {
    before + text[..|text| - |rest|]
  }

  // ---- The scan -----------------------------------------------------------------------

  /** One item: the scan stops at it, or goes on behind it. */
  datatype Item = Stop(verdict: Verdict) | GoOn(rest: string, atStart: bool)

  function GoOnIf(rest: Option<string>): Item { if rest.None? then Stop(Unterminated) else GoOn(rest.value, false) }

  function DollarItem(text: string): (item: Item)
    requires text != ""
    ensures item.GoOn? ==> |item.rest| < |text|
  {
    if !OpensDollar(text) then GoOn(text[1..], false)
    else
      var n := WordLength(text[1..]) + 2;
      GoOnIf(FindRest(text[n..], text[..n]))
  }

  function ItemAt(before: string, text: string, atStart: bool): (item: Item)
    requires text != ""
    ensures item.GoOn? ==> |item.rest| < |text|
  {
    if IsSqlSpace(text[0]) then GoOn(text[1..], atStart)
    else if StartsWith(text, "--") then GoOn(LineRest(text[2..]), atStart)
    else if StartsWith(text, "/*") then
      (match CommentRest(text[2..], 1)
       case None => Stop(Unterminated)
       case Some(rest) => GoOn(rest, atStart))
    else if text[0] in {'\'', '"'} then GoOnIf(QuoteRest(text[1..], text[0], text[0] == '\'' && EscapesAfter(before)))
    else if text[0] == '$' then DollarItem(text)
    else if text[0] == ';' then GoOn(text[1..], true)
    else if IsSqlWord(text[0]) then
      (if atStart && IsKeyword(text[..WordLength(text)]) then Stop(TransactionControl) else GoOn(text[WordLength(text)..], false))
    else GoOn(text[1..], false)
  }

  function Scan(before: string, text: string, atStart: bool): Verdict
    decreases |text|
  {
    if text == "" then Clean
    else
      match ItemAt(before, text, atStart)
      case Stop(verdict) => verdict
      case GoOn(rest, start) => Scan(Read(before, text, rest), rest, start)
  }

  method RejectTransactionControl(sql: string) returns (verdict: Verdict)
    ensures verdict == Scan("", sql, true)
  {
    var atStart := true;
    var i := 0;
    assert sql[..0] == "" && sql[0..] == sql;
    while i < |sql|
      invariant 0 <= i <= |sql|
      invariant Scan(sql[..i], sql[i..], atStart) == Scan("", sql, true)
      decreases |sql| - i
    {
      var stopped, next, start := ReadItem(sql, i, atStart);
      if stopped.Some? {
        return stopped.value;
      }
      Advanced(sql, i, next);
      i, atStart := next, start;
    }
    return Clean;
  }

  predicate At(sql: string, i: nat, pair: string) { i + |pair| <= |sql| && sql[i..i + |pair|] == pair }

  lemma AtIsStart(sql: string, i: nat, pair: string)
    requires i <= |sql|
    ensures At(sql, i, pair) <==> StartsWith(sql[i..], pair)
    ensures At(sql, i, pair) ==> sql[i..][|pair|..] == sql[i + |pair|..]
  {
    if i + |pair| <= |sql| { Advanced(sql, i, i + |pair|); }
  }

  /** The body of the scanner's loop. */
  method ReadItem(sql: string, i: nat, atStart: bool) returns (stopped: Option<Verdict>, next: nat, start: bool)
    requires i < |sql|
    ensures i <= next <= |sql|
    ensures ItemAt(sql[..i], sql[i..], atStart) == if stopped.Some? then Stop(stopped.value) else GoOn(sql[next..], start)
  {
    Advanced(sql, i, i + 1);
    AtIsStart(sql, i, "--");
    AtIsStart(sql, i, "/*");
    if IsSqlSpace(sql[i]) {
      return None, i + 1, atStart;
    }
    if At(sql, i, "--") {
      next := SkipLine(sql, i + 2);
      return None, next, atStart;
    }
    if At(sql, i, "/*") {
      var depth: nat;
      next, depth := SkipComment(sql, i + 2);
      return if depth != 0 then Some(Unterminated) else None, next, atStart;
    }
    if sql[i] == '\'' || sql[i] == '"' {
      stopped, next := ReadQuote(sql, i);
      return stopped, next, false;
    }
    if sql[i] == '$' {
      stopped, next := ReadDollar(sql, i);
      return stopped, next, false;
    }
    if sql[i] == ';' {
      return None, i + 1, true;
    }
    if IsSqlWord(sql[i]) {
      next := SkipWord(sql, i + 1);
      Advanced(sql, i, next);
      if atStart && Upper(sql[i..next]) in KEYWORDS {
        return Some(TransactionControl), next, false;
      }
      return None, next, false;
    }
    return None, i + 1, false;
  }

  method ReadQuote(sql: string, i: nat) returns (stopped: Option<Verdict>, next: nat)
    requires i < |sql| && sql[i] in {'\'', '"'}
    ensures i <= next <= |sql|
    ensures GoOnIf(QuoteRest(sql[i..][1..], sql[i], sql[i] == '\'' && EscapesAfter(sql[..i])))
      == if stopped.Some? then Stop(stopped.value) else GoOn(sql[next..], false)
  {
    var quote := sql[i];
    var escapeLiteral := quote == '\'' && i > 0 && (sql[i - 1] == 'E' || sql[i - 1] == 'e') && (i == 1 || !IsSqlWord(sql[i - 2]));
    Advanced(sql, i, i + 1);
    var closed: bool;
    next, closed := SkipQuote(sql, i + 1, quote, escapeLiteral);
    stopped := if closed then None else Some(Unterminated);
  }

  method ReadDollar(sql: string, i: nat) returns (stopped: Option<Verdict>, next: nat)
    requires i < |sql| && sql[i] == '$'
    ensures i <= next <= |sql|
    ensures DollarItem(sql[i..]) == if stopped.Some? then Stop(stopped.value) else GoOn(sql[next..], false)
  {
    var end := SkipWord(sql, i + 1);
    DollarAt(sql, i, end);
    stopped, next := AfterTag(sql, i, end);
  }

  /** The tag ends at `end`: a delimiter if a dollar sign follows, and a single sign otherwise. */
  method AfterTag(sql: string, i: nat, end: nat) returns (stopped: Option<Verdict>, next: nat)
    requires i < end <= |sql|
    ensures i <= next <= |sql|
    ensures (if end < |sql| && sql[end] == '$' then GoOnIf(FindRest(sql[end + 1..], sql[i..end + 1])) else GoOn(sql[i + 1..], false))
      == if stopped.Some? then Stop(stopped.value) else GoOn(sql[next..], false)
  {
    if end >= |sql| || sql[end] != '$' {
      return None, i + 1;
    }
    stopped, next := CloseDollar(sql, end + 1, sql[i..end + 1]);
  }

  method CloseDollar(sql: string, from: nat, delimiter: string) returns (stopped: Option<Verdict>, next: nat)
    requires from <= |sql|
    ensures from <= next <= |sql|
    ensures GoOnIf(FindRest(sql[from..], delimiter)) == if stopped.Some? then Stop(stopped.value) else GoOn(sql[next..], false)
  {
    var closeAt := Index(sql, from, delimiter);
    if closeAt.None? {
      return Some(Unterminated), from;
    }
    return None, closeAt.value + |delimiter|;
  }

  lemma DollarAt(sql: string, i: nat, end: nat)
    requires i < |sql| && sql[i] == '$' && end == i + 1 + WordLength(sql[i + 1..])
    ensures end <= |sql|
    ensures DollarItem(sql[i..])
      == if end < |sql| && sql[end] == '$' then GoOnIf(FindRest(sql[end + 1..], sql[i..end + 1])) else GoOn(sql[i + 1..], false)
  {
    Advanced(sql, i, i + 1);
    if end < |sql| { Advanced(sql, i, end + 1); }
  }

  /** Moving the index from `i` to `j` is reading `sql[i..j]`. */
  lemma Advanced(sql: string, i: nat, j: nat)
    requires i <= j <= |sql|
    ensures sql[i..][..j - i] == sql[i..j] && sql[i..][j - i..] == sql[j..] && sql[..i] + sql[i..][..j - i] == sql[..j]
    ensures |sql[i..]| - |sql[j..]| == j - i
  {
  }

  method SkipLine(sql: string, from: nat) returns (i: nat)
    requires from <= |sql|
    ensures from <= i <= |sql| && sql[i..] == LineRest(sql[from..])
  {
    i := from;
    while i < |sql| && sql[i] != '\n'
      invariant from <= i <= |sql| && LineRest(sql[i..]) == LineRest(sql[from..])
    {
      assert sql[i..][1..] == sql[i + 1..];
      i := i + 1;
    }
  }

  lemma CommentAt(sql: string, i: nat, depth: nat)
    requires i < |sql| && depth > 0
    ensures CommentRest(sql[i..], depth)
      == if At(sql, i, "/*") then CommentRest(sql[i + 2..], depth + 1)
         else if At(sql, i, "*/") then CommentRest(sql[i + 2..], depth - 1)
         else CommentRest(sql[i + 1..], depth)
  {
    AtIsStart(sql, i, "/*");
    AtIsStart(sql, i, "*/");
    Advanced(sql, i, i + 1);
  }

  method SkipComment(sql: string, from: nat) returns (i: nat, depth: nat)
    requires from <= |sql|
    ensures from <= i <= |sql|
    ensures CommentRest(sql[from..], 1) == if depth == 0 then Some(sql[i..]) else None
  {
    i, depth := from, 1;
    while i < |sql| && depth > 0
      invariant from <= i <= |sql| && CommentRest(sql[i..], depth) == CommentRest(sql[from..], 1)
      decreases |sql| - i
    {
      CommentAt(sql, i, depth);
      if At(sql, i, "/*") {
        depth, i := depth + 1, i + 2;
      } else if At(sql, i, "*/") {
        depth, i := depth - 1, i + 2;
      } else {
        i := i + 1;
      }
    }
  }

  method SkipQuote(sql: string, from: nat, quote: char, escapeLiteral: bool) returns (i: nat, closed: bool)
    requires from <= |sql|
    ensures from <= i <= |sql|
    ensures QuoteRest(sql[from..], quote, escapeLiteral) == if closed then Some(sql[i..]) else None
  {
    i, closed := from, false;
    while i < |sql|
      invariant from <= i <= |sql| && QuoteRest(sql[i..], quote, escapeLiteral) == QuoteRest(sql[from..], quote, escapeLiteral)
      decreases |sql| - i
    {
      assert sql[i..][1..] == sql[i + 1..];
      assert i + 1 < |sql| ==> sql[i..][2..] == sql[i + 2..];
      if escapeLiteral && sql[i] == '\\' && i + 1 < |sql| {
        i := i + 2;
        continue;
      }
      if sql[i] == quote {
        if i + 1 < |sql| && sql[i + 1] == quote {
          i := i + 2;
          continue;
        }
        return i + 1, true;
      }
      i := i + 1;
    }
  }

  method SkipWord(sql: string, from: nat) returns (end: nat)
    requires from <= |sql|
    ensures end == from + WordLength(sql[from..])
  {
    end := from;
    while end < |sql| && IsSqlWord(sql[end])
      invariant from <= end <= |sql| && end + WordLength(sql[end..]) == from + WordLength(sql[from..])
    {
      assert sql[end..][1..] == sql[end + 1..];
      end := end + 1;
    }
  }

  /** `strings.Index` from a position on. */
  method Index(sql: string, from: nat, delimiter: string) returns (at: Option<nat>)
    requires from <= |sql|
    ensures at.Some? ==> from <= at.value && at.value + |delimiter| <= |sql|
    ensures FindRest(sql[from..], delimiter) == if at.Some? then Some(sql[at.value + |delimiter|..]) else None
  {
    var k := from;
    while k <= |sql|
      invariant from <= k <= |sql| + 1
      invariant k <= |sql| ==> FindRest(sql[k..], delimiter) == FindRest(sql[from..], delimiter)
      invariant k == |sql| + 1 ==> FindRest(sql[from..], delimiter) == None
    {
      if k + |delimiter| <= |sql| && sql[k..k + |delimiter|] == delimiter {
        assert sql[k..][..|delimiter|] == delimiter && sql[k..][|delimiter|..] == sql[k + |delimiter|..];
        return Some(k);
      }
      assert k + |delimiter| <= |sql| ==> sql[k..][..|delimiter|] == sql[k..k + |delimiter|];
      if k < |sql| { assert sql[k..][1..] == sql[k + 1..]; }
      k := k + 1;
    }
    return None;
  }
}
