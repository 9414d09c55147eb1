/** The whitespace handling that stored texts go through: Go's `strings.TrimSpace`,
    `strings.Fields` and `strings.Join`, and `NormalizeTranscript`
    (`internal/recording/normalization.go`). */
module Text {

  const TRANSCRIPT_LIMIT := 20000

  /** `unicode.IsSpace`. */
  predicate IsSpace(c: char) {
    || '\t' <= c <= '\r' || c == ' ' || c == '\U{85}' || c == '\U{A0}' || c == '\U{1680}'
    || '\U{2000}' <= c <= '\U{200A}' || c == '\U{2028}' || c == '\U{2029}' || c == '\U{202F}' || c == '\U{205F}' || c == '\U{3000}'
  }

  /** Whether a character of the given script occurs. */
  predicate Has(script: char -> bool, text: string) { exists i :: 0 <= i < |text| && script(text[i]) }

  predicate IsWord(w: string) { w != "" && forall i :: 0 <= i < |w| ==> !IsSpace(w[i]) }

  predicate AreWords(ws: seq<string>) { forall i :: 0 <= i < |ws| ==> IsWord(ws[i]) }

  function TrimLeft(s: string): string { if s != "" && IsSpace(s[0]) then TrimLeft(s[1..]) else s }

  function TrimRight(s: string): string { if s != "" && IsSpace(s[|s| - 1]) then TrimRight(s[..|s| - 1]) else s }

  function TrimSpace(s: string): string { TrimRight(TrimLeft(s)) }

  predicate Blank(s: string) { forall i :: 0 <= i < |s| ==> IsSpace(s[i]) }

  function LeadingWord(s: string): (n: nat)
    ensures n <= |s| && (forall i :: 0 <= i < n ==> !IsSpace(s[i])) && (n < |s| ==> IsSpace(s[n]))
  {
    if s == "" || IsSpace(s[0]) then 0 else 1 + LeadingWord(s[1..])
  }

  /** `strings.Fields`. */
  function Fields(s: string): (ws: seq<string>)
    ensures AreWords(ws)
    decreases |s|
  {
    if s == "" then []
    else if IsSpace(s[0]) then Fields(s[1..])
    else [s[..LeadingWord(s)]] + Fields(s[LeadingWord(s)..])
  }

  function Join(parts: seq<string>): string {
    if parts == [] then "" else if |parts| == 1 then parts[0] else parts[0] + " " + Join(parts[1..])
  }

  function Collapse(s: string): string { Join(Fields(TrimSpace(s))) }

  function Truncate(s: string, limit: nat): string { if |s| <= limit then s else s[..limit] }

  function NormalizeTranscript(s: string): string { Truncate(Collapse(s), TRANSCRIPT_LIMIT) }

  // ---- Laws ---------------------------------------------------------------------------

  /** A text of up to 20000 characters only loses white space; a longer one is cut there. */
  lemma NormalizeCuts(s: string)
    ensures |Join(Fields(s))| <= 20000 ==> NormalizeTranscript(s) == Join(Fields(s))
    ensures |Join(Fields(s))| > 20000 ==> NormalizeTranscript(s) == Join(Fields(s))[..20000]
  {
    CollapseIsFields(s);
  }

  lemma {:induction false} FieldsSkipWord(w: string, rest: string)
    requires IsWord(w) && (rest == "" || IsSpace(rest[0]))
    ensures Fields(w + rest) == [w] + Fields(rest)
  {
    var s := w + rest;
    LeadingWordIs(s, |w|);
    assert s[..|w|] == w && s[|w|..] == rest;
  }

  lemma {:induction false} LeadingWordIs(s: string, n: nat)
    requires n <= |s| && (forall i :: 0 <= i < n ==> !IsSpace(s[i])) && (n < |s| ==> IsSpace(s[n]))
    ensures LeadingWord(s) == n
  {
    if n > 0 { LeadingWordIs(s[1..], n - 1); }
  }

  lemma Associates<T>(a: seq<T>, b: seq<T>, c: seq<T>)
    ensures a + (b + c) == (a + b) + c
  {
  }

  lemma SplitPrefix(a: string, n: nat, c: char, b: string)
    requires n <= |a|
    ensures a[..n] + a[n..] == a && a[..n] + (a[n..] + [c] + b) == a + [c] + b
    ensures (a + [c] + b)[n..] == a[n..] + [c] + b
  {
  }

  lemma FieldsSplitWord(w: string, a: string, rest: string, b: string)
    requires IsWord(w) && (a == "" || IsSpace(a[0])) && rest != "" && IsSpace(rest[0])
    requires Fields(rest) == Fields(a) + Fields(b)
    ensures Fields(w + rest) == Fields(w + a) + Fields(b)
  {
    FieldsSkipWord(w, a);
    FieldsSkipWord(w, rest);
    Associates([w], Fields(a), Fields(b));
  }

  /** A whitespace character separates the words on its left from the words on its right. */
  lemma {:induction false} FieldsSplit(a: string, c: char, b: string)
    requires IsSpace(c)
    ensures Fields(a + [c] + b) == Fields(a) + Fields(b)
    decreases |a|
  {
    var s := a + [c] + b;
    if a == "" {
      assert s == [c] + b && s[1..] == b;
    } else if IsSpace(a[0]) {
      FieldsSplit(a[1..], c, b);
      SplitPrefix(a, 1, c, b);
    } else {
      var n := LeadingWord(a);
      FieldsSplit(a[n..], c, b);
      var rest := a[n..] + [c] + b;
      FieldsSplitWord(a[..n], a[n..], rest, b);
      SplitPrefix(a, n, c, b);
    }
  }

  lemma {:induction false} FieldsOfJoin(ws: seq<string>)
    requires AreWords(ws)
    ensures Fields(Join(ws)) == ws
  {
    if ws == [] {
    } else if |ws| == 1 {
      FieldsSkipWord(ws[0], "");
      assert ws[0] + "" == ws[0];
    } else {
      FieldsOfJoin(ws[1..]);
      var rest := " " + Join(ws[1..]);
      assert Join(ws) == ws[0] + rest && rest[1..] == Join(ws[1..]);
      FieldsSkipWord(ws[0], rest);
    }
  }

  lemma {:induction false} FieldsOfTrimRight(s: string)
    ensures Fields(TrimRight(s)) == Fields(s)
  {
    if s != "" && IsSpace(s[|s| - 1]) {
      var init := s[..|s| - 1];
      FieldsOfTrimRight(init);
      FieldsSplit(init, s[|s| - 1], "");
      assert s == init + [s[|s| - 1]] + "";
    }
  }

  lemma {:induction false} FieldsOfTrimLeft(s: string)
    ensures Fields(TrimLeft(s)) == Fields(s)
  {
    if s != "" && IsSpace(s[0]) { FieldsOfTrimLeft(s[1..]); }
  }

  lemma CollapseIsFields(s: string)
    ensures Collapse(s) == Join(Fields(s))
  {
    FieldsOfTrimLeft(s);
    FieldsOfTrimRight(TrimLeft(s));
  }

  lemma CollapseIdempotent(s: string)
    ensures Collapse(Collapse(s)) == Collapse(s)
  {
    CollapseIsFields(s);
    FieldsOfJoin(Fields(s));
    CollapseIsFields(Collapse(s));
  }

  /** A piece of a joined text that does not end in a space is a joined text itself. */
  lemma {:induction false} PrefixOfJoin(ws: seq<string>, k: nat)
    requires AreWords(ws) && 0 < k <= |Join(ws)| && !IsSpace(Join(ws)[k - 1])
    ensures Join(Fields(Join(ws)[..k])) == Join(ws)[..k]
  {
    var piece, w := Join(ws)[..k], ws[0];
    if k <= |w| {
      assert piece == Join([w[..k]]);
      FieldsOfJoin([w[..k]]);
    } else {
      var rest := Join(ws[1..]);
      var m := k - |w| - 1;
      assert Join(ws) == w + " " + rest;
      PrefixOfJoin(ws[1..], m);
      assert piece == w + " " + rest[..m];
      FieldsOfJoin([w]);
      FieldsSplit(w, ' ', rest[..m]);
      JoinAppend([w], Fields(rest[..m]));
    }
  }

  lemma {:induction false} JoinEndsInWord(ws: seq<string>)
    requires AreWords(ws) && ws != []
    ensures Join(ws) != "" && !IsSpace(Join(ws)[|Join(ws)| - 1])
  {
    if |ws| > 1 { JoinEndsInWord(ws[1..]); }
  }

  lemma {:induction false} CollapseShrinks(s: string)
    ensures |Join(Fields(s))| <= |s|
    decreases |s|
  {
    if s == "" {
    } else if IsSpace(s[0]) {
      CollapseShrinks(s[1..]);
    } else {
      var rest := s[LeadingWord(s)..];
      if rest != "" {
        assert Fields(rest) == Fields(rest[1..]);
        CollapseShrinks(rest[1..]);
        if Fields(rest) != [] { JoinAppend([s[..LeadingWord(s)]], Fields(rest)); }
      }
    }
  }

  /** Normalising twice is normalising once, unless the text is cut right behind a space. */
  lemma NormalizeIdempotentIff(s: string)
    ensures NormalizeTranscript(NormalizeTranscript(s)) == NormalizeTranscript(s)
      <==> !(|Collapse(s)| > TRANSCRIPT_LIMIT && IsSpace(Collapse(s)[TRANSCRIPT_LIMIT - 1]))
  {
    CollapseIdempotent(s);
    CollapseIsFields(s);
    var once := NormalizeTranscript(s);
    CollapseIsFields(once);
    if |Collapse(s)| > TRANSCRIPT_LIMIT {
      if IsSpace(once[TRANSCRIPT_LIMIT - 1]) {
        CollapseShrinks(once);
        if Fields(once) != [] { JoinEndsInWord(Fields(once)); }
      } else {
        PrefixOfJoin(Fields(s), TRANSCRIPT_LIMIT);
      }
    }
  }

  /** A word of 19999 characters and another one: cut to 20000, the text ends in the space between
      them, which the second normalisation drops. */
  lemma NormalizingTwiceCanDiffer()
    ensures
      var s := seq(TRANSCRIPT_LIMIT - 1, _ => 'a') + " b";
      NormalizeTranscript(NormalizeTranscript(s)) != NormalizeTranscript(s)
  {
    var w := seq(TRANSCRIPT_LIMIT - 1, _ => 'a');
    assert IsWord(w) && IsWord("b");
    FieldsOfJoin([w, "b"]);
    assert Join([w, "b"]) == w + " " + "b" == w + " b";
    CollapseIsFields(w + " b");
    NormalizeIdempotentIff(w + " b");
  }

  lemma {:induction false} JoinAppend(a: seq<string>, b: seq<string>)
    requires a != [] && b != []
    ensures Join(a + b) == Join(a) + " " + Join(b)
  {
    if |a| == 1 {
      assert (a + b)[1..] == b;
    } else {
      JoinAppend(a[1..], b);
      assert (a + b)[1..] == a[1..] + b;
    }
  }

  predicate Collapsed(s: string) { s != "" && Collapse(s) == s }

  /** Joining collapsed parts gives a collapsed text. */
  lemma {:induction false} JoinIsCollapsed(parts: seq<string>)
    requires parts != [] && forall i :: 0 <= i < |parts| ==> Collapsed(parts[i])
    ensures Collapsed(Join(parts)) && Fields(Join(parts)) != []
  {
    CollapseIsFields(parts[0]);
    if |parts| > 1 {
      var rest := Join(parts[1..]);
      JoinIsCollapsed(parts[1..]);
      FieldsSplit(parts[0], ' ', rest);
      assert parts[0] + [' '] + rest == Join(parts);
      CollapseIsFields(rest);
      JoinAppend(Fields(parts[0]), Fields(rest));
      CollapseIsFields(Join(parts));
    }
  }

  lemma {:induction false} TrimRightBlank(s: string)
    ensures TrimRight(s) == "" <==> Blank(s)
  {
    if s != "" && IsSpace(s[|s| - 1]) { TrimRightBlank(s[..|s| - 1]); }
  }

  lemma {:induction false} TrimLeftKeeps(s: string)
    ensures Blank(TrimLeft(s)) <==> Blank(s)
  {
    if s != "" && IsSpace(s[0]) {
      TrimLeftKeeps(s[1..]);
      assert forall i :: 0 < i < |s| ==> s[i] == s[1..][i - 1];
    }
  }

  lemma TrimBlank(s: string)
    ensures TrimSpace(s) == "" <==> Blank(s)
  {
    TrimLeftKeeps(s);
    TrimRightBlank(TrimLeft(s));
  }

  /** A blank text normalises to nothing and nothing else does. */
  lemma NormalizeBlank(s: string)
    ensures NormalizeTranscript(s) == "" <==> Blank(s)
  {
    CollapseIsFields(s);
    FieldsBlank(s);
    if Fields(s) != [] { assert IsWord(Fields(s)[0]); }
  }

  lemma {:induction false} FieldsBlank(s: string)
    ensures Fields(s) == [] <==> Blank(s)
    decreases |s|
  {
    if s != "" && IsSpace(s[0]) {
      FieldsBlank(s[1..]);
      assert forall i :: 0 < i < |s| ==> s[i] == s[1..][i - 1];
    }
  }
}
