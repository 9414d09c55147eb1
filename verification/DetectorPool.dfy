/** The pool of detector workers and the merge of their results
    (`internal/recording/analysis_service.go`).

    `detect` gives the outcome of each pass; the pool decides who runs it and when.  Handing an
    index over an unbuffered channel is one step of the sender and the receiver together. */
module DetectorPool {
  import opened Prelude
  import opened Detectors

  type Outcome = Result<Candidates, string>

  datatype WorkerState = Waiting | Running(pass: nat) | Gone

  /** `next` passes have been handed out; `started` counts how often each pass was begun. */
  datatype Pool = Pool(next: nat, closed: bool, workers: seq<WorkerState>, results: seq<Option<Outcome>>, started: seq<nat>)

  datatype Action = HandOver(worker: nat) | Complete(worker: nat) | Close | Leave(worker: nat)

  type Detect = nat -> Outcome

  function Opened(passes: nat, workers: nat): Pool {
    Pool(0, false, seq(workers, _ => Waiting), seq(passes, _ => None), seq(passes, _ => 0))
  }

  predicate Enabled(p: Pool, a: Action) {
    match a
    case HandOver(w) => w < |p.workers| && p.workers[w] == Waiting && p.next < |p.results| && |p.started| == |p.results|
    case Complete(w) => w < |p.workers| && p.workers[w].Running? && p.workers[w].pass < |p.results|
    case Close => p.next == |p.results| && !p.closed
    case Leave(w) => w < |p.workers| && p.workers[w] == Waiting && p.closed
  }

  function Step(detect: Detect, p: Pool, a: Action): Pool {
    if !Enabled(p, a) then p
    else
      match a
      case HandOver(w) =>
        p.(workers := p.workers[w := Running(p.next)], next := p.next + 1, started := p.started[p.next := p.started[p.next] + 1])
      case Complete(w) =>
        p.(workers := p.workers[w := Waiting], results := p.results[p.workers[w].pass := Some(detect(p.workers[w].pass))])
      case Close => p.(closed := true)
      case Leave(w) => p.(workers := p.workers[w := Gone])
  }

  function Run(detect: Detect, p: Pool, actions: seq<Action>): Pool
    decreases |actions|
  {
    if actions == [] then p else Run(detect, Step(detect, p, actions[0]), actions[1..])
  }

  /** `workers.Wait()` returns. */
  predicate Finished(p: Pool) { forall w :: 0 <= w < |p.workers| ==> p.workers[w] == Gone }

  /** Every pass handed out is either recorded or with exactly one worker, and was begun once. */
  predicate Inv(detect: Detect, p: Pool) {
    && |p.started| == |p.results| && p.next <= |p.results| && (p.closed ==> p.next == |p.results|)
    && (forall i :: 0 <= i < |p.results| ==> p.started[i] == if i < p.next then 1 else 0)
    && (forall i :: 0 <= i < |p.results| && p.results[i].Some? ==> i < p.next && p.results[i] == Some(detect(i)))
    && (forall i :: 0 <= i < p.next ==> p.results[i].Some? || HeldBySome(p, i))
    && (forall w :: 0 <= w < |p.workers| && p.workers[w].Running? ==> p.workers[w].pass < p.next && p.results[p.workers[w].pass].None?)
    && (forall v, w :: 0 <= v < w < |p.workers| && p.workers[v].Running? && p.workers[w].Running? ==> p.workers[v].pass != p.workers[w].pass)
    && (forall w :: 0 <= w < |p.workers| && p.workers[w] == Gone ==> p.closed)
  }

  predicate HeldBySome(p: Pool, i: nat) { exists w :: 0 <= w < |p.workers| && p.workers[w] == Running(i) }

  lemma StepKeeps(detect: Detect, p: Pool, a: Action)
    requires Inv(detect, p)
    ensures Inv(detect, Step(detect, p, a)) && |Step(detect, p, a).workers| == |p.workers| && |Step(detect, p, a).results| == |p.results|
  {
    if Enabled(p, a) {
      var p' := Step(detect, p, a);
      forall i | 0 <= i < p'.next ensures p'.results[i].Some? || HeldBySome(p', i) {
        if a.HandOver? && i == p.next {
          assert p'.workers[a.worker] == Running(i);
        } else if !p.results[i].Some? {
          var w :| 0 <= w < |p.workers| && p.workers[w] == Running(i);
          assert !(a.Complete? && a.worker == w) ==> p'.workers[w] == Running(i);
        }
      }
    }
  }

  lemma {:induction false} RunKeeps(detect: Detect, p: Pool, actions: seq<Action>)
    requires Inv(detect, p)
    ensures
      var end := Run(detect, p, actions);
      Inv(detect, end) && |end.workers| == |p.workers| && |end.results| == |p.results|
    decreases |actions|
  {
    if actions != [] {
      StepKeeps(detect, p, actions[0]);
      RunKeeps(detect, Step(detect, p, actions[0]), actions[1..]);
    }
  }

  function Sequential(detect: Detect, passes: nat): seq<Outcome> { seq(passes, i requires 0 <= i < passes => detect(i)) }

  function Recorded(p: Pool): seq<Outcome>
    requires forall i :: 0 <= i < |p.results| ==> p.results[i].Some?
  {
    seq(|p.results|, i requires 0 <= i < |p.results| => p.results[i].value)
  }

  /** For any number of workers and any interleaving: when the workers are done, every pass has run
      exactly once and the recorded results are those of running the passes one after another. */
  lemma PoolIsSequential(detect: Detect, passes: nat, workers: nat, actions: seq<Action>)
    requires workers >= 1 && Finished(Run(detect, Opened(passes, workers), actions))
    ensures
      var p := Run(detect, Opened(passes, workers), actions);
      && |p.started| == passes && (forall i :: 0 <= i < passes ==> p.started[i] == 1)
      && (forall i :: 0 <= i < |p.results| ==> p.results[i].Some?)
      && Recorded(p) == Sequential(detect, passes)
  {
    RunKeeps(detect, Opened(passes, workers), actions);
    var p := Run(detect, Opened(passes, workers), actions);
    assert p.workers[0] == Gone;
    forall i | 0 <= i < |p.results| ensures p.results[i] == Some(detect(i)) {
      assert p.results[i].Some? || HeldBySome(p, i);
    }
  }

  /** The pool never gets stuck: as long as it is not finished, some step is possible. */
  lemma NeverStuck(detect: Detect, p: Pool)
    requires Inv(detect, p) && !Finished(p)
    ensures exists a :: Enabled(p, a) && Step(detect, p, a) != p
  {
    var w :| 0 <= w < |p.workers| && p.workers[w] != Gone;
    if p.workers[w].Running? {
      assert Step(detect, p, Complete(w)).workers[w] == Waiting;
      assert Enabled(p, Complete(w));
    } else if p.next < |p.results| {
      assert Step(detect, p, HandOver(w)).next == p.next + 1;
      assert Enabled(p, HandOver(w));
    } else if !p.closed {
      assert Step(detect, p, Close).closed;
      assert Enabled(p, Close);
    } else {
      assert Step(detect, p, Leave(w)).workers[w] == Gone;
      assert Enabled(p, Leave(w));
    }
  }

  // ---- Merging ------------------------------------------------------------------------

  function WithPass(candidates: Candidates, pass: nat): (marked: Candidates)
    ensures |marked| == |candidates| && forall i :: 0 <= i < |candidates| ==> marked[i] == candidates[i].(pass := pass)
  {
    if candidates == [] then [] else WithPass(candidates[..|candidates| - 1], pass) + [candidates[|candidates| - 1].(pass := pass)]
  }

  /** `arrange` is the sort within one pass. */
  function Merged(arrange: Candidates -> Candidates, results: seq<Outcome>): Outcome {
    if results == [] then Ok([])
    else
      match Merged(arrange, results[..|results| - 1])
      case Err(e) => Err(e)
      case Ok(before) =>
        match results[|results| - 1]
        case Err(e) => Err(e)
        case Ok(candidates) => Ok(before + WithPass(arrange(candidates), |results| - 1))
  }

  function CountOf(category: Category, candidates: Candidates): nat {
    if candidates == [] then 0
    else CountOf(category, candidates[..|candidates| - 1]) + if candidates[|candidates| - 1].category == category then 1 else 0
  }

  function Digits(n: nat): string { if n < 10 then [('0' as int + n) as char] else Digits(n / 10) + [('0' as int + n % 10) as char] }

  /** `%03d`. */
  function Padded(n: nat): string { if n < 10 then "00" + Digits(n) else if n < 100 then "0" + Digits(n) else Digits(n) }

  function Name(category: Category): string {
    match category
    case LanguageSwitch => "language_switch"
    case VerbGrammar => "verb_grammar"
    case NounsDeterminers => "nouns_determiners"
    case Prepositions => "prepositions"
    case Vocabulary => "vocabulary"
    case SentenceStructure => "sentence_structure"
    case Naturalness => "naturalness"
  }

  function Identifier(name: string, n: nat): string { name + ("-" + Padded(n)) }

  function WithIds(candidates: Candidates): (identified: Candidates)
    ensures |identified| == |candidates|
  {
    if candidates == [] then []
    else
      var last := candidates[|candidates| - 1];
      WithIds(candidates[..|candidates| - 1]) + [last.(id := Identifier(Name(last.category), CountOf(last.category, candidates)))]
  }

  /** What `runDetectorsWithCheckpoint` returns for the given results. */
  function Identified(arrange: Candidates -> Candidates, results: seq<Outcome>): Outcome {
    match Merged(arrange, results)
    case Ok(candidates) => Ok(WithIds(candidates))
    case Err(e) => Err(e)
  }

  method MergeResults(arrange: Candidates -> Candidates, results: seq<Outcome>) returns (merged: Outcome)
    ensures merged == Identified(arrange, results)
  {
    var all: Candidates := [];
    for index := 0 to |results|
      invariant Merged(arrange, results[..index]) == Ok(all)
    {
      assert results[..index + 1][..index] == results[..index];
      if results[index].Err? {
        FirstErrorWins(arrange, results, index);
        return results[index];
      }
      all := all + WithPass(arrange(results[index].value), index);
    }
    assert results[..|results|] == results;
    var identified := AssignIds(all);
    return Ok(identified);
  }

  lemma {:induction false} FirstErrorWins(arrange: Candidates -> Candidates, results: seq<Outcome>, index: nat)
    requires index < |results| && Merged(arrange, results[..index]).Ok? && results[index].Err?
    ensures Merged(arrange, results) == results[index]
    decreases |results|
  {
    if index < |results| - 1 {
      assert results[..|results| - 1][..index] == results[..index];
      FirstErrorWins(arrange, results[..|results| - 1], index);
    } else {
      assert results[..|results| - 1] == results[..index];
    }
  }

  /** The error of a merge is that of the first pass that failed; without one every pass succeeded. */
  lemma {:induction false} MergedErrorIs(arrange: Candidates -> Candidates, results: seq<Outcome>)
    ensures
      var merged := Merged(arrange, results);
      if merged.Ok? then forall k :: 0 <= k < |results| ==> results[k].Ok?
      else exists k :: 0 <= k < |results| && results[k] == merged && forall j :: 0 <= j < k ==> results[j].Ok?
  {
    if results != [] {
      var init, last := results[..|results| - 1], |results| - 1;
      MergedErrorIs(arrange, init);
      assert forall k :: 0 <= k < last ==> init[k] == results[k];
      if Merged(arrange, init).Err? {
        var k :| 0 <= k < |init| && init[k] == Merged(arrange, init) && forall j :: 0 <= j < k ==> init[j].Ok?;
        assert results[k] == Merged(arrange, results);
      } else if results[last].Err? {
        assert results[last] == Merged(arrange, results);
      }
    }
  }

  method AssignIds(candidates: Candidates) returns (identified: Candidates)
    ensures identified == WithIds(candidates)
  {
    identified := [];
    var counts: map<Category, nat> := map[];
    for index := 0 to |candidates|
      invariant identified == WithIds(candidates[..index])
      invariant forall c :: (if c in counts then counts[c] else 0) == CountOf(c, candidates[..index])
    {
      assert candidates[..index + 1][..index] == candidates[..index];
      var category := candidates[index].category;
      var count := (if category in counts then counts[category] else 0) + 1;
      assert count == CountOf(category, candidates[..index + 1]);
      counts := counts[category := count];
      identified := identified + [candidates[index].(id := Identifier(Name(category), count))];
    }
    assert candidates[..|candidates|] == candidates;
  }

  // ---- What an identifier says --------------------------------------------------------

  /** The candidates of the category among the first `n`. */
  function Earlier(category: Category, candidates: Candidates, n: nat): set<nat>
    requires n <= |candidates|
  {
    set i | 0 <= i < n && candidates[i].category == category
  }

  lemma EarlierSnoc(category: Category, candidates: Candidates, n: nat)
    requires n < |candidates|
    ensures |Earlier(category, candidates, n + 1)| == |Earlier(category, candidates, n)| + if candidates[n].category == category then 1 else 0
  {
    var before, after := Earlier(category, candidates, n), Earlier(category, candidates, n + 1);
    forall i ensures i in after <==> i in before || (i == n && candidates[n].category == category) {}
    SizeOf(before, after, n, candidates[n].category == category);
  }

  lemma SizeOf(before: set<nat>, after: set<nat>, n: nat, more: bool)
    requires n !in before && forall i: nat :: i in after <==> i in before || (i == n && more)
    ensures |after| == |before| + if more then 1 else 0
  {
    assert after == if more then before + {n} else before;
  }

  lemma {:induction false} CountIs(category: Category, candidates: Candidates, n: nat)
    requires n <= |candidates|
    ensures CountOf(category, candidates[..n]) == |Earlier(category, candidates, n)|
  {
    if n == 0 {
      assert Earlier(category, candidates, 0) == {};
    } else {
      CountIs(category, candidates, n - 1);
      EarlierSnoc(category, candidates, n - 1);
      assert candidates[..n][..n - 1] == candidates[..n - 1];
    }
  }

  /** The candidates of a category are numbered from 1 in their order. */
  lemma IdIsNumbered(candidates: Candidates, i: nat)
    requires i < |candidates|
    ensures
      var category := candidates[i].category;
      WithIds(candidates)[i] == candidates[i].(id := Name(category) + ("-" + Padded(|Earlier(category, candidates, i)| + 1)))
  {
    var category := candidates[i].category;
    IdAt(candidates, i);
    CountIs(category, candidates, i + 1);
    EarlierSnoc(category, candidates, i);
  }

  /** A padded number has three digits or more, no more than it needs, and can be read back. */
  lemma PaddedIs(n: nat)
    ensures ValueOf(Padded(n)) == n && |Padded(n)| >= 3 && (n < 1000 ==> |Padded(n)| == 3)
    ensures forall i :: 0 <= i < |Padded(n)| ==> '0' <= Padded(n)[i] <= '9'
  {
    PaddedValue(n);
    DigitsAre(n);
    if 100 <= n { DigitsAre(n / 10); }
  }

  lemma {:induction false} DigitsAre(n: nat)
    ensures forall i :: 0 <= i < |Digits(n)| ==> '0' <= Digits(n)[i] <= '9'
    ensures |Digits(n)| >= 1 && (n >= 10 ==> |Digits(n)| == |Digits(n / 10)| + 1)
  {
    if n >= 10 { DigitsAre(n / 10); }
  }

  // ---- Identifiers are distinct -------------------------------------------------------

  function ValueOf(digits: string): int { if digits == "" then 0 else ValueOf(digits[..|digits| - 1]) * 10 + (digits[|digits| - 1] as int - '0' as int) }

  lemma {:induction false} DigitsValue(n: nat)
    ensures ValueOf(Digits(n)) == n && Digits(n) != "" && forall i :: 0 <= i < |Digits(n)| ==> Digits(n)[i] != '-'
  {
    if n < 10 {
      assert Digits(n)[..0] == "";
    } else {
      DigitsValue(n / 10);
      assert Digits(n)[..|Digits(n)| - 1] == Digits(n / 10);
    }
  }

  lemma {:induction false} ZeroesAddNothing(digits: string)
    ensures ValueOf("0" + digits) == ValueOf(digits)
  {
    if digits == "" {
      assert ("0" + digits)[..0] == "";
    } else {
      ZeroesAddNothing(digits[..|digits| - 1]);
      assert ("0" + digits)[..|digits|] == "0" + digits[..|digits| - 1];
    }
  }

  lemma PaddedValue(n: nat)
    ensures ValueOf(Padded(n)) == n && forall i :: 0 <= i < |Padded(n)| ==> Padded(n)[i] != '-'
  {
    DigitsValue(n);
    ZeroesAddNothing(Digits(n));
    ZeroesAddNothing("0" + Digits(n));
    assert "00" + Digits(n) == "0" + ("0" + Digits(n));
  }

  predicate NoDash(s: string) { forall i :: 0 <= i < |s| ==> s[i] != '-' }

  lemma DashSplits(c: string, x: string, d: string, y: string)
    requires c + ("-" + x) == d + ("-" + y) && NoDash(x) && NoDash(y)
    ensures c == d && x == y
  {
    var id := c + ("-" + x);
    DashAt(c, x, id, |d|);
    DashAt(d, y, id, |c|);
    assert id[..|c|] == c && id[..|d|] == d;
    assert id[|c| + 1..] == x && id[|d| + 1..] == y;
  }

  lemma DashAt(c: string, x: string, id: string, k: nat)
    requires id == c + ("-" + x) && NoDash(x) && k < |id| && (k > |c| ==> id[k] == '-')
    ensures k <= |c| && id[|c|] == '-'
  {
    forall j | |c| < j < |id| ensures id[j] != '-' { assert id[j] == x[j - |c| - 1]; }
  }

  lemma NamesDiffer(c: Category, d: Category)
    requires Name(c) == Name(d)
    ensures c == d
  {
    assert Name(VerbGrammar)[0] == 'v' && Name(Prepositions)[0] == 'p';
  }

  /** Name and count can be read off an identifier, whatever the name contains. */
  lemma IdentifierIsInjective(c: string, m: nat, d: string, n: nat)
    requires Identifier(c, m) == Identifier(d, n)
    ensures c == d && m == n
  {
    PaddedValue(m);
    PaddedValue(n);
    assert (d + ("-" + Padded(n)))[|d|] == '-';
    assert (c + ("-" + Padded(m)))[|c|] == '-';
    DashSplits(c, Padded(m), d, Padded(n));
  }

  lemma {:induction false} CountGrows(category: Category, candidates: Candidates, i: nat)
    requires i <= |candidates|
    ensures CountOf(category, candidates[..i]) <= CountOf(category, candidates)
    decreases |candidates|
  {
    if i < |candidates| {
      assert candidates[..|candidates| - 1][..i] == candidates[..i];
      CountGrows(category, candidates[..|candidates| - 1], i);
    } else {
      assert candidates[..i] == candidates;
    }
  }

  lemma {:induction false} IdAt(candidates: Candidates, i: nat)
    requires i < |candidates|
    ensures WithIds(candidates)[i] == candidates[i].(id := WithIds(candidates)[i].id)
    ensures WithIds(candidates)[i].id == Identifier(Name(candidates[i].category), CountOf(candidates[i].category, candidates[..i + 1]))
    decreases |candidates|
  {
    if i < |candidates| - 1 {
      IdAt(candidates[..|candidates| - 1], i);
      assert candidates[..|candidates| - 1][..i + 1] == candidates[..i + 1];
    } else {
      assert candidates[..i + 1] == candidates;
    }
  }

  lemma CountsDiffer(candidates: Candidates, i: nat, j: nat)
    requires i < j < |candidates| && candidates[i].category == candidates[j].category
    ensures CountOf(candidates[i].category, candidates[..i + 1]) < CountOf(candidates[j].category, candidates[..j + 1])
  {
    var upTo := candidates[..j + 1];
    assert upTo[..|upTo| - 1] == candidates[..j] && candidates[..j][..i + 1] == candidates[..i + 1];
    CountGrows(candidates[i].category, candidates[..j], i + 1);
  }

  /** All identifiers of a merge are different. */
  lemma IdsAreDistinct(candidates: Candidates, i: nat, j: nat)
    requires i < j < |candidates|
    ensures WithIds(candidates)[i].id != WithIds(candidates)[j].id
  {
    IdAt(candidates, i);
    IdAt(candidates, j);
    if WithIds(candidates)[i].id == WithIds(candidates)[j].id {
      IdentifierIsInjective(Name(candidates[i].category), CountOf(candidates[i].category, candidates[..i + 1]),
                            Name(candidates[j].category), CountOf(candidates[j].category, candidates[..j + 1]));
      NamesDiffer(candidates[i].category, candidates[j].category);
      CountsDiffer(candidates, i, j);
    }
  }

  /** However the workers were scheduled: what the pool's results are merged to is what running
      the passes one after another would be merged to, and its identifiers are distinct. */
  lemma MergeIsSequential(detect: Detect, passes: nat, workers: nat, actions: seq<Action>, arrange: Candidates -> Candidates)
    requires workers >= 1 && Finished(Run(detect, Opened(passes, workers), actions))
    ensures
      var p := Run(detect, Opened(passes, workers), actions);
      && (forall i :: 0 <= i < |p.results| ==> p.results[i].Some?)
      && var merged := Identified(arrange, Recorded(p));
      && merged == Identified(arrange, Sequential(detect, passes))
      && (merged.Ok? ==> forall i, j :: 0 <= i < j < |merged.value| ==> merged.value[i].id != merged.value[j].id)
  {
    PoolIsSequential(detect, passes, workers, actions);
    var merged := Merged(arrange, Sequential(detect, passes));
    if merged.Ok? {
      forall i, j | 0 <= i < j < |merged.value| ensures WithIds(merged.value)[i].id != WithIds(merged.value)[j].id {
        IdsAreDistinct(merged.value, i, j);
      }
    }
  }
}
