/** The activity ledger (`internal/activity/service.go` and `repository.go`).

    Times are microseconds.  A credit is a piece of an accepted interval that no earlier credit
    of the user covers.  The ledger starts out with the credits that migration 0023 derived
    from old recordings. */
module Activity {
  import opened Prelude
  import opened Text
  import opened Sorting

  const MILLISECOND := 1000
  const MAX_INTERVAL := 30 * 1000 * MILLISECOND
  const MAX_AHEAD := 10 * 1000 * MILLISECOND
  const MAX_BATCH := 100

  datatype Kind = Speaking | Review

  datatype Interval = Interval(id: string, kind: Kind, start: int, end: int)

  datatype Span = Span(start: int, end: int)

  datatype Credit = Credit(event: string, piece: nat, kind: Kind, span: Span)

  /** The credit rows of one user, with those marked historical apart. */
  datatype Ledger = Ledger(createdAt: int, events: map<string, Interval>, historical: seq<Credit>, credits: seq<Credit>)

  datatype Error = Invalid | Conflict

  // ---- Points in time -----------------------------------------------------------------

  predicate Within(t: int, start: int, end: int) { start <= t < end }

  function Range(start: int, end: int): set<int> { set t | start <= t < end && Within(t, start, end) }

  function Points(spans: seq<Span>): set<int> {
    if spans == [] then {} else Points(spans[..|spans| - 1]) + Range(spans[|spans| - 1].start, spans[|spans| - 1].end)
  }

  function Total(spans: seq<Span>): int {
    if spans == [] then 0 else Total(spans[..|spans| - 1]) + spans[|spans| - 1].end - spans[|spans| - 1].start
  }

  predicate Apart(a: Span, b: Span) { a.end <= b.start || b.end <= a.start }

  predicate Proper(spans: seq<Span>) { forall i :: 0 <= i < |spans| ==> spans[i].start < spans[i].end }

  predicate Disjoint(spans: seq<Span>) { forall i, j :: 0 <= i < j < |spans| ==> Apart(spans[i], spans[j]) }

  lemma {:induction false} RangeSize(start: int, end: int)
    requires start <= end
    ensures |Range(start, end)| == end - start
    decreases end - start
  {
    if start < end {
      RangeSize(start, end - 1);
      assert Range(start, end) == Range(start, end - 1) + {end - 1};
    }
  }

  lemma {:induction false} PointsAppend(a: seq<Span>, b: seq<Span>)
    ensures Points(a + b) == Points(a) + Points(b)
    decreases |b|
  {
    if b == [] {
      assert a + b == a;
    } else {
      PointsAppend(a, b[..|b| - 1]);
      assert (a + b)[..|a + b| - 1] == a + b[..|b| - 1];
    }
  }

  lemma {:induction false} TotalAppend(a: seq<Span>, b: seq<Span>)
    ensures Total(a + b) == Total(a) + Total(b)
    decreases |b|
  {
    if b == [] {
      assert a + b == a;
    } else {
      TotalAppend(a, b[..|b| - 1]);
      assert (a + b)[..|a + b| - 1] == a + b[..|b| - 1];
    }
  }

  lemma {:induction false} PointIn(spans: seq<Span>, t: int)
    ensures t in Points(spans) <==> exists i :: 0 <= i < |spans| && spans[i].start <= t < spans[i].end
  {
    if spans != [] {
      var init := spans[..|spans| - 1];
      PointIn(init, t);
      if t in Points(init) {
        var i :| 0 <= i < |init| && init[i].start <= t < init[i].end;
        assert spans[i] == init[i];
      }
      if i :| 0 <= i < |spans| && spans[i].start <= t < spans[i].end {
        assert i < |init| ==> init[i] == spans[i];
      }
    }
  }

  /** Disjoint credits count every point of time once. */
  lemma {:induction false} DisjointTotal(spans: seq<Span>)
    requires Proper(spans) && Disjoint(spans)
    ensures Total(spans) == |Points(spans)|
  {
    if spans != [] {
      var init, last := spans[..|spans| - 1], spans[|spans| - 1];
      DisjointTotal(init);
      RangeSize(last.start, last.end);
      forall t | t in Points(init) ensures t !in Range(last.start, last.end) {
        PointIn(init, t);
        var i :| 0 <= i < |init| && init[i].start <= t < init[i].end;
        assert Apart(spans[i], last);
      }
      assert |Points(init) + Range(last.start, last.end)| == |Points(init)| + |Range(last.start, last.end)|;
    }
  }

  // ---- Subtracting what is covered ----------------------------------------------------

  predicate ByStart(spans: seq<Span>) { forall i, j :: 0 <= i <= j < |spans| ==> spans[i].start <= spans[j].start }

  /** What is left of `[cursor, end)`, given the earlier credits in order of their starts. */
  function Gaps(cursor: int, end: int, prior: seq<Span>): seq<Span>
    decreases |prior|
  {
    if prior == [] then (if cursor < end then [Span(cursor, end)] else [])
    else if prior[0].end <= cursor || prior[0].start >= end then Gaps(cursor, end, prior[1..])
    else if prior[0].end >= end then Piece(cursor, prior[0].start)
    else Piece(cursor, prior[0].start) + Gaps(prior[0].end, end, prior[1..])
  }

  function Piece(cursor: int, start: int): (pieces: seq<Span>)
    ensures Points(pieces) == Range(cursor, start)
  {
    if start > cursor then
      assert [Span(cursor, start)][..0] == [];
      [Span(cursor, start)]
    else []
  }

  lemma {:induction false} HeadPoints(spans: seq<Span>)
    requires spans != []
    ensures Points(spans) == Range(spans[0].start, spans[0].end) + Points(spans[1..])
  {
    PointsAppend([spans[0]], spans[1..]);
    assert [spans[0]] + spans[1..] == spans;
    assert Points([spans[0]]) == Points([spans[0]][..0]) + Range(spans[0].start, spans[0].end);
  }

  lemma StartsLater(prior: seq<Span>, from: int)
    requires forall i :: 0 <= i < |prior| ==> from <= prior[i].start
    ensures forall t :: t in Points(prior) ==> from <= t
  {
    forall t | t in Points(prior) ensures from <= t { PointIn(prior, t); }
  }

  predicate After(spans: seq<Span>, cursor: int) { forall i :: 0 <= i < |spans| ==> cursor <= spans[i].start }

  /** The pieces are what the interval has and the earlier credits have not. */
  lemma {:induction false} GapsSubtract(cursor: int, end: int, prior: seq<Span>)
    requires ByStart(prior)
    ensures Points(Gaps(cursor, end, prior)) == Range(cursor, end) - Points(prior)
    decreases |prior|
  {
    if prior != [] {
      var p, rest := prior[0], prior[1..];
      HeadPoints(prior);
      StartsLater(rest, p.start);
      if p.end <= cursor || p.start >= end {
        GapsSubtract(cursor, end, rest);
      } else if p.end < end {
        GapsSubtract(p.end, end, rest);
        PointsAppend(Piece(cursor, p.start), Gaps(p.end, end, rest));
      }
    }
  }

  lemma {:induction false} GapsAreApart(cursor: int, end: int, prior: seq<Span>)
    requires Proper(prior)
    ensures Proper(Gaps(cursor, end, prior)) && Disjoint(Gaps(cursor, end, prior)) && After(Gaps(cursor, end, prior), cursor)
    decreases |prior|
  {
    if prior != [] {
      var p, rest := prior[0], prior[1..];
      if p.end <= cursor || p.start >= end {
        GapsAreApart(cursor, end, rest);
      } else if p.end < end {
        GapsAreApart(p.end, end, rest);
      }
    }
  }

  /** `uncovered`. */
  method Uncovered(input: Span, existing: seq<Span>) returns (pieces: seq<Span>)
    requires input.start < input.end
    ensures pieces == Left(input, existing)
  {
    var prior := Sort(StartsBefore, existing);
    var cursor := input.start;
    pieces := [];
    assert prior[0..] == prior;
    for i := 0 to |prior|
      invariant cursor < input.end
      invariant pieces + Gaps(cursor, input.end, prior[i..]) == Left(input, existing)
    {
      assert prior[i..][1..] == prior[i + 1..];
      if prior[i].end <= cursor || prior[i].start >= input.end {
        continue;
      }
      if prior[i].start > cursor {
        pieces := pieces + [Span(cursor, prior[i].start)];
      }
      cursor := prior[i].end;
      if cursor >= input.end {
        return;
      }
    }
    pieces := pieces + [Span(cursor, input.end)];
  }

  function StartsBefore(a: Span, b: Span): bool { a.start < b.start }

  function Left(input: Span, existing: seq<Span>): seq<Span> { Gaps(input.start, input.end, Sort(StartsBefore, existing)) }

  /** In whatever order the earlier credits come: what is left of an interval is exactly its
      uncovered part, in proper, disjoint pieces. */
  lemma LeftIsUncovered(input: Span, existing: seq<Span>)
    requires Proper(existing)
    ensures Points(Left(input, existing)) == Range(input.start, input.end) - Points(existing)
    ensures Proper(Left(input, existing)) && Disjoint(Left(input, existing))
  {
    var prior := Sort(StartsBefore, existing);
    SortPermutes(StartsBefore, existing);
    SortOrders(StartsBefore, existing);
    SameElements(StartsBefore, existing);
    forall i | 0 <= i < |prior| ensures prior[i].start < prior[i].end { assert prior[i] in existing; }
    SamePoints(prior, existing);
    GapsSubtract(input.start, input.end, prior);
    GapsAreApart(input.start, input.end, prior);
  }

  lemma SamePoints(a: seq<Span>, b: seq<Span>)
    requires multiset(a) == multiset(b)
    ensures Points(a) == Points(b)
  {
    forall t ensures t in Points(a) <==> t in Points(b) {
      PointIn(a, t);
      PointIn(b, t);
      if i :| 0 <= i < |a| && a[i].start <= t < a[i].end {
        assert a[i] in multiset(b);
        var j :| 0 <= j < |b| && b[j] == a[i];
      }
      if i :| 0 <= i < |b| && b[i].start <= t < b[i].end {
        assert b[i] in multiset(a);
        var j :| 0 <= j < |a| && a[j] == b[i];
      }
    }
  }

  // ---- The ledger ---------------------------------------------------------------------

  function SpanOf(interval: Interval): Span { Span(interval.start, interval.end) }

  function Spans(credits: seq<Credit>): (spans: seq<Span>)
    ensures |spans| == |credits| && forall i :: 0 <= i < |credits| ==> spans[i] == credits[i].span
  {
    if credits == [] then [] else Spans(credits[..|credits| - 1]) + [credits[|credits| - 1].span]
  }

  /** The credits the query selects: those that meet the interval. */
  function Meeting(spans: seq<Span>, input: Span): seq<Span> {
    if spans == [] then []
    else
      Meeting(spans[..|spans| - 1], input)
      + if spans[|spans| - 1].start < input.end && spans[|spans| - 1].end > input.start then [spans[|spans| - 1]] else []
  }

  function Pieces(input: Interval, spans: seq<Span>): (pieces: seq<Credit>)
    ensures Spans(pieces) == spans
  {
    if spans == [] then []
    else
      var init := Pieces(input, spans[..|spans| - 1]);
      var all := init + [Credit(input.id, |spans| - 1, input.kind, spans[|spans| - 1])];
      assert all[..|all| - 1] == init;
      all
  }

  /** What an interval may still be credited with. */
  function PiecesOf(l: Ledger, input: Interval): seq<Span> {
    Left(SpanOf(input), Meeting(Spans(l.historical) + Spans(l.credits), SpanOf(input)))
  }

  predicate SameInterval(a: Interval, b: Interval) { a.kind == b.kind && a.start == b.start && a.end == b.end }

  function Truncated(time: int): int { time - time % MILLISECOND }

  function AppendedOne(l: Ledger, input: Interval): Result<Ledger, Error> {
    if input.id in l.events then (if SameInterval(l.events[input.id], input) then Ok(l) else Err(Conflict))
    else if input.start < Truncated(l.createdAt) then Err(Invalid)
    else
      Ok(l.(events := l.events[input.id := input],
            credits := l.credits + Pieces(input, PiecesOf(l, input))))
  }

  /** One transaction: the first refused interval undoes the whole batch. */
  function Appended(l: Ledger, batch: seq<Interval>): Result<Ledger, Error> {
    if batch == [] then Ok(l)
    else
      match Appended(l, batch[..|batch| - 1])
      case Err(e) => Err(e)
      case Ok(before) => AppendedOne(before, batch[|batch| - 1])
  }

  /** The length of the text in UTF-8. */
  function ByteLength(text: string): nat { if text == "" then 0 else ByteLength(text[..|text| - 1]) + Width(text[|text| - 1]) }

  function Width(c: char): nat {
    if c as int < 0x80 then 1 else if c as int < 0x800 then 2 else if c as int < 0x10000 then 3 else 4
  }

  predicate ValidInterval(input: Interval, now: int) {
    && 8 <= ByteLength(input.id) <= 120 && TrimSpace(input.id) == input.id
    && input.start < input.end && input.end - input.start <= MAX_INTERVAL && input.end <= now + MAX_AHEAD
  }

  function TruncatedInterval(input: Interval): Interval {
    input.(start := Truncated(input.start), end := Truncated(input.end))
  }

  function TruncatedBatch(batch: seq<Interval>): (truncated: seq<Interval>)
    ensures |truncated| == |batch| && forall i :: 0 <= i < |batch| ==> truncated[i] == TruncatedInterval(batch[i])
  {
    if batch == [] then [] else TruncatedBatch(batch[..|batch| - 1]) + [TruncatedInterval(batch[|batch| - 1])]
  }

  function Recorded(l: Ledger, batch: seq<Interval>, now: int): Result<Ledger, Error> {
    if |batch| == 0 || |batch| > MAX_BATCH || exists i :: 0 <= i < |batch| && !ValidInterval(TruncatedInterval(batch[i]), now) then Err(Invalid)
    else Appended(l, TruncatedBatch(batch))
  }

  /** The ledger of one user. */
  class Account {
    var ledger: Ledger

    constructor (history: Ledger)
      ensures ledger == history
    {
      ledger := history;
    }

    method Append(batch: seq<Interval>) returns (error: Option<Error>)
      requires forall i :: 0 <= i < |batch| ==> batch[i].start < batch[i].end
      modifies this
      ensures
        match Appended(old(ledger), batch)
        case Ok(after) => error == None && ledger == after
        case Err(e) => error == Some(e) && ledger == old(ledger)
    {
      var before := ledger;
      for i := 0 to |batch|
        invariant Appended(before, batch[..i]) == Ok(ledger)
      {
        var input := batch[i];
        assert batch[..i + 1][..i] == batch[..i];
        if input.id in ledger.events {
          if !SameInterval(ledger.events[input.id], input) {
            StopsThere(before, batch, i);
            ledger := before; // rollback
            return Some(Conflict);
          }
          continue;
        }
        if input.start < Truncated(ledger.createdAt) {
          StopsThere(before, batch, i);
          ledger := before; // rollback
          return Some(Invalid);
        }
        var pieces := Uncovered(SpanOf(input), Meeting(Spans(ledger.historical) + Spans(ledger.credits), SpanOf(input)));
        ledger := ledger.(events := ledger.events[input.id := input], credits := ledger.credits + Pieces(input, pieces));
      }
      assert batch[..|batch|] == batch;
      return None;
    }

    /** `Service.Record`: truncates in place while it validates. */
    method Record(intervals: seq<Interval>, now: int) returns (error: Option<Error>)
      modifies this
      ensures
        match Recorded(old(ledger), intervals, now)
        case Ok(after) => error == None && ledger == after
        case Err(e) => error == Some(e) && ledger == old(ledger)
    {
      if |intervals| == 0 || |intervals| > MAX_BATCH {
        return Some(Invalid);
      }
      var batch := intervals;
      for i := 0 to |batch|
        invariant |batch| == |intervals|
        invariant forall j :: 0 <= j < i ==> batch[j] == TruncatedInterval(intervals[j]) && ValidInterval(batch[j], now)
        invariant forall j :: i <= j < |batch| ==> batch[j] == intervals[j]
      {
        batch := batch[i := batch[i].(start := Truncated(batch[i].start), end := Truncated(batch[i].end))];
        if !ValidInterval(batch[i], now) {
          return Some(Invalid);
        }
      }
      assert batch == TruncatedBatch(intervals);
      error := Append(batch);
    }
  }

  /** A refused interval refuses the batch. */
  lemma {:induction false} StopsThere(l: Ledger, batch: seq<Interval>, i: nat)
    requires i < |batch| && Appended(l, batch[..i + 1]).Err?
    ensures Appended(l, batch) == Appended(l, batch[..i + 1])
    decreases |batch|
  {
    if i + 1 < |batch| {
      var init := batch[..|batch| - 1];
      assert init[..i + 1] == batch[..i + 1];
      StopsThere(l, init, i);
    } else {
      assert batch[..i + 1] == batch;
    }
  }
}
