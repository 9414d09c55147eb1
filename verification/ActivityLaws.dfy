/** What the activity ledger guarantees, whatever arrives and in whatever order. */
module ActivityLaws {
  import opened Prelude
  import opened Text
  import opened Activity

  predicate Covers(interval: Interval, t: int) { interval.start <= t < interval.end }

  /** Some accepted interval that is not part of the history covers the point. */
  ghost predicate Earned(history: Ledger, l: Ledger, t: int) {
    exists id :: id in l.events && id !in history.events && Covers(l.events[id], t)
  }

  predicate Separate(spans: seq<Span>) { Proper(spans) && Disjoint(spans) }

  /** The credits are the earned time outside the history. */
  ghost predicate Exact(history: Ledger, l: Ledger) {
    forall t :: t in Points(Spans(l.credits)) <==> Earned(history, l, t) && t !in Points(Spans(history.historical))
  }

  ghost predicate Continues(history: Ledger, l: Ledger) {
    && l.createdAt == history.createdAt && l.historical == history.historical
    && (forall id :: id in history.events ==> id in l.events && l.events[id] == history.events[id])
  }

  ghost predicate Accounted(history: Ledger, l: Ledger) {
    Continues(history, l) && Separate(Spans(l.credits)) && Exact(history, l)
  }

  lemma SpansAppend(a: seq<Credit>, b: seq<Credit>)
    ensures Spans(a + b) == Spans(a) + Spans(b)
  {
    assert forall i :: 0 <= i < |a + b| ==> Spans(a + b)[i] == (Spans(a) + Spans(b))[i];
  }

  lemma OnePoint(span: Span)
    ensures Points([span]) == Range(span.start, span.end)
  {
    assert [span][..0] == [];
  }

  /** Reading only the credits that meet the interval loses nothing inside it. */
  lemma {:induction false} MeetingIsEnough(spans: seq<Span>, input: Span, t: int)
    requires input.start <= t < input.end
    ensures t in Points(Meeting(spans, input)) <==> t in Points(spans)
  {
    if spans != [] {
      var init, last := spans[..|spans| - 1], spans[|spans| - 1];
      MeetingIsEnough(init, input, t);
      if last.start < input.end && last.end > input.start {
        PointsAppend(Meeting(init, input), [last]);
        OnePoint(last);
      } else {
        assert Meeting(spans, input) == Meeting(init, input);
      }
    }
  }

  lemma {:induction false} MeetingIsProper(spans: seq<Span>, input: Span)
    requires Proper(spans)
    ensures Proper(Meeting(spans, input))
  {
    if spans != [] { MeetingIsProper(spans[..|spans| - 1], input); }
  }

  lemma SeparateAppend(a: seq<Span>, b: seq<Span>)
    requires Separate(a) && Separate(b) && Points(a) !! Points(b)
    ensures Separate(a + b)
  {
    forall i, j | 0 <= i < j < |a + b| ensures Apart((a + b)[i], (a + b)[j]) {
      if i < |a| && j >= |a| { ApartByPoints(a, b, i, j - |a|); }
    }
  }

  lemma ApartByPoints(a: seq<Span>, b: seq<Span>, i: nat, j: nat)
    requires i < |a| && j < |b| && Proper(a) && Proper(b) && Points(a) !! Points(b)
    ensures Apart(a[i], b[j])
  {
    if !Apart(a[i], b[j]) {
      var t := if a[i].start < b[j].start then b[j].start else a[i].start;
      PointIn(a, t);
      PointIn(b, t);
    }
  }

  /** The pieces added for one interval: what neither the history nor earlier credits cover. */
  lemma PiecesAre(l: Ledger, input: Interval)
    requires Proper(Spans(l.historical)) && Proper(Spans(l.credits))
    ensures Separate(PiecesOf(l, input))
    ensures forall t :: t in Points(PiecesOf(l, input)) <==>
      Covers(input, t) && t !in Points(Spans(l.historical)) && t !in Points(Spans(l.credits))
  {
    var spans := Spans(l.historical) + Spans(l.credits);
    PointsAppend(Spans(l.historical), Spans(l.credits));
    UncoveredAre(spans, SpanOf(input));
  }

  lemma UncoveredAre(spans: seq<Span>, input: Span)
    requires Proper(spans)
    ensures Separate(Left(input, Meeting(spans, input)))
    ensures forall t :: t in Points(Left(input, Meeting(spans, input))) <==> input.start <= t < input.end && t !in Points(spans)
  {
    MeetingIsProper(spans, input);
    LeftIsUncovered(input, Meeting(spans, input));
    forall t | input.start <= t < input.end ensures t in Points(Meeting(spans, input)) <==> t in Points(spans) {
      MeetingIsEnough(spans, input, t);
    }
  }

  lemma CreditsGrow(l: Ledger, input: Interval)
    requires input.id !in l.events && AppendedOne(l, input).Ok?
    ensures
      var l' := AppendedOne(l, input).value;
      && Spans(l'.credits) == Spans(l.credits) + PiecesOf(l, input)
      && Points(Spans(l'.credits)) == Points(Spans(l.credits)) + Points(PiecesOf(l, input))
  {
    SpansAppend(l.credits, Pieces(input, PiecesOf(l, input)));
    PointsAppend(Spans(l.credits), PiecesOf(l, input));
  }

  lemma PiecesAreApart(l: Ledger, input: Interval)
    requires Proper(Spans(l.historical)) && Proper(Spans(l.credits))
    ensures Separate(PiecesOf(l, input)) && Points(Spans(l.credits)) !! Points(PiecesOf(l, input))
  {
    PiecesAre(l, input);
  }

  lemma StaysSeparate(l: Ledger, input: Interval, credits: seq<Credit>)
    requires Proper(Spans(l.historical)) && Separate(Spans(l.credits))
    requires Spans(credits) == Spans(l.credits) + PiecesOf(l, input)
    ensures Separate(Spans(credits))
  {
    var pieces, spans := PiecesOf(l, input), Spans(l.credits);
    PiecesAreApart(l, input);
    SeparateAppend(spans, pieces);
  }

  lemma StaysContinued(history: Ledger, l: Ledger, input: Interval)
    requires Continues(history, l) && AppendedOne(l, input).Ok?
    ensures Continues(history, AppendedOne(l, input).value)
  {
  }

  lemma AppendOneKeeps(history: Ledger, l: Ledger, input: Interval)
    requires Accounted(history, l) && Proper(Spans(history.historical))
    requires AppendedOne(l, input).Ok?
    ensures Accounted(history, AppendedOne(l, input).value)
  {
    StaysContinued(history, l, input);
    if input.id !in l.events {
      PiecesAre(l, input);
      CreditsGrow(l, input);
      StaysSeparate(l, input, AppendedOne(l, input).value.credits);
      StaysExact(history, l, input);
    }
  }

  lemma StaysExact(history: Ledger, l: Ledger, input: Interval)
    requires Continues(history, l) && Exact(history, l) && input.id !in l.events && AppendedOne(l, input).Ok?
    requires Points(Spans(AppendedOne(l, input).value.credits)) == Points(Spans(l.credits)) + Points(PiecesOf(l, input))
    requires forall t :: t in Points(PiecesOf(l, input)) <==>
      Covers(input, t) && t !in Points(Spans(l.historical)) && t !in Points(Spans(l.credits))
    ensures Exact(history, AppendedOne(l, input).value)
  {
    var l' := AppendedOne(l, input).value;
    forall t ensures t in Points(Spans(l'.credits)) <==> Earned(history, l', t) && t !in Points(Spans(history.historical)) {
      EarnedByOneMore(history, l, input, t);
    }
  }

  lemma EarnedByOneMore(history: Ledger, l: Ledger, input: Interval, t: int)
    requires input.id !in l.events && AppendedOne(l, input).Ok? && forall id :: id in history.events ==> id in l.events
    ensures Earned(history, AppendedOne(l, input).value, t) <==> Earned(history, l, t) || Covers(input, t)
  {
    var events := AppendedOne(l, input).value.events;
    if Earned(history, l, t) {
      var id :| id in l.events && id !in history.events && Covers(l.events[id], t);
      assert id in events && events[id] == l.events[id];
    }
    if Covers(input, t) { assert input.id in events && events[input.id] == input; }
  }

  /** After any accepted batch: credits of accepted intervals are non-empty and pairwise
      disjoint, and together they are exactly the time of the accepted intervals that the
      historical credits do not cover. */
  lemma {:induction false} CreditsAreDisjoint(history: Ledger, l: Ledger, batch: seq<Interval>)
    requires Accounted(history, l) && Proper(Spans(history.historical))
    requires Appended(l, batch).Ok?
    ensures Accounted(history, Appended(l, batch).value)
  {
    if batch != [] {
      CreditsAreDisjoint(history, l, batch[..|batch| - 1]);
      AppendOneKeeps(history, Appended(l, batch[..|batch| - 1]).value, batch[|batch| - 1]);
    }
  }

  /** The whole ledger is free of overlaps if and only if the history it started from is. */
  lemma DisjointIffHistoryIs(history: Ledger, l: Ledger)
    requires Accounted(history, l) && Proper(Spans(history.historical))
    ensures Disjoint(Spans(l.historical) + Spans(l.credits)) <==> Disjoint(Spans(history.historical))
  {
    if Disjoint(Spans(history.historical)) {
      ExactIsApart(history, l);
      SeparateAppend(Spans(history.historical), Spans(l.credits));
    } else {
      OverlapStays(Spans(history.historical), Spans(l.credits));
    }
  }

  lemma ExactIsApart(history: Ledger, l: Ledger)
    requires Exact(history, l)
    ensures Points(Spans(history.historical)) !! Points(Spans(l.credits))
  {
  }

  lemma OverlapStays(a: seq<Span>, b: seq<Span>)
    requires !Disjoint(a)
    ensures !Disjoint(a + b)
  {
    var i, j :| 0 <= i < j < |a| && !Apart(a[i], a[j]);
    assert !Apart((a + b)[i], (a + b)[j]);
  }

  lemma UnionIsSmaller(a: set<int>, b: set<int>, t: int)
    requires t in a && t in b
    ensures |a + b| < |a| + |b|
  {
    assert a + b == a + (b - {t});
  }

  /** Credited time counts every point once exactly when no two credits overlap. */
  lemma {:induction false} TotalIffDisjoint(spans: seq<Span>)
    requires Proper(spans)
    ensures Total(spans) >= |Points(spans)|
    ensures Total(spans) == |Points(spans)| <==> Disjoint(spans)
  {
    if spans != [] {
      var init, last := spans[..|spans| - 1], spans[|spans| - 1];
      TotalIffDisjoint(init);
      RangeSize(last.start, last.end);
      if Disjoint(spans) {
        DisjointTotal(spans);
      } else if Disjoint(init) {
        var i :| 0 <= i < |init| && !Apart(spans[i], last);
        var t := if init[i].start < last.start then last.start else init[i].start;
        assert Within(t, init[i].start, init[i].end) && Within(t, last.start, last.end);
        PointIn(init, t);
        UnionIsSmaller(Points(init), Range(last.start, last.end), t);
      }
    }
  }

  // ---- The migration ------------------------------------------------------------------

  const SECOND := 1000 * MILLISECOND

  /** A recording from before the ledger; its duration is in seconds. */
  datatype OldRecording = OldRecording(id: string, timestamp: int, duration: int)

  function HistoryOf(r: OldRecording): Interval {
    Interval("history:" + r.id, Speaking, r.timestamp - (if r.duration < 600 then r.duration else 600) * SECOND, r.timestamp)
  }

  function Counted(rs: seq<OldRecording>): (counted: seq<OldRecording>)
    ensures forall r :: r in counted <==> r in rs && r.duration > 0
  {
    if rs == [] then []
    else Counted(rs[..|rs| - 1]) + if rs[|rs| - 1].duration > 0 then [rs[|rs| - 1]] else []
  }

  function HistorySpans(rs: seq<OldRecording>): (spans: seq<Span>)
    ensures |spans| == |rs| && forall i :: 0 <= i < |rs| ==> spans[i] == SpanOf(HistoryOf(rs[i]))
  {
    if rs == [] then [] else HistorySpans(rs[..|rs| - 1]) + [SpanOf(HistoryOf(rs[|rs| - 1]))]
  }

  function HistoryCredits(rs: seq<OldRecording>): (credits: seq<Credit>)
    ensures Spans(credits) == HistorySpans(rs)
  {
    if rs == [] then []
    else
      var init, e := HistoryCredits(rs[..|rs| - 1]), HistoryOf(rs[|rs| - 1]);
      var all := init + [Credit(e.id, 0, e.kind, SpanOf(e))];
      assert all[..|all| - 1] == init;
      all
  }

  function HistoryEvents(rs: seq<OldRecording>): map<string, Interval> {
    if rs == [] then map[] else HistoryEvents(rs[..|rs| - 1])[HistoryOf(rs[|rs| - 1]).id := HistoryOf(rs[|rs| - 1])]
  }

  /** The ledger the migration leaves: one event and one historical credit per old recording. */
  function Migrated(createdAt: int, rs: seq<OldRecording>): Ledger {
    Ledger(createdAt, HistoryEvents(Counted(rs)), HistoryCredits(Counted(rs)), [])
  }

  predicate OldApart(rs: seq<OldRecording>) {
    forall i, j :: 0 <= i < j < |rs| ==> Apart(SpanOf(HistoryOf(rs[i])), SpanOf(HistoryOf(rs[j])))
  }

  lemma HistoryLength(r: OldRecording)
    requires r.duration > 0
    ensures SpanOf(HistoryOf(r)).start < SpanOf(HistoryOf(r)).end
  {
  }

  lemma HistoryIsProper(rs: seq<OldRecording>)
    requires forall r :: r in rs ==> r.duration > 0
    ensures Proper(HistorySpans(rs))
  {
    forall i | 0 <= i < |rs| ensures HistorySpans(rs)[i].start < HistorySpans(rs)[i].end { HistoryLength(rs[i]); }
  }

  lemma ApartIff(rs: seq<OldRecording>, spans: seq<Span>)
    requires |spans| == |rs| && forall i :: 0 <= i < |rs| ==> spans[i] == SpanOf(HistoryOf(rs[i]))
    ensures Disjoint(spans) <==> OldApart(rs)
  {
  }

  lemma MigratedHistory(createdAt: int, rs: seq<OldRecording>)
    ensures Proper(Spans(Migrated(createdAt, rs).historical))
    ensures Disjoint(Spans(Migrated(createdAt, rs).historical)) <==> OldApart(Counted(rs))
  {
    HistoryIsProper(Counted(rs));
    ApartIff(Counted(rs), HistorySpans(Counted(rs)));
  }

  lemma AccountedCountsOnceIff(history: Ledger, l: Ledger)
    requires Accounted(history, l) && Proper(Spans(history.historical))
    ensures
      var spans := Spans(l.historical) + Spans(l.credits);
      && Total(spans) >= |Points(spans)|
      && (Total(spans) == |Points(spans)| <==> Disjoint(Spans(history.historical)))
  {
    DisjointIffHistoryIs(history, l);
    TotalIffDisjoint(Spans(l.historical) + Spans(l.credits));
  }

  /** In every ledger that grew out of the migration, the credited total counts every moment once
      if and only if no two of the old recordings overlapped. */
  lemma LedgerCountsOnceIff(createdAt: int, rs: seq<OldRecording>, history: Ledger, batch: seq<Interval>)
    requires history == Migrated(createdAt, rs) && Appended(history, batch).Ok?
    ensures
      var l := Appended(history, batch).value;
      var spans := Spans(l.historical) + Spans(l.credits);
      && Total(spans) >= |Points(spans)|
      && (Total(spans) == |Points(spans)| <==> OldApart(Counted(rs)))
  {
    MigratedHistory(createdAt, rs);
    AppendedCountsOnceIff(history, batch);
  }

  lemma AppendedCountsOnceIff(history: Ledger, batch: seq<Interval>)
    requires history.credits == [] && Proper(Spans(history.historical)) && Appended(history, batch).Ok?
    ensures
      var l := Appended(history, batch).value;
      var spans := Spans(l.historical) + Spans(l.credits);
      && Total(spans) >= |Points(spans)|
      && (Total(spans) == |Points(spans)| <==> Disjoint(Spans(history.historical)))
  {
    HistoryIsAccounted(history);
    CreditsAreDisjoint(history, history, batch);
    AccountedCountsOnceIff(history, Appended(history, batch).value);
  }

  function TwoRecordings(): seq<OldRecording> { [OldRecording("a", 600 * SECOND, 600), OldRecording("b", 900 * SECOND, 600)] }

  /** Two ten-minute recordings that were saved five minutes apart are credited twice for five
      minutes, whatever is recorded later. */
  lemma HistoryMayOverlap(createdAt: int, history: Ledger, batch: seq<Interval>)
    requires history == Migrated(createdAt, TwoRecordings()) && Appended(history, batch).Ok?
    ensures
      var l := Appended(history, batch).value;
      var spans := Spans(l.historical) + Spans(l.credits);
      Total(spans) > |Points(spans)|
  {
    TwoOverlap();
    LedgerCountsOnceIff(createdAt, TwoRecordings(), history, batch);
  }

  lemma TwoOverlap()
    ensures !OldApart(Counted(TwoRecordings()))
  {
    var rs := TwoRecordings();
    assert rs[..1] == [rs[0]] && [rs[0]][..0] == [];
    assert Counted([rs[0]]) == [] + [rs[0]] && Counted(rs) == [rs[0]] + [rs[1]];
    assert !Apart(SpanOf(HistoryOf(Counted(rs)[0])), SpanOf(HistoryOf(Counted(rs)[1])));
  }

  // ---- Order and batching do not matter -----------------------------------------------

  /** What makes a batch acceptable; it does not mention the order. */
  predicate Consistent(l: Ledger, batch: seq<Interval>) {
    && (forall x :: x in batch ==>
          if x.id in l.events then SameInterval(l.events[x.id], x) else x.start >= Truncated(l.createdAt))
    && (forall x, y :: x in batch && y in batch && x.id == y.id ==> SameInterval(x, y))
  }

  /** The events after a batch: the old ones, and the batch under its ids. */
  ghost predicate Extends(l: Ledger, batch: seq<Interval>, after: Ledger) {
    && after.createdAt == l.createdAt
    && (forall id :: id in after.events <==> id in l.events || exists x :: x in batch && x.id == id)
    && (forall id :: id in l.events ==> id in after.events && after.events[id] == l.events[id])
    && (forall x :: x in batch ==> x.id in after.events && SameInterval(after.events[x.id], x))
  }

  /** A batch is accepted exactly when it is consistent with itself and with the ledger, and then
      exactly its new intervals are added. */
  lemma {:induction false} AcceptedIff(l: Ledger, batch: seq<Interval>)
    ensures Appended(l, batch).Ok? <==> Consistent(l, batch)
    ensures Appended(l, batch).Ok? ==> Extends(l, batch, Appended(l, batch).value)
  {
    if batch != [] {
      var init, last := batch[..|batch| - 1], batch[|batch| - 1];
      AcceptedIff(l, init);
      assert batch == init + [last];
      if Appended(l, init).Ok? {
        ConsistentSnoc(l, init, last, Appended(l, init).value);
        if Appended(l, batch).Ok? { ExtendsSnoc(l, init, last, Appended(l, init).value); }
      } else if Consistent(l, batch) {
        ConsistentPrefix(l, init, last);
        assert false;
      }
    }
  }

  lemma ConsistentPrefix(l: Ledger, init: seq<Interval>, last: Interval)
    requires Consistent(l, init + [last])
    ensures Consistent(l, init)
  {
    forall x | x in init ensures x in init + [last] {}
  }

  lemma SnocIds(init: seq<Interval>, last: Interval, id: string)
    ensures (exists x :: x in init + [last] && x.id == id) <==> last.id == id || exists x :: x in init && x.id == id
  {
    if x :| x in init + [last] && x.id == id { assert x in init || x == last; }
    if last.id == id { assert last in init + [last]; }
    if x :| x in init && x.id == id { assert x in init + [last]; }
  }

  lemma ExtendsSnoc(l: Ledger, init: seq<Interval>, last: Interval, before: Ledger)
    requires Extends(l, init, before) && AppendedOne(before, last).Ok?
    ensures Extends(l, init + [last], AppendedOne(before, last).value)
  {
    var batch, after := init + [last], AppendedOne(before, last).value;
    assert after.events.Keys == before.events.Keys + {last.id};
    forall id ensures id in after.events <==> id in l.events || exists x :: x in batch && x.id == id { SnocIds(init, last, id); }
    forall x | x in batch ensures x.id in after.events && SameInterval(after.events[x.id], x) {
      if x in init { assert SameInterval(before.events[x.id], x); }
    }
  }

  lemma ConsistentSnoc(l: Ledger, init: seq<Interval>, last: Interval, before: Ledger)
    requires Consistent(l, init) && Extends(l, init, before)
    ensures AppendedOne(before, last).Ok? <==> Consistent(l, init + [last])
  {
    if AppendedOne(before, last).Ok? { AcceptedIsConsistent(l, init, last, before); } else { RefusedIsInconsistent(l, init, last, before); }
  }

  lemma AcceptedAgrees(l: Ledger, init: seq<Interval>, last: Interval, before: Ledger)
    requires Consistent(l, init) && Extends(l, init, before) && AppendedOne(before, last).Ok?
    ensures if last.id in l.events then SameInterval(l.events[last.id], last) else last.start >= Truncated(l.createdAt)
    ensures forall x :: x in init && x.id == last.id ==> SameInterval(x, last)
  {
    forall x | x in init && x.id == last.id ensures SameInterval(x, last) { assert SameInterval(before.events[x.id], x); }
    if last.id !in l.events && last.id in before.events {
      var x :| x in init && x.id == last.id;
      assert SameInterval(x, last);
    }
  }

  lemma AcceptedIsConsistent(l: Ledger, init: seq<Interval>, last: Interval, before: Ledger)
    requires Consistent(l, init) && Extends(l, init, before) && AppendedOne(before, last).Ok?
    ensures Consistent(l, init + [last])
  {
    AcceptedAgrees(l, init, last, before);
    ConsistentWith(l, init, last);
  }

  lemma ConsistentWith(l: Ledger, init: seq<Interval>, last: Interval)
    requires Consistent(l, init)
    requires if last.id in l.events then SameInterval(l.events[last.id], last) else last.start >= Truncated(l.createdAt)
    requires forall x :: x in init && x.id == last.id ==> SameInterval(x, last)
    ensures Consistent(l, init + [last])
  {
    forall x ensures x in init + [last] <==> x in init || x == last {}
  }

  lemma RefusedIsInconsistent(l: Ledger, init: seq<Interval>, last: Interval, before: Ledger)
    requires Extends(l, init, before) && AppendedOne(before, last).Err?
    ensures !Consistent(l, init + [last])
  {
    var batch := init + [last];
    assert batch[|init|] == last;
    if last.id in before.events && last.id !in l.events {
      var x :| x in init && x.id == last.id;
      assert x in batch && SameInterval(before.events[x.id], x);
    }
  }

  /** Splitting a batch changes nothing. */
  lemma {:induction false} BatchingIsFree(l: Ledger, a: seq<Interval>, b: seq<Interval>)
    requires Appended(l, a).Ok?
    ensures Appended(Appended(l, a).value, b) == Appended(l, a + b)
    decreases |b|
  {
    if b == [] {
      assert a + b == a;
    } else {
      BatchingIsFree(l, a, b[..|b| - 1]);
      assert (a + b)[..|a + b| - 1] == a + b[..|b| - 1];
    }
  }

  /** The credited time depends only on which intervals were accepted. */
  lemma SamePointsExactly(history: Ledger, l: Ledger, m: Ledger)
    requires Exact(history, l) && Exact(history, m)
    requires forall t :: Earned(history, l, t) <==> Earned(history, m, t)
    ensures Points(Spans(l.credits)) == Points(Spans(m.credits))
  {
    forall t ensures t in Points(Spans(l.credits)) <==> t in Points(Spans(m.credits)) {
      assert Earned(history, l, t) <==> Earned(history, m, t);
    }
  }

  lemma TotalDependsOnEvents(history: Ledger, l: Ledger, m: Ledger)
    requires Accounted(history, l) && Accounted(history, m)
    requires forall t :: Earned(history, l, t) <==> Earned(history, m, t)
    ensures Total(Spans(l.historical) + Spans(l.credits)) == Total(Spans(m.historical) + Spans(m.credits))
  {
    TotalAppend(Spans(l.historical), Spans(l.credits));
    TotalAppend(Spans(m.historical), Spans(m.credits));
    DisjointTotal(Spans(l.credits));
    DisjointTotal(Spans(m.credits));
    SamePointsExactly(history, l, m);
  }

  lemma EarnedOnlyByOrderFree(history: Ledger, a: seq<Interval>, b: seq<Interval>, t: int)
    requires forall x :: x in a <==> x in b
    requires Appended(history, a).Ok? && Appended(history, b).Ok?
    ensures Earned(history, Appended(history, a).value, t) ==> Earned(history, Appended(history, b).value, t)
  {
    AcceptedIff(history, a);
    AcceptedIff(history, b);
    var l, m := Appended(history, a).value, Appended(history, b).value;
    if Earned(history, l, t) {
      var id :| id in l.events && id !in history.events && Covers(l.events[id], t);
      var x :| x in a && x.id == id;
      assert SameInterval(l.events[x.id], x) && SameInterval(m.events[x.id], x);
      assert id in m.events && Covers(m.events[id], t);
    }
  }

  /** The same intervals in any order, with any repetitions and in any batches, are accepted
      together or not at all, and add up to the same credited time. */
  lemma OrderIsFree(history: Ledger, a: seq<Interval>, b: seq<Interval>)
    requires history.credits == [] && Proper(Spans(history.historical))
    requires forall x :: x in a <==> x in b
    ensures Appended(history, a).Ok? <==> Appended(history, b).Ok?
    ensures Appended(history, a).Ok? ==>
      var l, m := Appended(history, a).value, Appended(history, b).value;
      Total(Spans(l.historical) + Spans(l.credits)) == Total(Spans(m.historical) + Spans(m.credits))
  {
    AcceptedIff(history, a);
    AcceptedIff(history, b);
    if Appended(history, a).Ok? {
      HistoryIsAccounted(history);
      CreditsAreDisjoint(history, history, a);
      CreditsAreDisjoint(history, history, b);
      forall t ensures Earned(history, Appended(history, a).value, t) <==> Earned(history, Appended(history, b).value, t) {
        EarnedOnlyByOrderFree(history, a, b, t);
        EarnedOnlyByOrderFree(history, b, a, t);
      }
      TotalDependsOnEvents(history, Appended(history, a).value, Appended(history, b).value);
    }
  }

  lemma HistoryIsAccounted(history: Ledger)
    requires history.credits == []
    ensures Accounted(history, history)
  {
    assert Spans(history.credits) == [];
  }

  /** Sending a batch again, after anything else that was accepted, changes nothing. */
  lemma ReplayIsFree(l: Ledger, batch: seq<Interval>, others: seq<Interval>)
    requires Appended(l, batch).Ok? && Appended(Appended(l, batch).value, others).Ok?
    ensures
      var later := Appended(Appended(l, batch).value, others).value;
      Appended(later, batch) == Ok(later)
  {
    var m := Appended(l, batch).value;
    var later := Appended(m, others).value;
    AcceptedIff(l, batch);
    AcceptedIff(m, others);
    KnownBatchIsFree(later, batch);
  }

  lemma {:induction false} KnownBatchIsFree(l: Ledger, batch: seq<Interval>)
    requires forall x :: x in batch ==> x.id in l.events && SameInterval(l.events[x.id], x)
    ensures Appended(l, batch) == Ok(l)
  {
    if batch != [] {
      assert forall x :: x in batch[..|batch| - 1] ==> x in batch;
      assert batch[|batch| - 1] in batch;
      KnownBatchIsFree(l, batch[..|batch| - 1]);
    }
  }

  // ---- What the service stores --------------------------------------------------------

  /** The greatest whole millisecond that is not after the given time. */
  predicate OnMillisecond(stored: int, given: int) { stored % 1000 == 0 && stored <= given < stored + 1000 }

  predicate StoredAs(stored: Interval, given: Interval) {
    stored.id == given.id && stored.kind == given.kind && OnMillisecond(stored.start, given.start) && OnMillisecond(stored.end, given.end)
  }

  /** The identifier has 8 to 120 bytes and no white space around it; the stored interval is not
      empty, lasts at most 30 s and ends at most 10 s in the future. */
  predicate Recordable(stored: Interval, now: int) {
    && 8 <= ByteLength(stored.id) <= 120 && TrimSpace(stored.id) == stored.id
    && stored.start < stored.end <= stored.start + 30_000_000 && stored.end <= now + 10_000_000
  }

  /** It repeats what is known under its identifier, or begins no earlier than the account. */
  predicate Admitted(l: Ledger, stored: Interval) {
    if stored.id in l.events then l.events[stored.id].(id := stored.id) == stored else l.createdAt - 1000 < stored.start
  }

  lemma TruncatedIs(stored: Interval, given: Interval)
    ensures StoredAs(stored, given) <==> stored == TruncatedInterval(given)
  {
  }

  lemma AdmittedIff(l: Ledger, given: Interval)
    ensures
      var stored := TruncatedInterval(given);
      Admitted(l, stored) <==> if stored.id in l.events then SameInterval(l.events[stored.id], stored) else stored.start >= Truncated(l.createdAt)
  {
  }

  ghost predicate AllRecordable(intervals: seq<Interval>, now: int) {
    forall x, s :: x in intervals && StoredAs(s, x) ==> Recordable(s, now)
  }

  ghost predicate AllAdmitted(l: Ledger, intervals: seq<Interval>) {
    forall x, s :: x in intervals && StoredAs(s, x) ==> Admitted(l, s)
  }

  /** Intervals under one identifier are stored alike. */
  ghost predicate Agreeing(intervals: seq<Interval>) {
    forall x, y :: x in intervals && y in intervals && x.id == y.id ==> forall s :: StoredAs(s, x) ==> StoredAs(s, y)
  }

  lemma InBatch(intervals: seq<Interval>, x: Interval)
    requires x in intervals
    ensures TruncatedInterval(x) in TruncatedBatch(intervals)
  {
    var i :| 0 <= i < |intervals| && intervals[i] == x;
    assert TruncatedBatch(intervals)[i] == TruncatedInterval(x);
  }

  lemma FromBatch(intervals: seq<Interval>, stored: Interval) returns (x: Interval)
    requires stored in TruncatedBatch(intervals)
    ensures x in intervals && stored == TruncatedInterval(x)
  {
    var i :| 0 <= i < |intervals| && TruncatedBatch(intervals)[i] == stored;
    x := intervals[i];
  }

  lemma RecordableIff(intervals: seq<Interval>, now: int)
    ensures AllRecordable(intervals, now) <==> forall i :: 0 <= i < |intervals| ==> ValidInterval(TruncatedInterval(intervals[i]), now)
  {
    if AllRecordable(intervals, now) {
      forall i | 0 <= i < |intervals| ensures ValidInterval(TruncatedInterval(intervals[i]), now) {
        TruncatedIs(TruncatedInterval(intervals[i]), intervals[i]);
        assert Recordable(TruncatedInterval(intervals[i]), now);
      }
    } else {
      var x, s :| x in intervals && StoredAs(s, x) && !Recordable(s, now);
      TruncatedIs(s, x);
      var i :| 0 <= i < |intervals| && intervals[i] == x;
      assert !ValidInterval(TruncatedInterval(intervals[i]), now);
    }
  }

  lemma ConsistentIsAdmitted(l: Ledger, intervals: seq<Interval>)
    requires Consistent(l, TruncatedBatch(intervals))
    ensures AllAdmitted(l, intervals)
  {
    forall x, s | x in intervals && StoredAs(s, x) ensures Admitted(l, s) {
      TruncatedIs(s, x);
      InBatch(intervals, x);
      AdmittedIff(l, x);
    }
  }

  lemma ConsistentAgrees(l: Ledger, intervals: seq<Interval>)
    requires Consistent(l, TruncatedBatch(intervals))
    ensures Agreeing(intervals)
  {
    forall x, y | x in intervals && y in intervals && x.id == y.id ensures forall s :: StoredAs(s, x) ==> StoredAs(s, y) {
      InBatch(intervals, x);
      InBatch(intervals, y);
      assert SameInterval(TruncatedInterval(x), TruncatedInterval(y));
      forall s | StoredAs(s, x) ensures StoredAs(s, y) {
        TruncatedIs(s, x);
        TruncatedIs(s, y);
      }
    }
  }

  lemma AdmittedIsConsistent(l: Ledger, intervals: seq<Interval>)
    requires AllAdmitted(l, intervals) && Agreeing(intervals)
    ensures Consistent(l, TruncatedBatch(intervals))
  {
    var batch := TruncatedBatch(intervals);
    forall s | s in batch ensures if s.id in l.events then SameInterval(l.events[s.id], s) else s.start >= Truncated(l.createdAt) {
      var x := FromBatch(intervals, s);
      TruncatedIs(s, x);
      AdmittedIff(l, x);
    }
    forall s, t | s in batch && t in batch && s.id == t.id ensures SameInterval(s, t) {
      var x := FromBatch(intervals, s);
      var y := FromBatch(intervals, t);
      TruncatedIs(s, x);
      assert StoredAs(s, y);
      TruncatedIs(s, y);
    }
  }

  lemma ConsistentIff(l: Ledger, intervals: seq<Interval>)
    ensures Consistent(l, TruncatedBatch(intervals)) <==> AllAdmitted(l, intervals) && Agreeing(intervals)
  {
    if Consistent(l, TruncatedBatch(intervals)) {
      ConsistentIsAdmitted(l, intervals);
      ConsistentAgrees(l, intervals);
    } else if AllAdmitted(l, intervals) && Agreeing(intervals) {
      AdmittedIsConsistent(l, intervals);
    }
  }

  lemma RecordedIs(l: Ledger, intervals: seq<Interval>, now: int)
    ensures Recorded(l, intervals, now)
      == if 1 <= |intervals| <= 100 && AllRecordable(intervals, now) then Appended(l, TruncatedBatch(intervals)) else Err(Invalid)
  {
    RecordableIff(intervals, now);
  }

  lemma StoredInBatch(l: Ledger, intervals: seq<Interval>, after: Ledger, x: Interval)
    requires Extends(l, TruncatedBatch(intervals), after) && x in intervals
    ensures x.id in after.events && StoredAs(after.events[x.id].(id := x.id), x)
  {
    InBatch(intervals, x);
    TruncatedIs(TruncatedInterval(x), x);
    assert SameInterval(after.events[x.id], TruncatedInterval(x));
  }

  /** A call is recorded iff it has 1 to 100 intervals, each of them, cut to whole milliseconds, is
      recordable and admitted, and those under the same identifier agree; each is then stored that
      way. */
  lemma RecordedIff(l: Ledger, intervals: seq<Interval>, now: int)
    ensures Recorded(l, intervals, now).Ok? <==>
      1 <= |intervals| <= 100 && AllRecordable(intervals, now) && AllAdmitted(l, intervals) && Agreeing(intervals)
    ensures Recorded(l, intervals, now).Ok? ==>
      var after := Recorded(l, intervals, now).value;
      forall x :: x in intervals ==> x.id in after.events && StoredAs(after.events[x.id].(id := x.id), x)
  {
    RecordedIs(l, intervals, now);
    AcceptedIff(l, TruncatedBatch(intervals));
    ConsistentIff(l, intervals);
    if Recorded(l, intervals, now).Ok? {
      var after := Recorded(l, intervals, now).value;
      forall x | x in intervals ensures x.id in after.events && StoredAs(after.events[x.id].(id := x.id), x) {
        StoredInBatch(l, intervals, after, x);
      }
    }
  }
}
