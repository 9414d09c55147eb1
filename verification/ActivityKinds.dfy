/** Adding up the ledger by kind and by day (`Summary` in `internal/activity/repository.go`).

    An overlapping moment is credited once, to the interval that arrived first.  The sum over
    all kinds does not depend on the order of arrival, the sums of the kinds may. */
module ActivityKinds {
  import opened Prelude
  import opened Activity
  import opened ActivityLaws

  /** The credits of one kind. */
  function KindSpans(credits: seq<Credit>, kind: Kind): seq<Span> {
    if credits == [] then []
    else KindSpans(credits[..|credits| - 1], kind) + if credits[|credits| - 1].kind == kind then [credits[|credits| - 1].span] else []
  }

  function KindTotal(l: Ledger, kind: Kind): int { Total(KindSpans(l.historical + l.credits, kind)) }

  /** The parts of the credits that lie in a day. */
  function Clipped(spans: seq<Span>, start: int, finish: int): seq<Span> {
    if spans == [] then []
    else
      var last := spans[|spans| - 1];
      Clipped(spans[..|spans| - 1], start, finish) + if Meets(last, start, finish) then [Clip(last, start, finish)] else []
  }

  predicate Meets(span: Span, start: int, finish: int) { span.start < finish && span.end > start }

  function Clip(span: Span, start: int, finish: int): Span {
    Span(if span.start < start then start else span.start, if span.end > finish then finish else span.end)
  }

  function DayTotal(l: Ledger, kind: Kind, start: int, finish: int): int {
    Total(Clipped(KindSpans(l.historical + l.credits, kind), start, finish))
  }

  // ---- Counting a kind once -----------------------------------------------------------

  lemma {:induction false} KindAppend(a: seq<Credit>, b: seq<Credit>, kind: Kind)
    ensures KindSpans(a + b, kind) == KindSpans(a, kind) + KindSpans(b, kind)
    decreases |b|
  {
    if b == [] {
      assert a + b == a;
    } else {
      KindAppend(a, b[..|b| - 1], kind);
      assert (a + b)[..|a + b| - 1] == a + b[..|b| - 1];
    }
  }

  lemma {:induction false} ClippedAppend(a: seq<Span>, b: seq<Span>, start: int, finish: int)
    ensures Clipped(a + b, start, finish) == Clipped(a, start, finish) + Clipped(b, start, finish)
    decreases |b|
  {
    if b == [] {
      assert a + b == a;
    } else {
      ClippedAppend(a, b[..|b| - 1], start, finish);
      assert (a + b)[..|a + b| - 1] == a + b[..|b| - 1];
    }
  }

  lemma {:induction false} KindIsSelected(credits: seq<Credit>, kind: Kind)
    ensures forall s :: s in KindSpans(credits, kind) ==> s in Spans(credits)
  {
    if credits != [] { KindIsSelected(credits[..|credits| - 1], kind); }
  }

  lemma SeparateSnoc(init: seq<Span>, last: Span)
    requires Separate(init) && last.start < last.end && forall s :: s in init ==> Apart(s, last)
    ensures Separate(init + [last])
  {
  }

  lemma {:induction false} KindIsSeparate(credits: seq<Credit>, kind: Kind)
    requires Separate(Spans(credits))
    ensures Separate(KindSpans(credits, kind))
  {
    if credits != [] {
      var init, last := credits[..|credits| - 1], credits[|credits| - 1];
      var spans := Spans(credits);
      assert Spans(init) == spans[..|init|];
      KindIsSeparate(init, kind);
      KindIsSelected(init, kind);
      forall s | s in KindSpans(init, kind) ensures Apart(s, last.span) {
        var i :| 0 <= i < |init| && spans[i] == s;
        assert Apart(spans[i], spans[|init|]);
      }
      if last.kind == kind { SeparateSnoc(KindSpans(init, kind), last.span); }
    }
  }

  lemma {:induction false} ClippedLiesIn(spans: seq<Span>, start: int, finish: int, c: Span) returns (s: Span)
    requires c in Clipped(spans, start, finish)
    ensures s in spans && Meets(s, start, finish) && c == Clip(s, start, finish)
  {
    var init, last := spans[..|spans| - 1], spans[|spans| - 1];
    if c in Clipped(init, start, finish) {
      s := ClippedLiesIn(init, start, finish, c);
    } else {
      s := last;
    }
  }

  lemma {:induction false} ClippedIsSeparate(spans: seq<Span>, start: int, finish: int)
    requires start < finish && Separate(spans)
    ensures Separate(Clipped(spans, start, finish))
  {
    if spans != [] {
      var init, last := spans[..|spans| - 1], spans[|spans| - 1];
      ClippedIsSeparate(init, start, finish);
      if Meets(last, start, finish) {
        forall c | c in Clipped(init, start, finish) ensures Apart(c, Clip(last, start, finish)) {
          var s := ClippedLiesIn(init, start, finish, c);
          var i :| 0 <= i < |init| && init[i] == s;
          assert Apart(spans[i], spans[|init|]);
        }
        SeparateSnoc(Clipped(init, start, finish), Clip(last, start, finish));
      }
    }
  }

  lemma RangeOfClip(span: Span, start: int, finish: int)
    requires Meets(span, start, finish)
    ensures Range(Clip(span, start, finish).start, Clip(span, start, finish).end) == Range(span.start, span.end) * Range(start, finish)
  {
  }

  lemma OutsideClip(span: Span, start: int, finish: int)
    requires !Meets(span, start, finish)
    ensures Range(span.start, span.end) * Range(start, finish) == {}
  {
  }

  lemma {:induction false} ClippedPoints(spans: seq<Span>, start: int, finish: int)
    ensures Points(Clipped(spans, start, finish)) == Points(spans) * Range(start, finish)
  {
    if spans != [] {
      var init, last := spans[..|spans| - 1], spans[|spans| - 1];
      ClippedPoints(init, start, finish);
      if Meets(last, start, finish) {
        RangeOfClip(last, start, finish);
        PointsAppend(Clipped(init, start, finish), [Clip(last, start, finish)]);
        OnePoint(Clip(last, start, finish));
      } else {
        OutsideClip(last, start, finish);
        assert Clipped(spans, start, finish) == Clipped(init, start, finish);
      }
    }
  }

  /** What the new credits of a kind add up to: their points of time, in all and in a day. */
  lemma KindSums(credits: seq<Credit>, kind: Kind, start: int, finish: int)
    requires Separate(Spans(credits)) && start < finish
    ensures Total(KindSpans(credits, kind)) == |Points(KindSpans(credits, kind))|
    ensures Total(Clipped(KindSpans(credits, kind), start, finish)) == |Points(KindSpans(credits, kind)) * Range(start, finish)|
  {
    KindIsSeparate(credits, kind);
    DisjointTotal(KindSpans(credits, kind));
    ClippedIsSeparate(KindSpans(credits, kind), start, finish);
    DisjointTotal(Clipped(KindSpans(credits, kind), start, finish));
    ClippedPoints(KindSpans(credits, kind), start, finish);
  }

  lemma TotalsSplit(l: Ledger, kind: Kind, start: int, finish: int)
    ensures KindTotal(l, kind) == Total(KindSpans(l.historical, kind)) + Total(KindSpans(l.credits, kind))
    ensures DayTotal(l, kind, start, finish)
      == Total(Clipped(KindSpans(l.historical, kind), start, finish)) + Total(Clipped(KindSpans(l.credits, kind), start, finish))
  {
    var before, after := KindSpans(l.historical, kind), KindSpans(l.credits, kind);
    KindAppend(l.historical, l.credits, kind);
    TotalAppend(before, after);
    ClippedAppend(before, after, start, finish);
    TotalAppend(Clipped(before, start, finish), Clipped(after, start, finish));
  }

  lemma CountsOnceIff(past: seq<Span>, added: seq<Span>)
    requires Proper(past) && Separate(added) && Points(past) !! Points(added)
    ensures Total(past + added) >= |Points(past + added)|
    ensures Total(past + added) == |Points(past + added)| <==> Disjoint(past)
  {
    TotalIffDisjoint(past + added);
    if Disjoint(past) { SeparateAppend(past, added); } else { OverlapStays(past, added); }
  }

  lemma KindIsProper(credits: seq<Credit>, kind: Kind)
    requires Proper(Spans(credits))
    ensures Proper(KindSpans(credits, kind))
  {
    KindIsSelected(credits, kind);
    forall i | 0 <= i < |KindSpans(credits, kind)| ensures KindSpans(credits, kind)[i].start < KindSpans(credits, kind)[i].end {
      assert KindSpans(credits, kind)[i] in Spans(credits);
    }
  }

  lemma ClippedIsProper(spans: seq<Span>, start: int, finish: int)
    requires start < finish && Proper(spans)
    ensures Proper(Clipped(spans, start, finish))
  {
    forall i | 0 <= i < |Clipped(spans, start, finish)| ensures Clipped(spans, start, finish)[i].start < Clipped(spans, start, finish)[i].end {
      var s := ClippedLiesIn(spans, start, finish, Clipped(spans, start, finish)[i]);
    }
  }

  lemma KindPointsWithin(credits: seq<Credit>, kind: Kind)
    ensures Points(KindSpans(credits, kind)) <= Points(Spans(credits))
  {
    forall t | t in Points(KindSpans(credits, kind)) ensures t in Points(Spans(credits)) { CreditedToSome(credits, t); }
  }

  /** The moments of a kind, and those of them that lie in a day. */
  function KindPoints(l: Ledger, kind: Kind): set<int> { Points(KindSpans(l.historical + l.credits, kind)) }

  /** The sum of a kind counts each of its moments once, in all and in a day, if and only if the
      history has no overlap of that kind there; otherwise it counts more. */
  lemma SummaryCountsOnceIff(history: Ledger, batch: seq<Interval>, kind: Kind, start: int, finish: int)
    requires Fresh(history) && Appended(history, batch).Ok? && start < finish
    ensures
      var l, past := Appended(history, batch).value, KindSpans(history.historical, kind);
      && KindTotal(l, kind) >= |KindPoints(l, kind)|
      && (KindTotal(l, kind) == |KindPoints(l, kind)| <==> Disjoint(past))
      && DayTotal(l, kind, start, finish) >= |KindPoints(l, kind) * Range(start, finish)|
      && (DayTotal(l, kind, start, finish) == |KindPoints(l, kind) * Range(start, finish)| <==> Disjoint(Clipped(past, start, finish)))
  {
    var l, past := Appended(history, batch).value, KindSpans(history.historical, kind);
    var added := KindSpans(l.credits, kind);
    AcceptedIsAccounted(history, batch);
    KindIsProper(history.historical, kind);
    KindIsSeparate(l.credits, kind);
    KindPointsApart(history, l, kind);
    KindAppend(l.historical, l.credits, kind);
    CountsOnceIff(past, added);
    DayCountsOnceIff(past, added, start, finish);
  }

  lemma KindPointsApart(history: Ledger, l: Ledger, kind: Kind)
    requires Accounted(history, l)
    ensures Points(KindSpans(history.historical, kind)) !! Points(KindSpans(l.credits, kind))
  {
    ExactIsApart(history, l);
    KindPointsWithin(history.historical, kind);
    KindPointsWithin(l.credits, kind);
  }

  lemma DayCountsOnceIff(past: seq<Span>, added: seq<Span>, start: int, finish: int)
    requires Proper(past) && Separate(added) && Points(past) !! Points(added) && start < finish
    ensures
      var day := Points(past + added) * Range(start, finish);
      && Total(Clipped(past + added, start, finish)) >= |day|
      && (Total(Clipped(past + added, start, finish)) == |day| <==> Disjoint(Clipped(past, start, finish)))
  {
    ClippedAppend(past, added, start, finish);
    ClippedPoints(past + added, start, finish);
    ClippedPoints(past, start, finish);
    ClippedPoints(added, start, finish);
    ClippedIsProper(past, start, finish);
    ClippedIsSeparate(added, start, finish);
    CountsOnceIff(Clipped(past, start, finish), Clipped(added, start, finish));
  }

  // ---- Who gets a moment --------------------------------------------------------------

  predicate New(history: Ledger, x: Interval) { x.id !in history.events }

  /** The kind of the first new interval of the batch that covers the moment. */
  function FirstKind(history: Ledger, batch: seq<Interval>, t: int): Option<Kind> {
    if batch == [] then None
    else
      var earlier, last := FirstKind(history, batch[..|batch| - 1], t), batch[|batch| - 1];
      if earlier.Some? then earlier else if New(history, last) && Covers(last, t) then Some(last.kind) else None
  }

  lemma {:induction false} FirstIsThere(history: Ledger, batch: seq<Interval>, t: int) returns (x: Interval)
    requires FirstKind(history, batch, t).Some?
    ensures x in batch && New(history, x) && Covers(x, t) && FirstKind(history, batch, t) == Some(x.kind)
  {
    var init := batch[..|batch| - 1];
    if FirstKind(history, init, t).Some? { x := FirstIsThere(history, init, t); } else { x := batch[|batch| - 1]; }
  }

  lemma {:induction false} SomeoneIsFirst(history: Ledger, batch: seq<Interval>, t: int, x: Interval)
    requires x in batch && New(history, x) && Covers(x, t)
    ensures FirstKind(history, batch, t).Some?
  {
    var init, last := batch[..|batch| - 1], batch[|batch| - 1];
    if x != last {
      assert batch == init + [last];
      SomeoneIsFirst(history, init, t, x);
    }
  }

  lemma {:induction false} HeadIsFirst(history: Ledger, x: Interval, rest: seq<Interval>, t: int)
    requires New(history, x)
    ensures FirstKind(history, [x] + rest, t) == if Covers(x, t) then Some(x.kind) else FirstKind(history, rest, t)
    decreases |rest|
  {
    if rest == [] {
      assert [x] + rest == [x] && [x][..0] == [];
    } else {
      HeadIsFirst(history, x, rest[..|rest| - 1], t);
      assert ([x] + rest)[..|rest|] == [x] + rest[..|rest| - 1];
    }
  }

  lemma PiecesHaveKind(input: Interval, spans: seq<Span>, kind: Kind)
    ensures KindSpans(Pieces(input, spans), kind) == if input.kind == kind then spans else []
  {
    if spans != [] {
      PiecesHaveKind(input, spans[..|spans| - 1], kind);
      assert Pieces(input, spans)[..|spans| - 1] == Pieces(input, spans[..|spans| - 1]);
    }
  }

  lemma KindGrows(l: Ledger, input: Interval, kind: Kind)
    requires input.id !in l.events && AppendedOne(l, input).Ok?
    ensures
      var l' := AppendedOne(l, input).value;
      Points(KindSpans(l'.credits, kind)) == Points(KindSpans(l.credits, kind)) + if input.kind == kind then Points(PiecesOf(l, input)) else {}
  {
    KindAppend(l.credits, Pieces(input, PiecesOf(l, input)), kind);
    PiecesHaveKind(input, PiecesOf(l, input), kind);
    PointsAppend(KindSpans(l.credits, kind), KindSpans(Pieces(input, PiecesOf(l, input)), kind));
  }

  /** The moment is credited to the kind. */
  predicate CreditedTo(l: Ledger, kind: Kind, t: int) { t in Points(KindSpans(l.credits, kind)) }

  lemma {:induction false} CreditedToSome(credits: seq<Credit>, t: int)
    ensures t in Points(Spans(credits)) <==> t in Points(KindSpans(credits, Speaking)) || t in Points(KindSpans(credits, Review))
  {
    if credits != [] {
      var init, last := credits[..|credits| - 1], credits[|credits| - 1];
      CreditedToSome(init, t);
      assert Spans(credits) == Spans(init) + [last.span] && credits == init + [last];
      PointsAppend(Spans(init), [last.span]);
      LastPoints(init, last, Speaking);
      LastPoints(init, last, Review);
    }
  }

  lemma LastPoints(init: seq<Credit>, last: Credit, kind: Kind)
    ensures Points(KindSpans(init + [last], kind)) == Points(KindSpans(init, kind)) + if last.kind == kind then Points([last.span]) else {}
  {
    assert (init + [last])[..|init|] == init;
    if last.kind == kind {
      PointsAppend(KindSpans(init, kind), [last.span]);
    } else {
      assert KindSpans(init + [last], kind) == KindSpans(init, kind);
    }
  }

  predicate Fresh(history: Ledger) { history.credits == [] && Proper(Spans(history.historical)) }

  lemma AcceptedIsAccounted(history: Ledger, batch: seq<Interval>)
    requires Fresh(history) && Appended(history, batch).Ok?
    ensures Accounted(history, Appended(history, batch).value)
  {
    HistoryIsAccounted(history);
    CreditsAreDisjoint(history, history, batch);
  }

  /** A moment outside the history is credited to the kind that covered it first. */
  predicate GoesTo(history: Ledger, l: Ledger, first: Option<Kind>, t: int) {
    && (CreditedTo(l, Speaking, t) <==> t !in Points(Spans(history.historical)) && first == Some(Speaking))
    && (CreditedTo(l, Review, t) <==> t !in Points(Spans(history.historical)) && first == Some(Review))
  }

  lemma {:induction false} CreditedToFirst(history: Ledger, batch: seq<Interval>, t: int)
    requires Fresh(history) && Appended(history, batch).Ok?
    ensures GoesTo(history, Appended(history, batch).value, FirstKind(history, batch, t), t)
  {
    if batch != [] {
      var init, last := batch[..|batch| - 1], batch[|batch| - 1];
      var before := Appended(history, init).value;
      CreditedToFirst(history, init, t);
      if last.id in before.events {
        KnownIsLater(history, init, last, t);
      } else {
        NextGets(history, init, last, t);
      }
    }
  }

  /** An interval that was accepted before is not the first to cover anything. */
  lemma KnownIsLater(history: Ledger, init: seq<Interval>, last: Interval, t: int)
    requires Appended(history, init).Ok? && last.id in Appended(history, init).value.events && AppendedOne(Appended(history, init).value, last).Ok?
    ensures New(history, last) && Covers(last, t) ==> FirstKind(history, init, t).Some?
  {
    if New(history, last) && Covers(last, t) {
      AcceptedIff(history, init);
      var x :| x in init && x.id == last.id;
      assert SameInterval(Appended(history, init).value.events[x.id], x);
      SomeoneIsFirst(history, init, t, x);
    }
  }

  lemma PiecesAfter(history: Ledger, init: seq<Interval>, last: Interval, t: int)
    requires Fresh(history) && Appended(history, init).Ok?
    ensures
      var before := Appended(history, init).value;
      && (last.id !in before.events ==> New(history, last))
      && (t in Points(PiecesOf(before, last)) <==>
            Covers(last, t) && t !in Points(Spans(history.historical)) && t !in Points(Spans(before.credits)))
  {
    AcceptedIsAccounted(history, init);
    PiecesAre(Appended(history, init).value, last);
  }

  lemma NextGets(history: Ledger, init: seq<Interval>, last: Interval, t: int)
    requires Fresh(history) && Appended(history, init).Ok? && GoesTo(history, Appended(history, init).value, FirstKind(history, init, t), t)
    requires last.id !in Appended(history, init).value.events && AppendedOne(Appended(history, init).value, last).Ok?
    ensures
      var before, first := Appended(history, init).value, FirstKind(history, init, t);
      && New(history, last)
      && GoesTo(history, AppendedOne(before, last).value, if first.Some? then first else if Covers(last, t) then Some(last.kind) else None, t)
  {
    var before, first := Appended(history, init).value, FirstKind(history, init, t);
    PiecesAfter(history, init, last, t);
    CreditedToSome(before.credits, t);
    KindGrowsAt(before, last, Speaking, t);
    KindGrowsAt(before, last, Review, t);
    NewGets(history, before, AppendedOne(before, last).value, last, first, t, t in Points(PiecesOf(before, last)));
  }

  lemma KindGrowsAt(l: Ledger, input: Interval, kind: Kind, t: int)
    requires input.id !in l.events && AppendedOne(l, input).Ok?
    ensures CreditedTo(AppendedOne(l, input).value, kind, t) <==> CreditedTo(l, kind, t) || (input.kind == kind && t in Points(PiecesOf(l, input)))
  {
    KindGrows(l, input, kind);
  }

  /** `piece` says whether the moment is in a piece of the last interval. */
  lemma NewGets(history: Ledger, before: Ledger, after: Ledger, last: Interval, first: Option<Kind>, t: int, piece: bool)
    requires GoesTo(history, before, first, t)
    requires CreditedTo(after, Speaking, t) <==> CreditedTo(before, Speaking, t) || (last.kind == Speaking && piece)
    requires CreditedTo(after, Review, t) <==> CreditedTo(before, Review, t) || (last.kind == Review && piece)
    requires piece <==>
      Covers(last, t) && t !in Points(Spans(history.historical)) && !CreditedTo(before, Speaking, t) && !CreditedTo(before, Review, t)
    ensures GoesTo(history, after, if first.Some? then first else if Covers(last, t) then Some(last.kind) else None, t)
  {
    match first
    case None =>
    case Some(Speaking) =>
    case Some(Review) =>
  }

  // ---- When the order does not matter -------------------------------------------------

  /** No two new intervals of different kinds overlap outside the history. */
  ghost predicate Unmixed(history: Ledger, batch: seq<Interval>) {
    forall x, y, t :: x in batch && y in batch && New(history, x) && New(history, y) && x.kind != y.kind && Covers(x, t) && Covers(y, t) ==>
      t in Points(Spans(history.historical))
  }

  ghost predicate SameIntervals(a: seq<Interval>, b: seq<Interval>) { forall x :: x in a <==> x in b }

  lemma UnmixedFirst(history: Ledger, a: seq<Interval>, b: seq<Interval>, t: int)
    requires Unmixed(history, a) && SameIntervals(a, b) && t !in Points(Spans(history.historical))
    ensures FirstKind(history, a, t) == FirstKind(history, b, t)
  {
    if FirstKind(history, a, t).Some? {
      var x := FirstIsThere(history, a, t);
      SomeoneIsFirst(history, b, t, x);
    }
    if FirstKind(history, b, t).Some? {
      var y := FirstIsThere(history, b, t);
      SomeoneIsFirst(history, a, t, y);
    }
  }

  lemma UnmixedGets(history: Ledger, a: seq<Interval>, b: seq<Interval>, kind: Kind, t: int)
    requires Fresh(history) && Unmixed(history, a) && SameIntervals(a, b) && Appended(history, a).Ok? && Appended(history, b).Ok?
    ensures CreditedTo(Appended(history, a).value, kind, t) <==> CreditedTo(Appended(history, b).value, kind, t)
  {
    CreditedToFirst(history, a, t);
    CreditedToFirst(history, b, t);
    if t !in Points(Spans(history.historical)) { UnmixedFirst(history, a, b, t); }
  }

  lemma UnmixedPoints(history: Ledger, a: seq<Interval>, b: seq<Interval>, kind: Kind)
    requires Fresh(history) && Unmixed(history, a) && SameIntervals(a, b) && Appended(history, a).Ok? && Appended(history, b).Ok?
    ensures Points(KindSpans(Appended(history, a).value.credits, kind)) == Points(KindSpans(Appended(history, b).value.credits, kind))
  {
    var l, m := Appended(history, a).value, Appended(history, b).value;
    forall t ensures CreditedTo(l, kind, t) <==> CreditedTo(m, kind, t) { UnmixedGets(history, a, b, kind, t); }
    SamePoints(l, m, kind);
  }

  lemma SamePoints(l: Ledger, m: Ledger, kind: Kind)
    requires forall t :: CreditedTo(l, kind, t) ==> CreditedTo(m, kind, t)
    requires forall t :: CreditedTo(m, kind, t) ==> CreditedTo(l, kind, t)
    ensures Points(KindSpans(l.credits, kind)) == Points(KindSpans(m.credits, kind))
  {
    FewerPoints(l, m, kind);
    FewerPoints(m, l, kind);
  }

  lemma FewerPoints(l: Ledger, m: Ledger, kind: Kind)
    requires forall t :: CreditedTo(l, kind, t) ==> CreditedTo(m, kind, t)
    ensures Points(KindSpans(l.credits, kind)) <= Points(KindSpans(m.credits, kind))
  {
    forall t | t in Points(KindSpans(l.credits, kind)) ensures t in Points(KindSpans(m.credits, kind)) { assert CreditedTo(l, kind, t); }
  }

  /** Without such an overlap the sums of every kind, in all and in every day, do not depend on
      the order of arrival. */
  lemma UnmixedIsFree(history: Ledger, a: seq<Interval>, b: seq<Interval>, kind: Kind, start: int, finish: int)
    requires Fresh(history) && Unmixed(history, a) && SameIntervals(a, b) && Appended(history, a).Ok? && start < finish
    ensures
      && Appended(history, b).Ok?
      && KindTotal(Appended(history, a).value, kind) == KindTotal(Appended(history, b).value, kind)
      && DayTotal(Appended(history, a).value, kind, start, finish) == DayTotal(Appended(history, b).value, kind, start, finish)
  {
    OrderIsFree(history, a, b);
    var l, m := Appended(history, a).value, Appended(history, b).value;
    AcceptedIsAccounted(history, a);
    AcceptedIsAccounted(history, b);
    UnmixedPoints(history, a, b, kind);
    TotalsSplit(l, kind, start, finish);
    TotalsSplit(m, kind, start, finish);
    KindSums(l.credits, kind, start, finish);
    KindSums(m.credits, kind, start, finish);
  }

  // ---- When it does -------------------------------------------------------------------

  /** The same intervals with one of them sent ahead. */
  lemma SentAhead(history: Ledger, batch: seq<Interval>, x: Interval)
    requires Fresh(history) && Appended(history, batch).Ok? && x in batch
    ensures SameIntervals(batch, [x] + batch) && Appended(history, [x] + batch).Ok?
  {
    forall y ensures y in batch <==> y in [x] + batch {}
    OrderIsFree(history, batch, [x] + batch);
  }

  lemma SmallerSet(a: set<int>, b: set<int>, t: int)
    requires a <= b && t in b && t !in a
    ensures |a| < |b|
  {
    assert a + {t} <= b;
    SubsetSize(a + {t}, b);
  }

  lemma {:induction false} SubsetSize(a: set<int>, b: set<int>)
    requires a <= b
    ensures |a| <= |b|
  {
    assert b == a + (b - a);
  }

  /** If a spoken and a reviewed moment coincide, sending the one or the other ahead changes the
      spoken total. */
  lemma MixedDiffers(history: Ledger, batch: seq<Interval>, x: Interval, y: Interval, t: int)
    requires Fresh(history) && Appended(history, batch).Ok? && x in batch && y in batch
    requires New(history, x) && New(history, y) && x.kind == Speaking && y.kind == Review
    requires Covers(x, t) && Covers(y, t) && t !in Points(Spans(history.historical))
    ensures Appended(history, [x] + batch).Ok? && Appended(history, [y] + batch).Ok?
    ensures KindTotal(Appended(history, [x] + batch).value, Speaking) > KindTotal(Appended(history, [y] + batch).value, Speaking)
  {
    SentAhead(history, batch, x);
    SentAhead(history, batch, y);
    var l, m := Appended(history, [x] + batch).value, Appended(history, [y] + batch).value;
    var more, fewer := Points(KindSpans(l.credits, Speaking)), Points(KindSpans(m.credits, Speaking));
    AheadGetsMore(history, batch, x, y, t);
    SmallerSet(fewer, more, t);
    AcceptedIsAccounted(history, [x] + batch);
    AcceptedIsAccounted(history, [y] + batch);
    KindSums(l.credits, Speaking, 0, 1);
    KindSums(m.credits, Speaking, 0, 1);
    TotalsSplit(l, Speaking, 0, 1);
    TotalsSplit(m, Speaking, 0, 1);
  }

  lemma AheadGets(history: Ledger, batch: seq<Interval>, x: Interval, y: Interval, t: int)
    requires Fresh(history) && Appended(history, [x] + batch).Ok? && Appended(history, [y] + batch).Ok?
    requires New(history, x) && New(history, y) && x.kind == Speaking && y.kind == Review
    ensures
      var l, m := Appended(history, [x] + batch).value, Appended(history, [y] + batch).value;
      && (CreditedTo(m, Speaking, t) ==> CreditedTo(l, Speaking, t))
      && (Covers(x, t) && Covers(y, t) && t !in Points(Spans(history.historical)) ==> CreditedTo(l, Speaking, t) && !CreditedTo(m, Speaking, t))
  {
    CreditedToFirst(history, [x] + batch, t);
    CreditedToFirst(history, [y] + batch, t);
    HeadIsFirst(history, x, batch, t);
    HeadIsFirst(history, y, batch, t);
  }

  lemma AheadGetsMore(history: Ledger, batch: seq<Interval>, x: Interval, y: Interval, t: int)
    requires Fresh(history) && Appended(history, [x] + batch).Ok? && Appended(history, [y] + batch).Ok?
    requires New(history, x) && New(history, y) && x.kind == Speaking && y.kind == Review
    requires Covers(x, t) && Covers(y, t) && t !in Points(Spans(history.historical))
    ensures
      var l, m := Appended(history, [x] + batch).value, Appended(history, [y] + batch).value;
      Points(KindSpans(m.credits, Speaking)) <= Points(KindSpans(l.credits, Speaking)) && CreditedTo(l, Speaking, t) && !CreditedTo(m, Speaking, t)
  {
    var l, m := Appended(history, [x] + batch).value, Appended(history, [y] + batch).value;
    forall u ensures CreditedTo(m, Speaking, u) ==> CreditedTo(l, Speaking, u) { AheadGets(history, batch, x, y, u); }
    FewerPoints(m, l, Speaking);
    AheadGets(history, batch, x, y, t);
  }

  /** The spoken total is the same for every order of arrival. */
  ghost predicate SpokenIsFree(history: Ledger, batch: seq<Interval>)
    requires Appended(history, batch).Ok?
  {
    forall b :: SameIntervals(batch, b) && Appended(history, b).Ok? ==> Spoken(history, b) == Spoken(history, batch)
  }

  function Spoken(history: Ledger, batch: seq<Interval>): int
    requires Appended(history, batch).Ok?
  {
    KindTotal(Appended(history, batch).value, Speaking)
  }

  /** The total of a kind is independent of the order of arrival if and only if no two intervals
      of different kinds overlap outside the history. */
  lemma KindTotalIsFreeIff(history: Ledger, batch: seq<Interval>)
    requires Fresh(history) && Appended(history, batch).Ok?
    ensures SpokenIsFree(history, batch) <==> Unmixed(history, batch)
  {
    if Unmixed(history, batch) { UnmixedIsSpokenFree(history, batch); } else { MixedIsNotFree(history, batch); }
  }

  lemma UnmixedIsSpokenFree(history: Ledger, batch: seq<Interval>)
    requires Fresh(history) && Appended(history, batch).Ok? && Unmixed(history, batch)
    ensures SpokenIsFree(history, batch)
  {
    forall b | SameIntervals(batch, b) && Appended(history, b).Ok? ensures Spoken(history, b) == Spoken(history, batch) {
      UnmixedIsFree(history, batch, b, Speaking, 0, 1);
    }
  }

  lemma FreeAgrees(history: Ledger, batch: seq<Interval>, b: seq<Interval>, c: seq<Interval>)
    requires Appended(history, batch).Ok? && SpokenIsFree(history, batch)
    requires SameIntervals(batch, b) && Appended(history, b).Ok? && SameIntervals(batch, c) && Appended(history, c).Ok?
    ensures Spoken(history, b) == Spoken(history, c)
  {
  }

  lemma OverlapIsNotFree(history: Ledger, batch: seq<Interval>, x: Interval, y: Interval, t: int)
    requires Fresh(history) && Appended(history, batch).Ok? && x in batch && y in batch
    requires New(history, x) && New(history, y) && x.kind == Speaking && y.kind == Review
    requires Covers(x, t) && Covers(y, t) && t !in Points(Spans(history.historical))
    ensures !SpokenIsFree(history, batch)
  {
    SentAhead(history, batch, x);
    SentAhead(history, batch, y);
    MixedDiffers(history, batch, x, y, t);
    if SpokenIsFree(history, batch) { FreeAgrees(history, batch, [x] + batch, [y] + batch); }
  }

  lemma MixedIsNotFree(history: Ledger, batch: seq<Interval>)
    requires Fresh(history) && Appended(history, batch).Ok? && !Unmixed(history, batch)
    ensures !SpokenIsFree(history, batch)
  {
    var x, y, t :| x in batch && y in batch && New(history, x) && New(history, y) && x.kind != y.kind && Covers(x, t) && Covers(y, t)
                   && t !in Points(Spans(history.historical));
    if x.kind == Speaking { OverlapIsNotFree(history, batch, x, y, t); } else { OverlapIsNotFree(history, batch, y, x, t); }
  }

  // ---- Two tabs -----------------------------------------------------------------------

  const NO_HISTORY := Ledger(0, map[], [], [])
  const SPOKEN := Interval("speaking", Speaking, 0, 10 * MILLISECOND)
  const REVIEWED := Interval("reviewing", Review, 5 * MILLISECOND, 15 * MILLISECOND)

  /** Two overlapping intervals of ten milliseconds: whichever arrives first takes the five that
      they share. */
  lemma OrderDecidesTheKind()
    ensures
      var l, m := Appended(NO_HISTORY, [SPOKEN, REVIEWED]), Appended(NO_HISTORY, [REVIEWED, SPOKEN]);
      && l.Ok? && m.Ok?
      && KindTotal(l.value, Speaking) == 10 * MILLISECOND && KindTotal(m.value, Speaking) == 5 * MILLISECOND
  {
    TwoAccepted(SPOKEN, REVIEWED);
    TwoAccepted(REVIEWED, SPOKEN);
    SpokenIs(SPOKEN, REVIEWED, 0, 10 * MILLISECOND);
    SpokenIs(REVIEWED, SPOKEN, 0, 5 * MILLISECOND);
  }

  lemma TwoAccepted(x: Interval, y: Interval)
    requires x.start >= 0 && y.start >= 0 && x.id != y.id
    ensures Appended(NO_HISTORY, [x, y]).Ok?
  {
    AcceptedIff(NO_HISTORY, [x, y]);
  }

  lemma SpokenIs(x: Interval, y: Interval, start: int, finish: int)
    requires start <= finish && Appended(NO_HISTORY, [x, y]).Ok?
    requires forall t :: start <= t < finish <==> (if Covers(x, t) then x.kind == Speaking else Covers(y, t) && y.kind == Speaking)
    ensures KindTotal(Appended(NO_HISTORY, [x, y]).value, Speaking) == finish - start
  {
    var l := Appended(NO_HISTORY, [x, y]).value;
    forall t ensures t in Points(KindSpans(l.credits, Speaking)) <==> t in Range(start, finish) {
      CreditedToFirst(NO_HISTORY, [x, y], t);
      TwoFirst(x, y, t);
    }
    assert Points(KindSpans(l.credits, Speaking)) == Range(start, finish);
    RangeSize(start, finish);
    AcceptedIsAccounted(NO_HISTORY, [x, y]);
    KindSums(l.credits, Speaking, 0, 1);
    TotalsSplit(l, Speaking, 0, 1);
  }

  lemma TwoFirst(x: Interval, y: Interval, t: int)
    ensures FirstKind(NO_HISTORY, [x, y], t) == if Covers(x, t) then Some(x.kind) else if Covers(y, t) then Some(y.kind) else None
  {
    assert [x] + [y] == [x, y] && [y][..0] == [];
    HeadIsFirst(NO_HISTORY, x, [y], t);
  }
}
