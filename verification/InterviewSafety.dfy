/** What every run of an interview guarantees. */
module InterviewSafety {
  import opened Prelude
  import opened Text
  import opened Timeline
  import opened WorkQueue
  import opened Interview
  import opened InterviewShape
  import opened InterviewMoves
  import opened InterviewRuns
  import opened InterviewFence

  // ---- The shape of a session that is being recorded ----------------------------------

  /** The turns are numbered 1..n and tile the time from 0; a turn with a successor lasts at least
      300 ms; only the last turn may be open; the limit bounds n; consumed candidates and later
      turns are in bijection; at most one candidate waits; a skipped turn has neither audio nor
      text. */
  ghost predicate ActiveShape(s: Session) {
    var n := LastSeq(s);
    && (forall k :: k in s.turns <==> 1 <= k <= n)
    && 1 <= n && s.turns[1].asked == 0
    && (forall k :: 1 <= k < n ==> s.turns[k].ended == Some(s.turns[k + 1].asked) && s.turns[k + 1].asked - s.turns[k].asked >= 300)
    && (s.turns[n].ended.Some? <==> s.turns[n].skipped)
    && n <= (s.maxSeconds * 1000 - 1) / 300 + 1
    && Bijection(s.turns, s.candidates) && AtMostOneUnused(s.candidates)
    && (forall k :: k in s.turns && s.turns[k].skipped ==>
          s.turns[k].audio.None? && s.turns[k].provisional.None? && s.turns[k].finalText.None?)
  }

  lemma ShapeOf(s: Session)
    requires SessionOk(s) && s.status == Active
    ensures ActiveShape(s)
  {
    TurnCountBounded(s);
    forall k | 1 <= k < LastSeq(s) ensures Follows(s.turns[k], s.turns[k + 1]) {}
    forall k | k in s.turns ensures TurnOk(s.turns[k]) {}
  }

  /** In every reachable state in which the interview is being recorded it has that shape. */
  lemma ActiveSessionShape(openingQuestion: string, maxSeconds: int, expiresAt: int, actions: seq<Action>)
    requires 1 <= maxSeconds <= 600
    requires Run(Created(openingQuestion, maxSeconds, expiresAt), actions).t.session.status == Active
    ensures ActiveShape(Run(Created(openingQuestion, maxSeconds, expiresAt), actions).t.session)
  {
    CreatedIsFenced(openingQuestion, maxSeconds, expiresAt);
    RunKeepsFence(Created(openingQuestion, maxSeconds, expiresAt), actions);
    ShapeOf(Run(Created(openingQuestion, maxSeconds, expiresAt), actions).t.session);
  }

  // ---- Advance can be repeated for ever -----------------------------------------------

  /** The turn that a committed Advance asked is there, as requested. */
  predicate Recorded(s: Session, input: AdvanceInput) {
    && input.current >= 1 && input.current in s.turns && input.current + 1 in s.turns
    && s.turns[input.current + 1].advanceKey == Some(input.key)
    && SameAdvance(s, input.current + 1, input)
  }

  lemma AdvanceRecords(t: Tables, input: AdvanceInput, turn: Id, job: Id, now: int)
    requires SessionOk(t.session) && Advanced(t, input, turn, job, now).1 == Done
    ensures Recorded(Advanced(t, input, turn, job, now).0.session, input)
  {
    if AdvancedBy(t.session, input.key) > 0 {
      ReplayRecords(t, input, turn, job, now);
    } else {
      FirstRecords(t, input, turn, job, now);
    }
  }

  lemma ReplayRecords(t: Tables, input: AdvanceInput, turn: Id, job: Id, now: int)
    requires AdvancedBy(t.session, input.key) > 0 && 0 !in t.session.turns && Advanced(t, input, turn, job, now).1 == Done
    ensures Recorded(Advanced(t, input, turn, job, now).0.session, input)
  {
    AskedIs(t.session, input.key);
  }

  lemma FirstRecords(t: Tables, input: AdvanceInput, turn: Id, job: Id, now: int)
    requires Contiguous(t.session.turns) && AdvancedBy(t.session, input.key) == 0 && Advanced(t, input, turn, job, now).1 == Done
    ensures Recorded(Advanced(t, input, turn, job, now).0.session, input)
  {
    NoRefusal(t.session, input, now);
    AdvancedSessionRecords(t.session, input, turn);
  }

  lemma AskedIs(s: Session, key: nat)
    requires AdvancedBy(s, key) > 0
    ensures AdvancedBy(s, key) in AskedWith(s, key)
  {
  }

  lemma AdvancedSessionRecords(s: Session, input: AdvanceInput, turn: Id)
    requires Contiguous(s.turns) && Advanceable(s, input) && input.current == LastSeq(s)
    ensures Recorded(AdvancedSession(s, input, turn), input)
  {
    var s', n := AdvancedSession(s, input, turn), LastSeq(s);
    assert s'.turns == Appended(s.turns, n, s'.turns[n], s'.turns[n + 1]);
    AppendGrows(s.turns, n, s'.turns[n], s'.turns[n + 1]);
  }

  lemma MovesKeepRecord(s: Session, s': Session, next: nat, batch: Option<Id>, input: AdvanceInput)
    requires SessionMoves(s, s', next, batch) && Recorded(s, input)
    ensures Recorded(s', input)
  {
    assert input.current < LastSeq(s);
    assert SameIdentity(s.turns[input.current + 1], s'.turns[input.current + 1]);
  }

  lemma {:induction false} RunKeepsRecord(w: World, actions: seq<Action>, input: AdvanceInput)
    requires SessionInv(w) && Recorded(w.t.session, input)
    ensures Recorded(Run(w, actions).t.session, input)
    decreases |actions|
  {
    if actions != [] {
      var a := actions[0];
      StepKeepsSession(w, a);
      StepMovesSession(w, a);
      MovesKeepRecord(w.t.session, Step(w, a).t.session, w.next, BatchTurn(w, a), input);
      RunKeepsRecord(Step(w, a), actions[1..], input);
    }
  }

  lemma RecordedKey(s: Session, input: AdvanceInput)
    requires SessionOk(s) && Recorded(s, input)
    ensures AdvancedBy(s, input.key) == input.current + 1
  {
    assert input.current + 1 in AskedWith(s, input.key);
    forall n | n in AskedWith(s, input.key) ensures n == input.current + 1 {}
  }

  /** Once an Advance has committed, the same request succeeds and changes nothing in every
      later state of the session, whatever its status by then, and a request that reuses the
      key with any field changed is a conflict. */
  lemma AdvanceReplaysForever(w: World, input: AdvanceInput, actions: seq<Action>, again: AdvanceInput, turn: Id, job: Id, now: int)
    requires SessionInv(w)
    requires Advanced(w.t, input, Uuid(w.next), Uuid(w.next + 1), w.now).1 == Done
    requires again.key == input.key
    ensures
      var end := Run(Step(w, Advance(input)), actions);
      Advanced(end.t, again, turn, job, now) == (end.t, if again == input then Done else Conflict)
  {
    var w1 := Step(w, Advance(input));
    CommitIsRecorded(w, input);
    StepKeepsSession(w, Advance(input));
    RunKeepsRecord(w1, actions, input);
    RunKeepsSession(w1, actions);
    RecordedReplays(Run(w1, actions).t, input, again, turn, job, now);
  }

  lemma CommitIsRecorded(w: World, input: AdvanceInput)
    requires SessionInv(w) && Advanced(w.t, input, Uuid(w.next), Uuid(w.next + 1), w.now).1 == Done
    ensures Recorded(ClientStep(w, Advance(input)).t.session, input)
  {
    AdvanceRecords(w.t, input, Uuid(w.next), Uuid(w.next + 1), w.now);
    AdvanceStep(w, Advance(input));
  }

  lemma RecordedReplays(t: Tables, input: AdvanceInput, again: AdvanceInput, turn: Id, job: Id, now: int)
    requires SessionOk(t.session) && Recorded(t.session, input) && again.key == input.key
    ensures Advanced(t, again, turn, job, now) == (t, if again == input then Done else Conflict)
  {
    RecordedKey(t.session, input);
    assert SameAdvance(t.session, input.current + 1, again) <==> again == input;
  }

  // ---- A linked interview composes to the same transcript for ever --------------------

  /** The rows the composer reads are the same, except that an answer may have been replaced by
      its collapsed form. */
  ghost predicate SameTimeline(s: Session, s': Session) {
    && s'.turns.Keys == s.turns.Keys && s'.recording == s.recording
    && forall n :: n in s.turns ==> SameAnswer(TimelineRow(n, s.turns[n]), TimelineRow(n, s'.turns[n]))
  }

  lemma {:induction false} RowsAre(turns: Turns, n: nat)
    requires Contiguous(turns) && n <= Highest(turns.Keys)
    ensures |RowsUpTo(turns, n)| == n
    ensures forall i :: 0 <= i < n ==> i + 1 in turns && RowsUpTo(turns, n)[i] == TimelineRow(i + 1, turns[i + 1])
  {
    if n > 0 { RowsAre(turns, n - 1); }
  }

  lemma SameTimelineComposes(s: Session, s': Session)
    requires Contiguous(s.turns) && SameTimeline(s, s')
    ensures Composition(LoadedTimeline(s')) == Composition(LoadedTimeline(s))
  {
    RowsAre(s.turns, LastSeq(s));
    assert Contiguous(s'.turns);
    RowsAre(s'.turns, LastSeq(s'));
    SameComposition(LoadedTimeline(s), LoadedTimeline(s'));
  }

  lemma SameTurnsSameTimeline(s: Session, s': Session)
    requires s'.turns == s.turns && s'.recording == s.recording
    ensures SameTimeline(s, s')
  {
  }

  lemma UpdateSameTimeline(s: Session, n: nat, turn: Turn)
    requires n in s.turns
    requires SameAnswer(TimelineRow(n, s.turns[n]), TimelineRow(n, turn))
    ensures SameTimeline(s, WithTurn(s, n, turn))
  {
    UpdateKeepsKeys(s.turns, n, turn);
  }

  /** A session that is linked: what the other transactions find. */
  ghost predicate LinkedSession(s: Session) { SessionOk(s) && s.recording.Some? }

  lemma LinkedStatus(s: Session)
    requires LinkedSession(s)
    ensures s.status in {Finalizing, Finalized} && AllAnswersReady(s)
  {
  }

  lemma LinkedFreezesSession(w: World, a: Action)
    requires LinkedSession(w.t.session) && !IsWorkerStep(a)
    requires a.Start? || a.Skip? || a.Cancel? || a.Outdate? || a.Link?
    ensures ClientStep(w, a).t.session == w.t.session
  {
    LinkedStatus(w.t.session);
  }

  lemma LinkedFreezesAdvance(w: World, a: Action)
    requires LinkedSession(w.t.session) && a.Advance?
    ensures ClientStep(w, a).t.session == w.t.session
  {
    LinkedStatus(w.t.session);
    AdvanceStep(w, a);
  }

  lemma LinkedFreezesRealtime(w: World, a: Action)
    requires LinkedSession(w.t.session) && a.SaveRealtime?
    ensures ClientStep(w, a).t.session == w.t.session
  {
    LinkedStatus(w.t.session);
    RealtimeStep(w, a);
    ReadyRefusesRealtime(w.t, a.key, a.n, a.text, Uuid(w.next + 1), w.now);
  }

  lemma ReadyRefusesRealtime(t: Tables, key: nat, n: nat, text: string, job: Id, now: int)
    requires t.session.status in {Finalizing, Finalized}
    ensures SavedRealtime(t, key, n, text, job, now).0 == t
  {
  }

  lemma AttachCases(t: Tables, key: nat, n: nat, asset: Id, usable: bool, job: Id, now: int)
    requires LinkedSession(t.session)
    ensures
      var s, s' := t.session, Attached(t, key, n, asset, usable, job, now).0.session;
      s' == s || (n in s.turns && s' == WithTurn(s, n, s.turns[n].(audio := Some(asset), audioKey := Some(key))))
  {
    LinkedStatus(t.session);
  }

  lemma LinkedAttach(w: World, a: Action)
    requires LinkedSession(w.t.session) && a.Attach?
    ensures SameTimeline(w.t.session, ClientStep(w, a).t.session)
  {
    var s := w.t.session;
    AttachStep(w, a);
    AttachCases(w.t, a.key, a.n, a.asset, a.usable, Uuid(w.next + 1), w.now);
    SameTurnsSameTimeline(s, s);
    if a.n in s.turns { UpdateSameTimeline(s, a.n, s.turns[a.n].(audio := Some(a.asset), audioKey := Some(a.key))); }
  }

  lemma FinalizeKeepsTimeline(s: Session, key: nat, endedMs: int, recording: Id)
    ensures SameTimeline(s, FinalizedSession(s, key, endedMs, recording).0)
  {
    var s', n := FinalizedSession(s, key, endedMs, recording).0, LastAnswered(s);
    FinalizeCases(s, key, endedMs, recording);
    if s'.turns == s.turns {
      SameTurnsSameTimeline(s, s');
    } else {
      var closed := WithTurn(s, n, s.turns[n].(ended := Some(endedMs)));
      UpdateSameTimeline(s, n, s.turns[n].(ended := Some(endedMs)));
      SameTurnsSameTimeline(closed, s');
    }
  }

  lemma DurationKeepsTimeline(s: Session, actualMs: int)
    ensures SameTimeline(s, DurationVerified(s, actualMs))
  {
    var n := LastAnswered(s);
    SameTurnsSameTimeline(s, s);
    if n in s.turns { UpdateSameTimeline(s, n, DurationVerified(s, actualMs).turns[n]); }
  }

  lemma LinkedFinalize(w: World, a: Action)
    requires a.Finalize?
    ensures SameTimeline(w.t.session, ClientStep(w, a).t.session)
  {
    FinalizeStep(w, a);
    FinalizeKeepsTimeline(w.t.session, a.key, a.endedMs, a.recording);
  }

  lemma LinkedDuration(w: World, a: Action)
    requires a.VerifyDuration?
    ensures SameTimeline(w.t.session, ClientStep(w, a).t.session)
  {
    DurationStep(w, a);
    SameTurnsSameTimeline(w.t.session, w.t.session);
    DurationKeepsTimeline(w.t.session, a.actualMs);
  }

  lemma LinkedSweep(w: World)
    ensures SameTimeline(w.t.session, ClientStep(w, Sweep).t.session)
  {
    SweepStep(w);
    SameTurnsSameTimeline(w.t.session, Swept(w.t.session, w.now));
  }

  /** Saving the answers of an earlier composition only collapses what is there. */
  lemma LinkedAnswers(s: Session, recording: Id, composed: Composed)
    requires LinkedSession(s) && Composition(LoadedTimeline(s)) == Ok(composed)
    ensures SameTimeline(s, SavedAnswers(s, recording, composed.answers).0)
  {
    SavedAnswersCases(s, recording, composed.answers);
    SameTurnsSameTimeline(s, s);
    ComposedAnswersAre(s, composed);
    AnswersSameTimeline(s, composed.answers);
  }

  lemma SavedAnswersCases(s: Session, recording: Id, answers: map<nat, string>)
    ensures SavedAnswers(s, recording, answers).0 == s || SavedAnswers(s, recording, answers).0 == WithAnswers(s, answers)
  {
  }

  lemma AnswersSameTimeline(s: Session, answers: map<nat, string>)
    requires LinkedSession(s)
    requires forall n :: n in answers && n in s.turns ==> answers[n] == Answer(TimelineRow(n, s.turns[n]))
    ensures SameTimeline(s, WithAnswers(s, answers))
  {
    forall n | n in s.turns ensures SameAnswer(TimelineRow(n, s.turns[n]), TimelineRow(n, WithAnswers(s, answers).turns[n])) {
      SavedAnswerSame(s, n, answers);
    }
  }

  lemma ComposedHasAnswers(rows: seq<InterviewTurn>, composed: Composed)
    requires Composition(rows) == Ok(composed) && forall i :: 0 <= i < |rows| ==> rows[i].sequence == i + 1
    ensures HasAnswers(rows, composed.answers)
  {
    AnswerMapIs(rows);
  }

  lemma RowsHaveAnswers(s: Session, rows: seq<InterviewTurn>, answers: map<nat, string>)
    requires HasAnswers(rows, answers)
    requires forall i :: 0 <= i < |rows| ==> i + 1 in s.turns && rows[i] == TimelineRow(i + 1, s.turns[i + 1])
    ensures forall n :: n in answers && n in s.turns ==> answers[n] == Answer(TimelineRow(n, s.turns[n]))
  {
    forall n | n in answers && n in s.turns ensures answers[n] == Answer(TimelineRow(n, s.turns[n])) {
      assert rows[n - 1] == TimelineRow(n - 1 + 1, s.turns[n - 1 + 1]);
    }
  }

  lemma ComposedAnswersAre(s: Session, composed: Composed)
    requires Contiguous(s.turns) && Composition(LoadedTimeline(s)) == Ok(composed)
    ensures forall n :: n in composed.answers && n in s.turns ==> composed.answers[n] == Answer(TimelineRow(n, s.turns[n]))
  {
    RowsAre(s.turns, LastSeq(s));
    ComposedHasAnswers(LoadedTimeline(s), composed);
    RowsHaveAnswers(s, LoadedTimeline(s), composed.answers);
  }

  lemma SavedAnswerSame(s: Session, n: nat, answers: map<nat, string>)
    requires LinkedSession(s) && n in s.turns
    requires n in answers ==> answers[n] == Answer(TimelineRow(n, s.turns[n]))
    ensures SameAnswer(TimelineRow(n, s.turns[n]), TimelineRow(n, WithAnswers(s, answers).turns[n]))
  {
    LinkedStatus(s);
    assert TurnOk(s.turns[n]);
    if n in answers && !s.turns[n].skipped { CollapseIdempotent(s.turns[n].finalText.value); }
  }

  ghost predicate ComposersOk(w: World) {
    forall r :: r in w.composers ==>
      w.t.session.recording.Some? && Composition(LoadedTimeline(w.t.session)) == Ok(w.composers[r])
  }

  ghost predicate Inv(w: World) { FenceInv(w) && ComposersOk(w) }

  lemma LinkedSaveAnswers(w: World, a: Action)
    requires LinkedSession(w.t.session) && ComposersOk(w) && a.SaveAnswers?
    ensures SameTimeline(w.t.session, ClientStep(w, a).t.session)
  {
    AnswersStep(w, a);
    SameTurnsSameTimeline(w.t.session, w.t.session);
    if a.reader in w.composers { LinkedAnswers(w.t.session, w.t.session.recording.value, w.composers[a.reader]); }
  }

  lemma LinkedQuestions(w: World, i: nat, a: Action)
    requires LinkedSession(w.t.session) && i in w.workers && (a.Prepare? || a.Refill? || a.FollowUp?)
    ensures WorkerStep(w, i, a).t.session == w.t.session
  {
    LinkedStatus(w.t.session);
    if a.Prepare? {
      PrepareCases(w, i, a);
    } else if a.Refill? {
      RefillCases(w, i, a);
    } else {
      FollowUpStep(w, i, a);
    }
  }

  /** The late fallback job: every answered turn is ready already, so the transcript this
      worker could still save is a realtime one, which it must leave alone. */
  lemma LateFallbackChangesNothing(t: Tables, held: Claimed, text: string, now: int)
    requires LinkedSession(t.session)
    requires Holds(t.jobs, held) ==> NotBatched(t.session, held.resource)
    ensures SavedBatch(t, held, held.resource, text, now).0 == t.session
  {
    var s := t.session;
    var n := TurnOf(s, held.resource);
    LinkedStatus(s);
    if n in s.turns {
      TurnOfIs(s, held.resource);
      assert TurnOk(s.turns[n]);
      assert !s.turns[n].skipped ==> s.turns[n].status == TurnReady && s.turns[n].origin.Some?;
      assert Holds(t.jobs, held) ==> s.turns[n].origin != Some(TurnBatch);
      assert Holds(t.jobs, held) && !s.turns[n].skipped ==> s.turns[n].origin == Some(TurnRealtime) by {
        if s.turns[n].origin.Some? { assert s.turns[n].origin.value == TurnRealtime || s.turns[n].origin.value == TurnBatch; }
      }
    }
  }

  lemma LinkedBatch(w: World, i: nat, a: Action)
    requires FenceInv(w) && w.t.session.recording.Some? && i in w.workers && a.SaveTranscript?
    ensures WorkerStep(w, i, a).t.session == w.t.session
  {
    assert WorkerOk(w.t, w.next, w.workers[i]);
    if w.workers[i].phase.Transcribing? { LateFallbackChangesNothing(w.t, w.workers[i].held, a.text, w.now); }
  }

  lemma LinkedFinish(w: World, i: nat, a: Action)
    requires LinkedSession(w.t.session) && i in w.workers && a.Finish?
    ensures WorkerStep(w, i, a).t.session == w.t.session
  {
    LinkedStatus(w.t.session);
  }

  lemma LinkedHandler(w: World, i: nat, a: Action)
    requires Inv(w) && w.t.session.recording.Some? && IsWorkerStep(a) && i in w.workers
    ensures WorkerStep(w, i, a).t.session == w.t.session
  {
    assert LinkedSession(w.t.session) && FenceInv(w);
    if a.SaveTranscript? {
      LinkedBatch(w, i, a);
    } else if a.Finish? {
      LinkedFinish(w, i, a);
    } else if a.Prepare? || a.Refill? || a.FollowUp? {
      LinkedQuestions(w, i, a);
    } else {
      HandlerBookkeepingKeeps(w, i, a);
    }
  }

  lemma ClosingKeepsTimeline(w: World, a: Action)
    requires a.Finalize? || a.VerifyDuration? || a.Sweep?
    ensures SameTimeline(w.t.session, ClientStep(w, a).t.session)
  {
    if a.Finalize? {
      LinkedFinalize(w, a);
    } else if a.VerifyDuration? {
      LinkedDuration(w, a);
    } else {
      LinkedSweep(w);
    }
  }

  lemma ClientKeepsTimeline(w: World, a: Action)
    requires Inv(w) && w.t.session.recording.Some? && !IsWorkerStep(a)
    ensures SameTimeline(w.t.session, ClientStep(w, a).t.session)
  {
    SameTurnsSameTimeline(w.t.session, w.t.session);
    if IsBookkeeping(a) {
      ClientBookkeepingKeeps(w, a);
    } else if a.Advance? {
      LinkedFreezesAdvance(w, a);
    } else if a.SaveRealtime? {
      LinkedFreezesRealtime(w, a);
    } else if a.Attach? {
      LinkedAttach(w, a);
    } else if a.SaveAnswers? {
      LinkedSaveAnswers(w, a);
    } else if a.Finalize? || a.VerifyDuration? || a.Sweep? {
      ClosingKeepsTimeline(w, a);
    } else {
      LinkedFreezesSession(w, a);
    }
  }

  lemma ActorStep(w: World, a: Action)
    requires IsWorkerStep(a)
    ensures Step(w, a) == if a.worker in w.workers then WorkerStep(w, a.worker, a) else w
  {
  }

  lemma LinkedActor(w: World, a: Action)
    requires Inv(w) && w.t.session.recording.Some? && IsWorkerStep(a)
    ensures Step(w, a).t.session == w.t.session
  {
    ActorStep(w, a);
    if a.worker in w.workers { LinkedHandler(w, a.worker, a); }
  }

  lemma StepKeepsTimeline(w: World, a: Action)
    requires Inv(w) && w.t.session.recording.Some?
    ensures SameTimeline(w.t.session, Step(w, a).t.session)
  {
    SameTurnsSameTimeline(w.t.session, w.t.session);
    if IsWorkerStep(a) { LinkedActor(w, a); } else { ClientKeepsTimeline(w, a); }
  }

  lemma ComposeStep(w: World, a: Action)
    requires a.Compose?
    ensures
      var s := w.t.session;
      ClientStep(w, a)
      == if s.recording.Some? && Composition(LoadedTimeline(s)).Ok?
         then w.(composers := w.composers[a.reader := Composition(LoadedTimeline(s)).value]) else w
  {
  }

  lemma OtherComposers(w: World, a: Action)
    requires !a.Compose?
    ensures Step(w, a).composers == w.composers
  {
    if !IsWorkerStep(a) {
      ClientComposers(w, a);
    } else if a.worker in w.workers {
      HandlerComposers(w, a.worker, a);
    }
  }

  lemma ClientComposers(w: World, a: Action)
    requires !IsWorkerStep(a) && !a.Compose?
    ensures ClientStep(w, a).composers == w.composers
  {
  }

  lemma HandlerComposers(w: World, i: nat, a: Action)
    requires IsWorkerStep(a) && i in w.workers
    ensures WorkerStep(w, i, a).composers == w.composers
  {
  }

  lemma StepComposers(w: World, a: Action)
    ensures
      var w' := Step(w, a);
      forall r :: r in w'.composers ==>
        || (r in w.composers && w'.composers[r] == w.composers[r])
        || (w.t.session.recording.Some? && w'.t.session == w.t.session && Composition(LoadedTimeline(w.t.session)) == Ok(w'.composers[r]))
  {
    if a.Compose? { ComposeStep(w, a); } else { OtherComposers(w, a); }
  }

  lemma StepKeepsInv(w: World, a: Action)
    requires Inv(w)
    ensures Inv(Step(w, a))
  {
    StepKeepsFence(w, a);
    StepComposers(w, a);
    if w.t.session.recording.Some? {
      StepKeepsTimeline(w, a);
      SameTimelineComposes(w.t.session, Step(w, a).t.session);
    }
  }

  lemma {:induction false} RunKeepsInv(w: World, actions: seq<Action>)
    requires Inv(w)
    ensures Inv(Run(w, actions))
    decreases |actions|
  {
    if actions != [] {
      StepKeepsInv(w, actions[0]);
      RunKeepsInv(Step(w, actions[0]), actions[1..]);
    }
  }

  /** Once a recording is linked to the interview, composing the stored timeline gives the same
      outcome in every later state: whatever audio arrives, whichever fallback jobs finish or
      fail, and however often the composed answers are written back. */
  lemma {:induction false} LinkedComposesForever(w: World, actions: seq<Action>)
    requires Inv(w) && w.t.session.recording.Some?
    ensures Composition(LoadedTimeline(Run(w, actions).t.session)) == Composition(LoadedTimeline(w.t.session))
    ensures Run(w, actions).t.session.recording == w.t.session.recording
    decreases |actions|
  {
    if actions != [] {
      StepKeepsInv(w, actions[0]);
      StepKeepsTimeline(w, actions[0]);
      SameTimelineComposes(w.t.session, Step(w, actions[0]).t.session);
      LinkedComposesForever(Step(w, actions[0]), actions[1..]);
    }
  }

  predicate AboutText(e: ComposeError) { e.EmptyAnswer? || e.AnswerTooLong? || e.NoQuestion? || e == TranscriptTooLong }

  lemma ObjectionsOf(rows: seq<InterviewTurn>)
    requires rows != [] && Dialogue(rows) != [] && Composition(rows).Err?
    ensures FirstObjection(rows, 0) == Some(Composition(rows).error) || Composition(rows).error == TranscriptTooLong
  {
  }

  lemma ReadyRowsCompose(rows: seq<InterviewTurn>)
    requires forall i :: 0 <= i < |rows| ==> ReadyRow(rows[i], i + 1)
    requires exists i :: 0 <= i < |rows| && !rows[i].skipped
    ensures Composition(rows).Err? ==> AboutText(Composition(rows).error)
  {
    DialogueOfAnswered(rows);
    if Composition(rows).Err? {
      ObjectionsOf(rows);
      ObjectionsAreAboutText(rows, 0);
    }
  }

  lemma LinkedRowsReady(s: Session)
    requires LinkedSession(s)
    ensures forall i :: 0 <= i < |LoadedTimeline(s)| ==> ReadyRow(LoadedTimeline(s)[i], i + 1)
    ensures exists i :: 0 <= i < |LoadedTimeline(s)| && !LoadedTimeline(s)[i].skipped
  {
    var rows := LoadedTimeline(s);
    LinkedStatus(s);
    RowsAre(s.turns, LastSeq(s));
    forall i | 0 <= i < |rows| ensures ReadyRow(rows[i], i + 1) { assert TurnOk(s.turns[i + 1]); }
    var n :| n in s.turns && !s.turns[n].skipped;
    assert !rows[n - 1].skipped;
  }

  /** In a linked state the composer never objects to the numbering or to the status of a turn;
      the only objections left are blank or oversized texts. */
  lemma LinkedNeverUnready(w: World)
    requires Inv(w) && w.t.session.recording.Some?
    ensures
      var composition := Composition(LoadedTimeline(w.t.session));
      composition.Err? ==> AboutText(composition.error)
  {
    LinkedRowsReady(w.t.session);
    ReadyRowsCompose(LoadedTimeline(w.t.session));
  }

  predicate ReadyRow(row: InterviewTurn, position: nat) {
    row.sequence == position && (row.skipped || (row.status == TurnReady && row.finalText.Some?))
  }

  lemma {:induction false} ObjectionsAreAboutText(rows: seq<InterviewTurn>, from: nat)
    requires from <= |rows| && forall i :: 0 <= i < |rows| ==> ReadyRow(rows[i], i + 1)
    ensures
      var objection := FirstObjection(rows, from);
      objection.Some? ==> objection.value.EmptyAnswer? || objection.value.AnswerTooLong? || objection.value.NoQuestion?
    decreases |rows| - from
  {
    if from < |rows| {
      assert ReadyRow(rows[from], from + 1);
      ObjectionsAreAboutText(rows, from + 1);
    }
  }

  lemma {:induction false} DialogueOfAnswered(rows: seq<InterviewTurn>)
    requires exists i :: 0 <= i < |rows| && !rows[i].skipped
    ensures Dialogue(rows) != []
  {
    var i :| 0 <= i < |rows| && !rows[i].skipped;
    if rows[|rows| - 1].skipped {
      assert rows[..|rows| - 1][i] == rows[i];
      DialogueOfAnswered(rows[..|rows| - 1]);
    }
  }

  /** A recording worker that composed and saved the answers, and any worker that resumes from
      the saved transcript later, see the same text: the comparison that guards the analysis
      and the rewrite never fails. */
  lemma ResumeNeverMismatches(w: World, reader: nat, actions: seq<Action>)
    requires Inv(w) && reader in w.composers
    ensures
      var saved := NormalizeTranscript(w.composers[reader].text);
      var later := Composition(LoadedTimeline(Run(w, actions).t.session));
      later == Ok(w.composers[reader]) && later.value.text == NormalizeTranscript(saved)
  {
    LinkedComposesForever(w, actions);
    ComposeSucceedsIff(LoadedTimeline(w.t.session));
  }

  // ---- From the creation on -----------------------------------------------------------

  /** A state that a session reaches after it was created. */
  function Reached(openingQuestion: string, maxSeconds: int, expiresAt: int, actions: seq<Action>): World {
    Run(Created(openingQuestion, maxSeconds, expiresAt), actions)
  }

  lemma ReachedKeepsInv(openingQuestion: string, maxSeconds: int, expiresAt: int, actions: seq<Action>)
    requires 1 <= maxSeconds <= 600
    ensures Inv(Reached(openingQuestion, maxSeconds, expiresAt, actions))
  {
    CreatedIsFenced(openingQuestion, maxSeconds, expiresAt);
    RunKeepsInv(Created(openingQuestion, maxSeconds, expiresAt), actions);
  }

  /** Whatever led to a linked session and whatever happens to it afterwards: its timeline
      composes to the same outcome. */
  lemma ReachedLinkComposesForever(openingQuestion: string, maxSeconds: int, expiresAt: int, before: seq<Action>, after: seq<Action>)
    requires 1 <= maxSeconds <= 600
    requires Reached(openingQuestion, maxSeconds, expiresAt, before).t.session.recording.Some?
    ensures
      var w := Reached(openingQuestion, maxSeconds, expiresAt, before);
      && Composition(LoadedTimeline(Run(w, after).t.session)) == Composition(LoadedTimeline(w.t.session))
      && Run(w, after).t.session.recording == w.t.session.recording
  {
    ReachedKeepsInv(openingQuestion, maxSeconds, expiresAt, before);
    LinkedComposesForever(Reached(openingQuestion, maxSeconds, expiresAt, before), after);
  }

  /** In every reachable linked state, the only objections left are about texts. */
  lemma ReachedLinkNeverUnready(openingQuestion: string, maxSeconds: int, expiresAt: int, actions: seq<Action>)
    requires 1 <= maxSeconds <= 600
    requires Reached(openingQuestion, maxSeconds, expiresAt, actions).t.session.recording.Some?
    ensures
      var composition := Composition(LoadedTimeline(Reached(openingQuestion, maxSeconds, expiresAt, actions).t.session));
      composition.Err? ==> AboutText(composition.error)
  {
    ReachedKeepsInv(openingQuestion, maxSeconds, expiresAt, actions);
    LinkedNeverUnready(Reached(openingQuestion, maxSeconds, expiresAt, actions));
  }

  /** Whatever a recording worker composed in any reachable state is what every later composition
      gives, and it equals the text that was saved. */
  lemma ReachedResumeNeverMismatches(openingQuestion: string, maxSeconds: int, expiresAt: int, before: seq<Action>, reader: nat, after: seq<Action>)
    requires 1 <= maxSeconds <= 600
    requires reader in Reached(openingQuestion, maxSeconds, expiresAt, before).composers
    ensures
      var w := Reached(openingQuestion, maxSeconds, expiresAt, before);
      var later := Composition(LoadedTimeline(Run(w, after).t.session));
      && later == Ok(w.composers[reader])
      && later.value.text == NormalizeTranscript(NormalizeTranscript(w.composers[reader].text))
  {
    ReachedKeepsInv(openingQuestion, maxSeconds, expiresAt, before);
    ResumeNeverMismatches(Reached(openingQuestion, maxSeconds, expiresAt, before), reader, after);
  }

  // ---- Which questions are asked ------------------------------------------------------

  /** Turn 1 asks the opening question and every later turn that of the candidate it consumed. */
  predicate Asks(s: Session, openingQuestion: string, n: nat) {
    && n in s.turns
    && if n == 1 then s.turns[n].question == openingQuestion
       else n >= 2 && s.turns[n].candidate.Some? && s.turns[n].candidate.value in s.candidates
            && s.candidates[s.turns[n].candidate.value] == Candidate(s.turns[n].question, Some(n))
  }

  predicate OpeningAsked(s: Session, openingQuestion: string) {
    s.openingQuestion == openingQuestion && (1 in s.turns ==> s.turns[1].question == openingQuestion)
  }

  lemma MovesKeepOpening(s: Session, s': Session, next: nat, batch: Option<Id>, openingQuestion: string)
    requires SessionMoves(s, s', next, batch) && OpeningAsked(s, openingQuestion)
    ensures OpeningAsked(s', openingQuestion)
  {
    assert 1 in s.turns ==> SameIdentity(s.turns[1], s'.turns[1]);
  }

  lemma {:induction false} RunKeepsOpening(w: World, actions: seq<Action>, openingQuestion: string)
    requires SessionInv(w) && OpeningAsked(w.t.session, openingQuestion)
    ensures OpeningAsked(Run(w, actions).t.session, openingQuestion)
    decreases |actions|
  {
    if actions != [] {
      StepKeepsSession(w, actions[0]);
      StepMovesSession(w, actions[0]);
      MovesKeepOpening(w.t.session, Step(w, actions[0]).t.session, w.next, BatchTurn(w, actions[0]), openingQuestion);
      RunKeepsOpening(Step(w, actions[0]), actions[1..], openingQuestion);
    }
  }

  lemma AsksIts(s: Session, openingQuestion: string, n: nat)
    requires SessionOk(s) && OpeningAsked(s, openingQuestion) && n in s.turns
    ensures Asks(s, openingQuestion, n)
  {
    assert n != 0;
  }

  /** In every reachable state, whatever its status, each turn asks its question. */
  lemma QuestionsAreAsked(openingQuestion: string, maxSeconds: int, expiresAt: int, actions: seq<Action>)
    requires 1 <= maxSeconds <= 600
    ensures
      var s := Reached(openingQuestion, maxSeconds, expiresAt, actions).t.session;
      forall n :: n in s.turns ==> Asks(s, openingQuestion, n)
  {
    var s := Reached(openingQuestion, maxSeconds, expiresAt, actions).t.session;
    CreatedIsFenced(openingQuestion, maxSeconds, expiresAt);
    ReachedKeepsInv(openingQuestion, maxSeconds, expiresAt, actions);
    RunKeepsOpening(Created(openingQuestion, maxSeconds, expiresAt), actions, openingQuestion);
    forall n | n in s.turns ensures Asks(s, openingQuestion, n) { AsksIts(s, openingQuestion, n); }
  }

  /** The entry has the question and the text of the stored turn. */
  predicate ShowsTurn(turn: Turn, entry: DialogueTurn) {
    && !turn.skipped && turn.status == TurnReady && entry.question == TrimSpace(turn.question)
    && turn.finalText.Some? && entry.answer == Join(Fields(turn.finalText.value))
  }

  /** Every entry of a composed dialogue is an answered turn with the question it asked, trimmed:
      the opening question, or that of the candidate the turn consumed. */
  lemma DialogueShowsQuestions(openingQuestion: string, maxSeconds: int, expiresAt: int, actions: seq<Action>, k: nat)
    requires 1 <= maxSeconds <= 600
    requires
      var composition := Composition(LoadedTimeline(Reached(openingQuestion, maxSeconds, expiresAt, actions).t.session));
      composition.Ok? && k < |composition.value.dialogue|
    ensures
      var s := Reached(openingQuestion, maxSeconds, expiresAt, actions).t.session;
      var entry := Composition(LoadedTimeline(s)).value.dialogue[k];
      && Asks(s, openingQuestion, entry.sequence) && ShowsTurn(s.turns[entry.sequence], entry)
  {
    var s := Reached(openingQuestion, maxSeconds, expiresAt, actions).t.session;
    QuestionsAreAsked(openingQuestion, maxSeconds, expiresAt, actions);
    ReachedKeepsInv(openingQuestion, maxSeconds, expiresAt, actions);
    EntryIsTurn(s, k);
  }

  lemma EntryIsTurn(s: Session, k: nat)
    requires SessionOk(s) && Composition(LoadedTimeline(s)).Ok? && k < |Composition(LoadedTimeline(s)).value.dialogue|
    ensures
      var entry := Composition(LoadedTimeline(s)).value.dialogue[k];
      entry.sequence in s.turns && ShowsTurn(s.turns[entry.sequence], entry)
  {
    var rows := LoadedTimeline(s);
    RowsAre(s.turns, LastSeq(s));
    ComposedTells(rows);
    ComposeSucceedsIff(rows);
    var entry := Composition(rows).value.dialogue[k];
    var row := rows[entry.sequence - 1];
    assert row == TimelineRow(entry.sequence, s.turns[entry.sequence]);
    assert Timeline.Shows(row, entry) && UsableTurn(row, entry.sequence);
    assert TurnOk(s.turns[entry.sequence]);
  }
}
