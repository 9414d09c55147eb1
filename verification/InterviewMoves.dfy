/** What every transaction leaves of the rows it found: turns are only appended, and the
    columns a replay compares are frozen. */
module InterviewMoves {
  import opened Prelude
  import opened Timeline
  import opened WorkQueue
  import opened Interview
  import opened InterviewShape

  /** What any step leaves of a turn that it found: its identity always, and whether it was
      skipped once it has a successor.  A new first turn asks the opening question.  Only a batch save of turn `batch` gives a turn a batch
      transcript. */
  ghost predicate SessionMoves(s: Session, s': Session, next: nat, batch: Option<Id>) {
    && s'.openingQuestion == s.openingQuestion && s.turns.Keys <= s'.turns.Keys && LastSeq(s) <= LastSeq(s')
    && (1 in s'.turns && 1 !in s.turns ==> s'.turns[1].question == s.openingQuestion)
    && (forall n :: n in s.turns ==> SameIdentity(s.turns[n], s'.turns[n]))
    && (forall n :: n in s.turns && n < LastSeq(s) ==> s'.turns[n].skipped == s.turns[n].skipped)
    && (forall n :: n in s'.turns && n !in s.turns ==> s'.turns[n].id == Uuid(next))
    && (forall c :: c in s'.candidates && c !in s.candidates ==> c == Uuid(next))
    && (forall c :: c in s.candidates ==> c in s'.candidates && s'.candidates[c].question == s.candidates[c].question)
    && (forall n :: n in s'.turns && s'.turns[n].origin == Some(TurnBatch) ==>
          Some(s'.turns[n].id) == batch || (n in s.turns && s.turns[n].origin == Some(TurnBatch)))
  }

  predicate RowsKept(s: Session, s': Session) {
    s'.turns.Keys == s.turns.Keys && s'.candidates.Keys == s.candidates.Keys
  }

  ghost predicate Settles(s: Session, s': Session, next: nat, batch: Option<Id>) { SessionMoves(s, s', next, batch) && RowsKept(s, s') }

  lemma SameRowsSettle(s: Session, s': Session, next: nat)
    requires s'.turns == s.turns && s'.candidates == s.candidates && s'.openingQuestion == s.openingQuestion
    ensures Settles(s, s', next, None)
  {
  }

  lemma WithTurnMoves(s: Session, n: nat, turn: Turn, next: nat)
    requires n in s.turns && SameIdentity(s.turns[n], turn) && (n < LastSeq(s) ==> turn.skipped == s.turns[n].skipped)
    ensures Settles(s, WithTurn(s, n, turn), next, if turn.origin == s.turns[n].origin || turn.origin == Some(TurnRealtime) then None else Some(turn.id))
  {
    UpdateKeepsKeys(s.turns, n, turn);
  }

  lemma StartMoves(s: Session, turn: nat, now: int)
    requires SessionOk(s)
    ensures SessionMoves(s, Started(s, Uuid(turn), now).0, turn, None)
  {
    var s' := Started(s, Uuid(turn), now).0;
    if s' != s { assert s'.turns.Keys == {1} && LastSeq(s') == 1; }
  }

  lemma AdvancedSessionMoves(s: Session, input: AdvanceInput, turn: nat)
    requires Contiguous(s.turns) && Advanceable(s, input)
    ensures SessionMoves(s, AdvancedSession(s, input, Uuid(turn)), turn, None)
  {
    var s', n := AdvancedSession(s, input, Uuid(turn)), LastSeq(s);
    assert s'.turns == Appended(s.turns, n, s'.turns[n], s'.turns[n + 1]);
    AppendGrows(s.turns, n, s'.turns[n], s'.turns[n + 1]);
  }

  lemma AdvanceCases(t: Tables, input: AdvanceInput, turn: Id, job: Id, now: int)
    ensures
      var s' := Advanced(t, input, turn, job, now).0.session;
      s' == t.session || (Advanceable(t.session, input) && s' == AdvancedSession(t.session, input, turn))
  {
    if AdvanceRefusal(t.session, input, now).None? { NoRefusal(t.session, input, now); }
  }

  lemma AdvanceMoves(t: Tables, input: AdvanceInput, turn: nat, job: Id, now: int)
    requires SessionOk(t.session)
    ensures SessionMoves(t.session, Advanced(t, input, Uuid(turn), job, now).0.session, turn, None)
  {
    AdvanceCases(t, input, Uuid(turn), job, now);
    SameRowsSettle(t.session, t.session, turn);
    if Advanceable(t.session, input) { AdvancedSessionMoves(t.session, input, turn); }
  }

  lemma SkipMoves(s: Session, key: nat, n: nat, atMs: int, now: int, next: nat)
    ensures Settles(s, Skipped(s, key, n, atMs, now).0, next, None)
  {
    var s' := Skipped(s, key, n, atMs, now).0;
    if s' != s { WithTurnMoves(s, n, s'.turns[n], next); }
  }

  lemma AttachMoves(t: Tables, key: nat, n: nat, asset: Id, usable: bool, job: Id, now: int, next: nat)
    ensures Settles(t.session, Attached(t, key, n, asset, usable, job, now).0.session, next, None)
  {
    var s' := Attached(t, key, n, asset, usable, job, now).0.session;
    if s' != t.session { WithTurnMoves(t.session, n, s'.turns[n], next); }
  }

  lemma RealtimeMoves(t: Tables, key: nat, n: nat, text: string, job: Id, now: int, next: nat)
    ensures Settles(t.session, SavedRealtime(t, key, n, text, job, now).0.session, next, None)
  {
    var s' := SavedRealtime(t, key, n, text, job, now).0.session;
    if s' != t.session { WithTurnMoves(t.session, n, s'.turns[n], next); }
  }

  lemma FinalizeCases(s: Session, key: nat, endedMs: int, recording: Id)
    ensures
      var s', n := FinalizedSession(s, key, endedMs, recording).0, LastAnswered(s);
      && s'.recording == s.recording && s'.candidates == s.candidates && s'.openingQuestion == s.openingQuestion
      && (s'.turns == s.turns || (n in s.turns && s'.turns == WithTurn(s, n, s.turns[n].(ended := Some(endedMs))).turns))
  {
  }

  lemma FinalizeMoves(s: Session, key: nat, endedMs: int, recording: Id, next: nat)
    ensures Settles(s, FinalizedSession(s, key, endedMs, recording).0, next, None)
  {
    var s', n := FinalizedSession(s, key, endedMs, recording).0, LastAnswered(s);
    FinalizeCases(s, key, endedMs, recording);
    if s'.turns == s.turns {
      SameRowsSettle(s, s', next);
    } else {
      WithTurnMoves(s, n, s.turns[n].(ended := Some(endedMs)), next);
    }
  }

  lemma DurationMoves(s: Session, actualMs: int, next: nat)
    ensures Settles(s, DurationVerified(s, actualMs), next, None)
  {
    var n := LastAnswered(s);
    if n in s.turns { WithTurnMoves(s, n, DurationVerified(s, actualMs).turns[n], next); }
  }

  lemma WithAnswersMoves(s: Session, answers: map<nat, string>, next: nat)
    ensures Settles(s, WithAnswers(s, answers), next, None)
  {
    assert WithAnswers(s, answers).turns.Keys == s.turns.Keys;
  }

  lemma AnswersMove(s: Session, recording: Id, answers: map<nat, string>, next: nat)
    ensures Settles(s, SavedAnswers(s, recording, answers).0, next, None)
  {
    SameRowsSettle(s, s, next);
    WithAnswersMoves(s, answers, next);
  }

  lemma TurnOfIs(s: Session, id: Id)
    requires 0 !in s.turns && TurnOf(s, id) in s.turns
    ensures s.turns[TurnOf(s, id)].id == id
  {
    var ids := set n | n in s.turns && s.turns[n].id == id;
    assert TurnOf(s, id) == Highest(ids);
  }

  lemma BatchMoves(t: Tables, held: Claimed, id: Id, text: string, now: int, next: nat)
    requires 0 !in t.session.turns
    ensures Settles(t.session, SavedBatch(t, held, id, text, now).0, next, Some(id))
  {
    var s' := SavedBatch(t, held, id, text, now).0;
    var n := TurnOf(t.session, id);
    if s' != t.session {
      WithTurnMoves(t.session, n, s'.turns[n], next);
      TurnOfIs(t.session, id);
    }
  }

  lemma StepFailedMoves(s: Session, kind: Kind, resource: Id, next: nat)
    ensures Settles(s, StepFailed(s, kind, resource), next, None)
  {
    var n := TurnOf(s, resource);
    if kind == InterviewProcess(TurnStep) && n in s.turns { WithTurnMoves(s, n, s.turns[n].(status := TurnFailed), next); }
  }

  lemma CandidateMoves(s: Session, s': Session, next: nat)
    requires s'.turns == s.turns && s'.candidates.Keys <= s.candidates.Keys + {Uuid(next)} && s'.openingQuestion == s.openingQuestion
    requires forall c :: c in s.candidates ==> c in s'.candidates && s'.candidates[c] == s.candidates[c]
    ensures SessionMoves(s, s', next, None)
  {
  }
}
