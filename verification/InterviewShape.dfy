/** The shape that every transaction leaves an interview session in. */
module InterviewShape {
  import opened Prelude
  import opened Timeline
  import opened WorkQueue
  import opened Interview

  type Turns = map<nat, Turn>

  type Candidates = map<Id, Candidate>

  /** Turns are numbered 1, 2, ... without gaps. */
  ghost predicate Contiguous(turns: Turns) {
    0 !in turns && forall k :: 1 <= k <= Highest(turns.Keys) ==> k in turns
  }

  predicate TurnOk(turn: Turn) {
    && (turn.skipped ==> turn.status == Pending)
    && (turn.status == Pending ==> turn.audio.None? && turn.provisional.None? && turn.finalText.None?)
    && (turn.status == TurnReady <==> turn.origin.Some?)
    && (turn.origin.Some? ==> turn.finalText.Some?)
  }

  ghost predicate TurnsOk(turns: Turns) {
    && (forall n :: n in turns ==> TurnOk(turns[n]))
    && (forall n :: n in turns ==> (turns[n].advanceKey.Some? <==> n >= 2) && (turns[n].candidate.Some? <==> n >= 2))
  }

  ghost predicate IdsDistinct(turns: Turns) {
    forall m, n :: m in turns && n in turns && turns[m].id == turns[n].id ==> m == n
  }

  ghost predicate KeysDistinct(turns: Turns) {
    forall m, n :: m in turns && n in turns && turns[m].advanceKey.Some? && turns[m].advanceKey == turns[n].advanceKey ==> m == n
  }

  /** Consumed candidates and the turns from the second on are in bijection, each naming the other,
      and such a turn asks the question of its candidate. */
  ghost predicate Bijection(turns: Turns, candidates: Candidates) {
    && (forall n :: n in turns && n >= 2 ==>
          turns[n].candidate.Some? && turns[n].candidate.value in candidates
          && candidates[turns[n].candidate.value] == Candidate(turns[n].question, Some(n)))
    && (forall c :: c in candidates && candidates[c].consumedBy.Some? ==>
          var n := candidates[c].consumedBy.value;
          n in turns && n >= 2 && turns[n].candidate == Some(c))
  }

  ghost predicate AtMostOneUnused(candidates: Candidates) {
    forall c, d :: c in candidates && d in candidates && candidates[c].consumedBy.None? && candidates[d].consumedBy.None? ==> c == d
  }

  ghost predicate Structure(turns: Turns, candidates: Candidates) {
    Contiguous(turns) && TurnsOk(turns) && IdsDistinct(turns) && KeysDistinct(turns)
    && Bijection(turns, candidates) && AtMostOneUnused(candidates)
  }

  /** A turn with a successor ends exactly when the successor is asked, at least 300 ms after it was asked itself. */
  predicate Follows(turn: Turn, next: Turn) { turn.ended == Some(next.asked) && next.asked - turn.asked >= MIN_TURN_MS }

  /** The last turn is open, or it was skipped within the time limit. */
  predicate LastTurnOk(s: Session, turn: Turn) {
    && turn.asked < s.maxSeconds * 1000
    && (turn.ended.Some? ==> turn.skipped && turn.asked < turn.ended.value <= s.maxSeconds * 1000)
    && (turn.skipped ==> turn.ended.Some?)
  }

  /** The turns tile the time from 0 up to the last question. */
  ghost predicate Tiled(s: Session) {
    && 1 in s.turns && s.turns[1].asked == 0
    && (forall k :: k in s.turns && k + 1 in s.turns ==> Follows(s.turns[k], s.turns[k + 1]))
    && LastTurnOk(s, s.turns[LastSeq(s)])
  }

  ghost predicate StatusOk(s: Session) {
    && (s.status == Preparing ==> s.turns == map[] && s.candidates == map[])
    && (s.status == Ready ==> s.turns == map[])
    && (s.status == Active ==> Tiled(s))
    && (s.recording.Some? <==> s.status in {Finalizing, Finalized})
    && (s.recording.Some? ==> AllAnswersReady(s))
  }

  ghost predicate IdsKnown(s: Session, next: nat) {
    && (forall n :: n in s.turns ==> Known(s.turns[n].id, next))
    && (forall c :: c in s.candidates ==> Known(c, next))
  }

  ghost predicate SessionOk(s: Session) { 1 <= s.maxSeconds && Structure(s.turns, s.candidates) && StatusOk(s) }

  // ---- Changing one turn's columns ----------------------------------------------------

  /** The columns that are written once, when the turn is inserted. */
  predicate SameIdentity(a: Turn, b: Turn) {
    a.id == b.id && a.question == b.question && a.asked == b.asked && a.advanceKey == b.advanceKey && a.candidate == b.candidate
  }

  lemma UpdateKeepsKeys(turns: Turns, n: nat, turn: Turn)
    requires n in turns
    ensures turns[n := turn].Keys == turns.Keys
  {
  }

  ghost predicate SameIdentities(turns: Turns, turns': Turns) {
    turns'.Keys == turns.Keys && forall n :: n in turns ==> SameIdentity(turns[n], turns'[n])
  }

  lemma IdentityKeepsBijection(turns: Turns, turns': Turns, candidates: Candidates)
    requires Bijection(turns, candidates) && SameIdentities(turns, turns')
    ensures Bijection(turns', candidates)
  {
    forall n | n in turns' && n >= 2
      ensures turns'[n].candidate.Some? && turns'[n].candidate.value in candidates
        && candidates[turns'[n].candidate.value] == Candidate(turns'[n].question, Some(n))
    {
      assert SameIdentity(turns[n], turns'[n]);
    }
    forall c | c in candidates && candidates[c].consumedBy.Some?
      ensures var n := candidates[c].consumedBy.value; n in turns' && n >= 2 && turns'[n].candidate == Some(c)
    {
      assert SameIdentity(turns[candidates[c].consumedBy.value], turns'[candidates[c].consumedBy.value]);
    }
  }

  lemma IdentityKeepsKeys(turns: Turns, turns': Turns)
    requires IdsDistinct(turns) && KeysDistinct(turns) && SameIdentities(turns, turns')
    ensures IdsDistinct(turns') && KeysDistinct(turns')
  {
    forall m, n | m in turns' && n in turns' && turns'[m].id == turns'[n].id ensures m == n {
      assert SameIdentity(turns[m], turns'[m]) && SameIdentity(turns[n], turns'[n]);
    }
    forall m, n | m in turns' && n in turns' && turns'[m].advanceKey.Some? && turns'[m].advanceKey == turns'[n].advanceKey ensures m == n {
      assert SameIdentity(turns[m], turns'[m]) && SameIdentity(turns[n], turns'[n]);
    }
  }

  lemma IdentityKeepsStructure(turns: Turns, turns': Turns, candidates: Candidates)
    requires Structure(turns, candidates) && SameIdentities(turns, turns')
    requires forall n :: n in turns' ==> TurnOk(turns'[n])
    ensures Structure(turns', candidates)
  {
    IdentityKeepsBijection(turns, turns', candidates);
    IdentityKeepsKeys(turns, turns');
    forall n | n in turns' ensures (turns'[n].advanceKey.Some? <==> n >= 2) && (turns'[n].candidate.Some? <==> n >= 2) {
      assert SameIdentity(turns[n], turns'[n]);
    }
  }

  lemma UpdateKeepsStructure(turns: Turns, candidates: Candidates, n: nat, turn: Turn)
    requires Structure(turns, candidates) && n in turns && SameIdentity(turns[n], turn) && TurnOk(turn)
    ensures Structure(turns[n := turn], candidates)
  {
    UpdateKeepsKeys(turns, n, turn);
    IdentityKeepsStructure(turns, turns[n := turn], candidates);
  }

  lemma WithTurnKeepsStatus(s: Session, n: nat, turn: Turn)
    requires Contiguous(s.turns) && StatusOk(s) && n in s.turns && SameIdentity(s.turns[n], turn)
    requires s.turns[n].ended == turn.ended && s.turns[n].skipped == turn.skipped
    requires s.turns[n].status == TurnReady ==> turn.status == TurnReady
    ensures StatusOk(WithTurn(s, n, turn))
  {
    UpdateKeepsKeys(s.turns, n, turn);
    if s.status == Active { UpdateKeepsTiling(s, n, turn); }
    if s.recording.Some? { AnswersStayReady(s, WithTurn(s, n, turn)); }
  }

  lemma WithTurnKeeps(s: Session, n: nat, turn: Turn)
    requires SessionOk(s) && n in s.turns && SameIdentity(s.turns[n], turn) && TurnOk(turn)
    requires s.turns[n].ended == turn.ended && s.turns[n].skipped == turn.skipped
    requires s.turns[n].status == TurnReady ==> turn.status == TurnReady
    ensures SessionOk(WithTurn(s, n, turn))
  {
    UpdateKeepsStructure(s.turns, s.candidates, n, turn);
    WithTurnKeepsStatus(s, n, turn);
  }

  lemma UpdateKeepsTiling(s: Session, n: nat, turn: Turn)
    requires Contiguous(s.turns) && Tiled(s) && n in s.turns && SameIdentity(s.turns[n], turn)
    requires s.turns[n].ended == turn.ended && s.turns[n].skipped == turn.skipped
    ensures Tiled(WithTurn(s, n, turn))
  {
    var s' := WithTurn(s, n, turn);
    UpdateKeepsKeys(s.turns, n, turn);
    forall k | k in s'.turns && k + 1 in s'.turns ensures Follows(s'.turns[k], s'.turns[k + 1]) {
      assert Follows(s.turns[k], s.turns[k + 1]);
    }
  }

  lemma AnswersStayReady(s: Session, s': Session)
    requires AllAnswersReady(s) && s.turns.Keys == s'.turns.Keys
    requires forall n :: n in s.turns ==> s.turns[n].skipped == s'.turns[n].skipped && (s.turns[n].status == TurnReady ==> s'.turns[n].status == TurnReady)
    ensures AllAnswersReady(s')
  {
    var n :| n in s.turns && !s.turns[n].skipped;
    assert n in s'.turns && !s'.turns[n].skipped;
  }

  lemma AttachKeeps(t: Tables, key: nat, n: nat, asset: Id, usable: bool, job: Id, now: int)
    requires SessionOk(t.session)
    ensures SessionOk(Attached(t, key, n, asset, usable, job, now).0.session)
  {
    var s' := Attached(t, key, n, asset, usable, job, now).0.session;
    if s' != t.session {
      assert TurnOk(t.session.turns[n]);
      WithTurnKeeps(t.session, n, s'.turns[n]);
    }
  }

  lemma RealtimeKeeps(t: Tables, key: nat, n: nat, text: string, job: Id, now: int)
    requires SessionOk(t.session)
    ensures SessionOk(SavedRealtime(t, key, n, text, job, now).0.session)
  {
    var s' := SavedRealtime(t, key, n, text, job, now).0.session;
    if s' != t.session {
      assert TurnOk(t.session.turns[n]);
      WithTurnKeeps(t.session, n, s'.turns[n]);
    }
  }

  lemma BatchKeeps(t: Tables, held: Claimed, id: Id, text: string, now: int)
    requires SessionOk(t.session)
    ensures SessionOk(SavedBatch(t, held, id, text, now).0)
  {
    var s' := SavedBatch(t, held, id, text, now).0;
    var n := TurnOf(t.session, id);
    if s' != t.session {
      assert TurnOk(t.session.turns[n]);
      WithTurnKeeps(t.session, n, s'.turns[n]);
    }
  }

  lemma FailedTurnKeeps(s: Session, n: nat)
    requires SessionOk(s) && n in s.turns && !s.turns[n].skipped && s.turns[n].status != TurnReady
    ensures SessionOk(WithTurn(s, n, s.turns[n].(status := TurnFailed)))
  {
    assert TurnOk(s.turns[n]);
    WithTurnKeeps(s, n, s.turns[n].(status := TurnFailed));
  }

  lemma StepFailedKeeps(s: Session, kind: Kind, resource: Id)
    requires SessionOk(s)
    ensures SessionOk(StepFailed(s, kind, resource))
  {
    if kind == InterviewProcess(TurnStep) {
      var n := TurnOf(s, resource);
      if n in s.turns && !s.turns[n].skipped && s.turns[n].status != TurnReady { FailedTurnKeeps(s, n); }
    }
  }

  // ---- Candidates ---------------------------------------------------------------------

  function WithCandidate(s: Session, id: Id, question: string): Session {
    s.(candidates := s.candidates[id := Candidate(question, None)])
  }

  lemma CandidateKeepsStructure(turns: Turns, candidates: Candidates, id: Id, candidate: Candidate)
    requires Structure(turns, candidates) && id !in candidates && candidate.consumedBy.None?
    requires forall c :: c in candidates ==> candidates[c].consumedBy.Some?
    ensures Structure(turns, candidates[id := candidate])
  {
  }

  lemma CandidateKeepsTiling(s: Session, id: Id, question: string)
    requires Tiled(s)
    ensures Tiled(WithCandidate(s, id, question))
  {
    forall k | k in s.turns && k + 1 in s.turns ensures Follows(s.turns[k], s.turns[k + 1]) {}
  }

  lemma CandidateKeeps(s: Session, id: Id, question: string)
    requires SessionOk(s) && s.status == Active && Unused(s) == {} && id !in s.candidates
    ensures SessionOk(WithCandidate(s, id, question))
  {
    forall c | c in s.candidates ensures s.candidates[c].consumedBy.Some? { assert c !in Unused(s); }
    CandidateKeepsStructure(s.turns, s.candidates, id, Candidate(question, None));
    CandidateKeepsTiling(s, id, question);
  }

  lemma PreparationKeeps(t: Tables, held: Claimed, question: string, id: Id, now: int)
    requires SessionOk(t.session)
    ensures SessionOk(SavedPreparation(t, held, question, id, now).0)
  {
    var s' := SavedPreparation(t, held, question, id, now).0;
    if s' != t.session { assert s'.candidates == map[id := Candidate(question, None)]; }
  }

  lemma AdaptiveKeeps(t: Tables, held: Claimed, source: nat, question: string, novel: bool, id: Id, now: int)
    requires SessionOk(t.session)
    ensures SessionOk(SavedAdaptive(t, held, source, question, novel, id, now).0)
  {
    if SavedAdaptive(t, held, source, question, novel, id, now).0 != t.session { CandidateKeeps(t.session, id, question); }
  }

  lemma RefillKeeps(t: Tables, held: Claimed, question: string, novel: bool, id: Id, now: int)
    requires SessionOk(t.session)
    ensures SessionOk(SavedRefill(t, held, question, novel, id, now).0)
  {
    if SavedRefill(t, held, question, novel, id, now).0 != t.session { CandidateKeeps(t.session, id, question); }
  }

  // ---- Turns --------------------------------------------------------------------------

  lemma StartKeeps(s: Session, turn: Id, now: int)
    requires SessionOk(s)
    ensures SessionOk(Started(s, turn, now).0)
  {
    var s' := Started(s, turn, now).0;
    if s' != s {
      assert s'.turns == map[1 := FreshTurn(turn, s.openingQuestion, 0, None, None)];
      assert s'.turns.Keys == {1} && LastSeq(s') == 1;
    }
  }

  /** What Advance has checked when it starts to write. */
  predicate Advanceable(s: Session, input: AdvanceInput) {
    && s.status == Active && s.recording.None? && LastSeq(s) in s.turns
    && input.candidate in s.candidates && s.candidates[input.candidate].consumedBy.None?
    && input.atMs < s.maxSeconds * 1000
    && var last := s.turns[LastSeq(s)];
       !last.skipped && last.ended.None? && input.atMs - last.asked >= MIN_TURN_MS && (input.skip ==> Untouched(last))
  }

  lemma NoRefusal(s: Session, input: AdvanceInput, now: int)
    requires AdvanceRefusal(s, input, now).None?
    ensures Advanceable(s, input) && s.turns.Keys != {} && input.current == LastSeq(s)
  {
    assert input.candidate in Unused(s);
  }

  /** Advance closes the last turn and appends one. */
  function Appended(turns: Turns, n: nat, last: Turn, next: Turn): Turns { turns[n := last][n + 1 := next] }

  lemma AppendGrows(turns: Turns, n: nat, last: Turn, next: Turn)
    requires Contiguous(turns) && n == Highest(turns.Keys) && n in turns
    ensures
      var turns' := Appended(turns, n, last, next);
      && n >= 1 && n + 1 !in turns && turns'.Keys == turns.Keys + {n + 1} && Highest(turns'.Keys) == n + 1
      && Contiguous(turns') && turns'[n] == last && turns'[n + 1] == next
      && forall k :: k in turns && k != n ==> turns'[k] == turns[k]
  {
    var turns' := Appended(turns, n, last, next);
    assert turns'.Keys == turns.Keys + {n + 1};
    assert n + 1 in turns'.Keys;
  }

  lemma AppendKeepsBijection(turns: Turns, candidates: Candidates, n: nat, last: Turn, next: Turn, c: Id)
    requires Contiguous(turns) && n == Highest(turns.Keys) && n in turns && SameIdentity(turns[n], last)
    requires Bijection(turns, candidates) && AtMostOneUnused(candidates)
    requires c in candidates && candidates[c].consumedBy.None? && next.candidate == Some(c) && next.question == candidates[c].question
    ensures
      var candidates' := candidates[c := candidates[c].(consumedBy := Some(n + 1))];
      && Bijection(Appended(turns, n, last, next), candidates')
      && forall d :: d in candidates' ==> candidates'[d].consumedBy.Some?
  {
    var turns' := Appended(turns, n, last, next);
    var candidates' := candidates[c := candidates[c].(consumedBy := Some(n + 1))];
    AppendGrows(turns, n, last, next);
    forall k | k in turns' && k >= 2
      ensures turns'[k].candidate.Some? && turns'[k].candidate.value in candidates'
        && candidates'[turns'[k].candidate.value] == Candidate(turns'[k].question, Some(k))
    {
      if k <= n { assert turns'[k].candidate == turns[k].candidate && turns'[k].question == turns[k].question; }
    }
    forall d | d in candidates' && candidates'[d].consumedBy.Some?
      ensures var k := candidates'[d].consumedBy.value; k in turns' && k >= 2 && turns'[k].candidate == Some(d)
    {
      if d != c { assert turns'[candidates[d].consumedBy.value].candidate == turns[candidates[d].consumedBy.value].candidate; }
    }
  }

  lemma AppendKeepsKeys(turns: Turns, n: nat, last: Turn, next: Turn)
    requires Contiguous(turns) && n == Highest(turns.Keys) && n in turns && SameIdentity(turns[n], last)
    requires IdsDistinct(turns) && KeysDistinct(turns)
    requires forall k :: k in turns ==> turns[k].id != next.id && (next.advanceKey.Some? ==> turns[k].advanceKey != next.advanceKey)
    ensures IdsDistinct(Appended(turns, n, last, next)) && KeysDistinct(Appended(turns, n, last, next))
  {
    var turns' := Appended(turns, n, last, next);
    AppendGrows(turns, n, last, next);
    forall k | k in turns ensures SameIdentity(turns'[k], turns[k]) {}
    forall i, j | i in turns' && j in turns' && turns'[i].id == turns'[j].id ensures i == j {
      if i in turns && j in turns { assert SameIdentity(turns'[i], turns[i]) && SameIdentity(turns'[j], turns[j]); }
    }
    forall i, j | i in turns' && j in turns' && turns'[i].advanceKey.Some? && turns'[i].advanceKey == turns'[j].advanceKey ensures i == j {
      if i in turns && j in turns { assert SameIdentity(turns'[i], turns[i]) && SameIdentity(turns'[j], turns[j]); }
    }
  }

  lemma AppendKeepsTurns(turns: Turns, n: nat, last: Turn, next: Turn)
    requires Contiguous(turns) && n == Highest(turns.Keys) && n in turns && SameIdentity(turns[n], last)
    requires TurnsOk(turns) && TurnOk(last) && TurnOk(next) && next.advanceKey.Some? && next.candidate.Some?
    ensures TurnsOk(Appended(turns, n, last, next))
  {
    AppendGrows(turns, n, last, next);
  }

  lemma AdvanceKeepsTiling(s: Session, input: AdvanceInput, turn: Id)
    requires Contiguous(s.turns) && Tiled(s) && Advanceable(s, input)
    ensures Tiled(AdvancedSession(s, input, turn))
  {
    var s', n := AdvancedSession(s, input, turn), LastSeq(s);
    AppendGrows(s.turns, n, s'.turns[n], s'.turns[n + 1]);
    forall k | k in s'.turns && k + 1 in s'.turns ensures Follows(s'.turns[k], s'.turns[k + 1]) {
      if k + 1 <= n { assert Follows(s.turns[k], s.turns[k + 1]); }
    }
  }

  /** A new key is not the key of any earlier turn. */
  lemma NewKey(s: Session, key: nat, n: nat)
    requires Contiguous(s.turns) && TurnsOk(s.turns) && AdvancedBy(s, key) == 0 && n in s.turns
    ensures s.turns[n].advanceKey != Some(key)
  {
    assert n >= 2 ==> n - 1 in s.turns;
    assert s.turns[n].advanceKey == Some(key) ==> n in AskedWith(s, key);
  }

  lemma AdvancedSessionOk(s: Session, input: AdvanceInput, turn: Id)
    requires SessionOk(s) && Advanceable(s, input) && AdvancedBy(s, input.key) == 0
    requires forall n :: n in s.turns ==> s.turns[n].id != turn
    ensures SessionOk(AdvancedSession(s, input, turn))
  {
    var s', n := AdvancedSession(s, input, turn), LastSeq(s);
    var last, next := s'.turns[n], s'.turns[n + 1];
    assert s'.turns == Appended(s.turns, n, last, next);
    assert TurnOk(s.turns[n]);
    AppendGrows(s.turns, n, last, next);
    AppendKeepsBijection(s.turns, s.candidates, n, last, next, input.candidate);
    forall m | m in s.turns ensures s.turns[m].advanceKey != Some(input.key) { NewKey(s, input.key, m); }
    AppendKeepsKeys(s.turns, n, last, next);
    AppendKeepsTurns(s.turns, n, last, next);
    AdvanceKeepsTiling(s, input, turn);
  }

  lemma AdvanceKeeps(t: Tables, input: AdvanceInput, turn: Id, job: Id, now: int)
    requires SessionOk(t.session)
    requires forall n :: n in t.session.turns ==> t.session.turns[n].id != turn
    ensures SessionOk(Advanced(t, input, turn, job, now).0.session)
  {
    if AdvancedBy(t.session, input.key) == 0 && AdvanceRefusal(t.session, input, now).None? {
      NoRefusal(t.session, input, now);
      AdvancedSessionOk(t.session, input, turn);
    }
  }

  lemma SkipKeepsTiling(s: Session, turn: Turn)
    requires Contiguous(s.turns) && Tiled(s) && SameIdentity(s.turns[LastSeq(s)], turn) && LastTurnOk(s, turn)
    ensures Tiled(WithTurn(s, LastSeq(s), turn))
  {
    var s' := WithTurn(s, LastSeq(s), turn);
    UpdateKeepsKeys(s.turns, LastSeq(s), turn);
    forall k | k in s'.turns && k + 1 in s'.turns ensures Follows(s'.turns[k], s'.turns[k + 1]) {
      assert Follows(s.turns[k], s.turns[k + 1]);
    }
  }

  lemma SkipKeeps(s: Session, key: nat, n: nat, atMs: int, now: int)
    requires SessionOk(s)
    ensures SessionOk(Skipped(s, key, n, atMs, now).0)
  {
    var s' := Skipped(s, key, n, atMs, now).0;
    if s' != s {
      assert TurnOk(s.turns[n]);
      UpdateKeepsStructure(s.turns, s.candidates, n, s'.turns[n]);
      SkipKeepsTiling(s, s'.turns[n]);
    }
  }

  lemma LinkedStatusOk(s: Session)
    requires s.recording.Some? && s.status in {Finalizing, Finalized} && AllAnswersReady(s)
    ensures StatusOk(s)
  {
  }

  function Closed(s: Session, n: nat, ended: int): Session
    requires n in s.turns
  {
    WithTurn(s, n, s.turns[n].(ended := Some(ended)))
  }

  /** Closing a turn of a linked session. */
  lemma CloseKeeps(s: Session, n: nat, ended: int)
    requires SessionOk(s) && s.recording.Some? && n in s.turns
    ensures SessionOk(Closed(s, n, ended))
  {
    var turn := s.turns[n].(ended := Some(ended));
    assert s.status in {Finalizing, Finalized};
    assert TurnOk(s.turns[n]);
    UpdateKeepsStructure(s.turns, s.candidates, n, turn);
    CloseKeepsReady(s, n, turn);
    LinkedStatusOk(Closed(s, n, ended));
  }

  lemma CloseKeepsReady(s: Session, n: nat, turn: Turn)
    requires AllAnswersReady(s) && n in s.turns && turn.skipped == s.turns[n].skipped && turn.status == s.turns[n].status
    ensures AllAnswersReady(WithTurn(s, n, turn))
  {
    UpdateKeepsKeys(s.turns, n, turn);
    AnswersStayReady(s, WithTurn(s, n, turn));
  }

  lemma FinalizedIs(s: Session, key: nat, endedMs: int, recording: Id)
    ensures
      var s', n := FinalizedSession(s, key, endedMs, recording).0, LastAnswered(s);
      || s' == s
      || (&& s.recording.Some? && n in s.turns
          && s' == (if s.turns[n].ended.Some? then s else Closed(s, n, endedMs)).(status := Finalized, endedMs := endedMs, finalizeKey := Some(key)))
  {
  }

  lemma FinalizeKeeps(s: Session, key: nat, endedMs: int, recording: Id)
    requires SessionOk(s)
    ensures SessionOk(FinalizedSession(s, key, endedMs, recording).0)
  {
    var s', n := FinalizedSession(s, key, endedMs, recording).0, LastAnswered(s);
    FinalizedIs(s, key, endedMs, recording);
    if s' != s {
      if s.turns[n].ended.None? {
        FinalizeOpenKeeps(s, n, key, endedMs);
      } else {
        FinalStatusKeeps(s, key, endedMs);
      }
    }
  }

  lemma FinalizeOpenKeeps(s: Session, n: nat, key: nat, endedMs: int)
    requires SessionOk(s) && s.recording.Some? && n in s.turns
    ensures SessionOk(Closed(s, n, endedMs).(status := Finalized, endedMs := endedMs, finalizeKey := Some(key)))
  {
    CloseKeeps(s, n, endedMs);
    FinalStatusKeeps(Closed(s, n, endedMs), key, endedMs);
  }

  lemma FinalStatusKeeps(s: Session, key: nat, endedMs: int)
    requires SessionOk(s) && s.recording.Some?
    ensures SessionOk(s.(status := Finalized, endedMs := endedMs, finalizeKey := Some(key)))
  {
  }

  lemma DurationKeeps(s: Session, actualMs: int)
    requires SessionOk(s) && s.recording.Some?
    ensures SessionOk(DurationVerified(s, actualMs))
  {
    var n := LastAnswered(s);
    if n in s.turns { CloseKeeps(s, n, DurationVerified(s, actualMs).turns[n].ended.value); }
  }

  lemma AnswersKeepStructure(s: Session, answers: map<nat, string>)
    requires Structure(s.turns, s.candidates)
    requires forall n :: n in answers && n in s.turns ==> s.turns[n].status == TurnReady
    ensures Structure(WithAnswers(s, answers).turns, s.candidates)
  {
    var turns := WithAnswers(s, answers).turns;
    assert turns.Keys == s.turns.Keys;
    forall n | n in turns ensures TurnOk(turns[n]) && SameIdentity(s.turns[n], turns[n]) { assert TurnOk(s.turns[n]); }
    IdentityKeepsStructure(s.turns, turns, s.candidates);
  }

  lemma WithAnswersKeeps(s: Session, answers: map<nat, string>)
    requires SessionOk(s) && s.recording.Some?
    requires forall n :: n in answers && n in s.turns ==> s.turns[n].status == TurnReady
    ensures SessionOk(WithAnswers(s, answers))
  {
    AnswersKeepStructure(s, answers);
    AnswersStayReady(s, WithAnswers(s, answers));
    LinkedStatusOk(WithAnswers(s, answers));
  }

  lemma AddressedAreReady(s: Session, answers: map<nat, string>)
    requires StatusOk(s) && s.recording.Some? && forall n :: n in answers ==> Addressed(s, n)
    ensures forall n :: n in answers && n in s.turns ==> s.turns[n].status == TurnReady
  {
    forall n | n in answers ensures s.turns[n].status == TurnReady { assert Addressed(s, n); }
  }

  lemma AnswersKeep(s: Session, recording: Id, answers: map<nat, string>)
    requires SessionOk(s)
    ensures SessionOk(SavedAnswers(s, recording, answers).0)
  {
    if s.recording == Some(recording) && forall n :: n in answers ==> Addressed(s, n) {
      AddressedAreReady(s, answers);
      WithAnswersKeeps(s, answers);
    }
  }

  /** Only the status changed, or the session was linked on the way. */
  predicate StatusMoved(s: Session, s': Session) {
    || s' == s
    || (&& s' == s.(status := s'.status, recording := s'.recording)
        && if s'.recording.Some? then s'.status in {Finalizing, Finalized} && AllAnswersReady(s)
           else s'.status in {FailedSession, CancelledSession})
  }

  lemma StatusKeeps(s: Session, s': Session)
    requires SessionOk(s) && StatusMoved(s, s')
    ensures SessionOk(s')
  {
    assert AllAnswersReady(s) ==> AllAnswersReady(s');
  }

  // ---- How many turns fit -------------------------------------------------------------

  lemma {:induction false} TurnsStartLate(s: Session, k: nat)
    requires Contiguous(s.turns) && Tiled(s) && 1 <= k <= LastSeq(s)
    ensures s.turns[k].asked >= MIN_TURN_MS * (k - 1)
  {
    if k > 1 {
      TurnsStartLate(s, k - 1);
      assert Follows(s.turns[k - 1], s.turns[k - 1 + 1]);
    }
  }

  /** The time limit bounds the number of turns. */
  lemma TurnCountBounded(s: Session)
    requires Contiguous(s.turns) && Tiled(s)
    ensures LastSeq(s) <= (s.maxSeconds * 1000 - 1) / MIN_TURN_MS + 1
  {
    TurnsStartLate(s, LastSeq(s));
  }
}
