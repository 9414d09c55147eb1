/** One interview session and its question-and-answer turns (`internal/interview`).

    The functions say what each transaction does to the session and the job table; class
    `Repository` performs the transactions statement by statement and is proved equal to them. */
module Interview {
  import opened Prelude
  import opened Text
  import opened Timeline
  import opened WorkQueue

  const MIN_TURN_MS := 300
  const MAX_ANSWER_RUNES := 4000

  datatype SessionStatus = Preparing | Ready | Active | Finalizing | Finalized | FailedSession | CancelledSession

  datatype Origin = TurnRealtime | TurnBatch

  datatype Turn = Turn(
    id: Id, question: string, asked: int, ended: Option<int>,
    skipped: bool, skipKey: Option<nat>, advanceKey: Option<nat>, candidate: Option<Id>,
    audio: Option<Id>, audioKey: Option<nat>, status: TurnStatus,
    provisional: Option<string>, finalText: Option<string>, transcriptKey: Option<nat>, origin: Option<Origin>)

  datatype Candidate = Candidate(question: string, consumedBy: Option<nat>)

  datatype Session = Session(
    id: Id, status: SessionStatus, openingQuestion: string, maxSeconds: int, expiresAt: int,
    recording: Option<Id>, endedMs: int, finalizeKey: Option<nat>,
    turns: map<nat, Turn>, candidates: map<Id, Candidate>)

  /** `jobs` holds the interview jobs: preparation, refills and one job per turn. */
  datatype Tables = Tables(session: Session, jobs: Jobs)

  datatype Outcome = Done | Conflict | NotReady | NotFound | DurationLimit | Invalid | LeaseGone | Failure

  datatype AdvanceInput = AdvanceInput(key: nat, current: nat, candidate: Id, atMs: int, skip: bool)

  // ---- Reading the rows ---------------------------------------------------------------

  lemma {:induction false} HasHighest(keys: set<nat>)
    requires keys != {}
    ensures exists n :: n in keys && forall k :: k in keys ==> k <= n
  {
    var n :| n in keys;
    if keys != {n} {
      HasHighest(keys - {n});
      var m :| m in keys - {n} && forall k :: k in keys - {n} ==> k <= m;
      assert forall k :: k in keys ==> k == n || k in keys - {n};
      if m < n { assert forall k :: k in keys ==> k <= n; } else { assert forall k :: k in keys ==> k <= m; }
    }
  }

  /** `ORDER BY seq DESC LIMIT 1` and `MAX(seq)`; 0 stands for no row. */
  function Highest(keys: set<nat>): (n: nat)
    ensures keys != {} ==> n in keys
    ensures forall k :: k in keys ==> k <= n
    ensures keys == {} ==> n == 0
  {
    if keys == {} then 0
    else
      HasHighest(keys);
      var n :| n in keys && forall k :: k in keys ==> k <= n;
      n
  }

  function LastSeq(s: Session): nat { Highest(s.turns.Keys) }

  function LastAnswered(s: Session): nat { Highest(set n | n in s.turns && !s.turns[n].skipped) }

  function TurnOf(s: Session, id: Id): nat { Highest(set n | n in s.turns && s.turns[n].id == id) }

  function Unused(s: Session): set<Id> { set c | c in s.candidates && s.candidates[c].consumedBy.None? }

  lemma UnusedAre(s: Session)
    ensures Unused(s) == set c | c in s.candidates && s.candidates[c].consumedBy == None
    ensures |Unused(s)| == 0 <==> forall c :: c in s.candidates ==> s.candidates[c].consumedBy != None
  {
    if Unused(s) != {} {
      var c :| c in Unused(s);
    } else {
      forall c | c in s.candidates ensures s.candidates[c].consumedBy != None { assert c !in Unused(s); }
    }
  }

  /** The turn that an earlier Advance with this key asked; it is joined with its predecessor. */
  function AdvancedBy(s: Session, key: nat): nat { Highest(AskedWith(s, key)) }

  function AskedWith(s: Session, key: nat): set<nat> {
    set n | n in s.turns && n > 0 && n - 1 in s.turns && s.turns[n].advanceKey == Some(key)
  }

  predicate TextBlank(turn: Turn) {
    && (turn.provisional.None? || TrimSpace(turn.provisional.value) == "")
    && (turn.finalText.None? || TrimSpace(turn.finalText.value) == "")
  }

  /** What skipping a turn demands of it. */
  predicate Untouched(turn: Turn) { turn.status == Pending && turn.audio.None? && TextBlank(turn) }

  function FreshTurn(id: Id, question: string, asked: int, key: Option<nat>, candidate: Option<Id>): Turn {
    Turn(id, question, asked, None, false, None, key, candidate, None, None, Pending, None, None, None, None)
  }

  function WithTurn(s: Session, n: nat, turn: Turn): Session { s.(turns := s.turns[n := turn]) }

  function TurnJob(turn: Id, now: int): Job { NewJob(InterviewProcess(TurnStep), turn, InterviewTurnKey(turn), 3, now) }

  // ---- Client transactions ------------------------------------------------------------

  function Started(s: Session, turn: Id, now: int): (Session, Outcome) {
    if s.status == Active then (s, Done)
    else if s.status != Ready || s.expiresAt <= now then (s, NotReady)
    else if |Unused(s)| != 1 then (s, NotReady)
    else if 1 in s.turns then (s, Failure)
    else (WithTurn(s, 1, FreshTurn(turn, s.openingQuestion, 0, None, None)).(status := Active), Done)
  }

  predicate SameAdvance(s: Session, next: nat, input: AdvanceInput)
    requires next in s.turns && next > 0 && next - 1 in s.turns
  {
    && next == input.current + 1 && s.turns[next].asked == input.atMs
    && s.turns[next].candidate == Some(input.candidate) && s.turns[next - 1].skipped == input.skip
  }

  function AdvanceRefusal(s: Session, input: AdvanceInput, now: int): Option<Outcome> {
    var current := LastSeq(s);
    if s.status != Active || s.expiresAt <= now then Some(Conflict)
    else if input.atMs >= s.maxSeconds * 1000 then Some(DurationLimit)
    else if s.recording.Some? then Some(Conflict)
    else if s.turns.Keys == {} then Some(Failure)
    else
      var turn := s.turns[current];
      if current != input.current || turn.ended.Some? || turn.skipped || input.atMs - turn.asked < MIN_TURN_MS then Some(Conflict)
      else if input.skip && !Untouched(turn) then Some(Conflict)
      else if input.candidate !in Unused(s) then Some(NotReady)
      else None
  }

  function AdvancedSession(s: Session, input: AdvanceInput, turn: Id): Session
    requires s.turns.Keys != {} && input.candidate in s.candidates
  {
    var n := LastSeq(s);
    s.(turns := s.turns[n := s.turns[n].(ended := Some(input.atMs), skipped := input.skip)]
                       [n + 1 := FreshTurn(turn, s.candidates[input.candidate].question, input.atMs, Some(input.key), Some(input.candidate))],
       candidates := s.candidates[input.candidate := s.candidates[input.candidate].(consumedBy := Some(n + 1))])
  }

  function Advanced(t: Tables, input: AdvanceInput, turn: Id, job: Id, now: int): (Tables, Outcome) {
    var s := t.session;
    var earlier := AdvancedBy(s, input.key);
    if earlier > 0 then (t, if SameAdvance(s, earlier, input) then Done else Conflict)
    else
      match AdvanceRefusal(s, input, now)
      case Some(refusal) => (t, refusal)
      case None => AskedNext(t, input, turn, job, now)
  }

  function AskedNext(t: Tables, input: AdvanceInput, turn: Id, job: Id, now: int): (Tables, Outcome)
    requires t.session.turns.Keys != {} && input.candidate in t.session.candidates
  {
    var s, after := t.session, AdvancedSession(t.session, input, turn);
    if !input.skip || Unused(after) != {} then (t.(session := after), Done)
    else
      match Enqueued(t.jobs, job, NewJob(InterviewProcess(RefillStep), s.id, InterviewRefillKey(s.id, LastSeq(s) + 1), 3, now))
      case Ok(jobs) => (Tables(after, jobs), Done)
      case Err(_) => (t, Failure)
  }

  // ---- What Advance answers, column by column -----------------------------------------

  /** An earlier Advance with this key asked the turn `n`. */
  predicate AskedEarlier(s: Session, key: nat, n: nat) {
    n >= 1 && n in s.turns && n - 1 in s.turns && s.turns[n].advanceKey == Some(key)
  }

  /** When a request that is not repeated may ask the next question. */
  predicate MayAsk(s: Session, input: AdvanceInput, now: int) {
    && s.status == Active && now < s.expiresAt && s.recording == None && input.atMs < s.maxSeconds * 1000
    && LastOne(s, input.current) && input.candidate in s.candidates && s.candidates[input.candidate].consumedBy == None
    && var open := s.turns[input.current];
       && open.ended == None && !open.skipped && input.atMs - open.asked >= 300
       && (input.skip ==>
             && open.status == Pending && open.audio == None && (open.provisional.None? || TrimSpace(open.provisional.value) == "")
             && (open.finalText.None? || TrimSpace(open.finalText.value) == ""))
  }

  /** The open turn is closed, and the candidate is consumed by the next one, which asks its question. */
  predicate AsksNext(s: Session, s': Session, input: AdvanceInput, turn: Id)
    requires input.current in s.turns && input.candidate in s.candidates
  {
    var next, question := input.current + 1, s.candidates[input.candidate].question;
    s' == s.(turns := s.turns[input.current := s.turns[input.current].(ended := Some(input.atMs), skipped := input.skip)]
                             [next := Turn(turn, question, input.atMs, None, false, None, Some(input.key), Some(input.candidate),
                                           None, None, Pending, None, None, None, None)],
             candidates := s.candidates[input.candidate := Candidate(question, Some(next))])
  }

  predicate LeavesNone(s: Session, input: AdvanceInput) {
    input.skip && forall c :: c in s.candidates && c != input.candidate ==> s.candidates[c].consumedBy != None
  }

  predicate RefillRequested(jobs: Jobs, session: Id, current: nat) {
    exists j :: j in jobs && jobs[j].key == InterviewRefillKey(session, current + 1)
  }

  function RefillJob(session: Id, current: nat, now: int): Job {
    Job(InterviewProcess(RefillStep), session, InterviewRefillKey(session, current + 1), Queued, 0, 3, now, None, None, None)
  }

  ghost predicate AdvanceAnswers(t: Tables, t': Tables, outcome: Outcome, input: AdvanceInput, turn: Id, job: Id, now: int) {
    var s, refills := t.session, LeavesNone(t.session, input) && !RefillRequested(t.jobs, t.session.id, input.current);
    (forall n :: !AskedEarlier(s, input.key, n)) ==>
    && (outcome == Done <==> MayAsk(s, input, now) && !(refills && job in t.jobs))
    && (outcome == DurationLimit <==> s.status == Active && now < s.expiresAt && s.maxSeconds * 1000 <= input.atMs)
    && (outcome == NotReady ==> input.candidate !in s.candidates || s.candidates[input.candidate].consumedBy != None)
    && (outcome != Done ==> t' == t)
    && (outcome == Done ==>
          && AsksNext(s, t'.session, input, turn)
          && t'.jobs == (if refills then t.jobs[job := RefillJob(s.id, input.current, now)] else t.jobs)
          && (LeavesNone(s, input) ==> RefillRequested(t'.jobs, s.id, input.current)))
  }

  lemma AskedIff(s: Session, key: nat, n: nat)
    ensures AskedEarlier(s, key, n) <==> n in AskedWith(s, key)
    ensures AdvancedBy(s, key) > 0 ==> AskedEarlier(s, key, AdvancedBy(s, key))
    ensures AskedEarlier(s, key, n) ==> AdvancedBy(s, key) >= n
  {
  }

  lemma LastOneIs(s: Session, n: nat)
    ensures LastOne(s, n) <==> s.turns.Keys != {} && LastSeq(s) == n
  {
    if LastOne(s, n) { assert n in s.turns.Keys; }
  }

  lemma MayAskIff(s: Session, input: AdvanceInput, now: int)
    ensures MayAsk(s, input, now) <==> AdvanceRefusal(s, input, now).None?
  {
    LastOneIs(s, input.current);
  }

  lemma AdvancedAsks(s: Session, input: AdvanceInput, turn: Id, now: int)
    requires MayAsk(s, input, now)
    ensures s.turns.Keys != {} && AsksNext(s, AdvancedSession(s, input, turn), input, turn)
    ensures LeavesNone(s, input) <==> input.skip && Unused(AdvancedSession(s, input, turn)) == {}
  {
    LastOneIs(s, input.current);
    var after := AdvancedSession(s, input, turn);
    UnusedAre(after);
    assert after.candidates.Keys == s.candidates.Keys;
    forall c | c in s.candidates && c != input.candidate ensures after.candidates[c] == s.candidates[c] {}
    assert after.candidates[input.candidate].consumedBy != None;
    assert Unused(after) == {} <==> |Unused(after)| == 0;
  }

  lemma RefillQueued(jobs: Jobs, job: Id, session: Id, current: nat, now: int)
    ensures
      var queued := Enqueued(jobs, job, NewJob(InterviewProcess(RefillStep), session, InterviewRefillKey(session, current + 1), 3, now));
      && (queued.Err? <==> !RefillRequested(jobs, session, current) && job in jobs)
      && (queued.Ok? ==>
            && queued.value == (if RefillRequested(jobs, session, current) then jobs else jobs[job := RefillJob(session, current, now)])
            && RefillRequested(queued.value, session, current))
  {
    assert RefillRequested(jobs, session, current) <==> KeyTaken(jobs, InterviewRefillKey(session, current + 1));
    assert jobs[job := RefillJob(session, current, now)][job].key == InterviewRefillKey(session, current + 1);
  }

  /** A request that is not repeated asks the candidate's question, or changes nothing; a committed
      one that skips and leaves no candidate waiting has a refill job for the session. */
  lemma AdvancedAnswers(t: Tables, input: AdvanceInput, turn: Id, job: Id, now: int)
    ensures AdvanceAnswers(t, Advanced(t, input, turn, job, now).0, Advanced(t, input, turn, job, now).1, input, turn, job, now)
  {
    AskedIff(t.session, input.key, AdvancedBy(t.session, input.key));
    MayAskIff(t.session, input, now);
    LastOneIs(t.session, input.current);
    if MayAsk(t.session, input, now) {
      AdvancedAsks(t.session, input, turn, now);
      RefillQueued(t.jobs, job, t.session.id, input.current, now);
    }
  }

  /** A repeated request changes nothing and succeeds iff it agrees with the turn it asked. */
  lemma AdvancedRepeats(t: Tables, input: AdvanceInput, n: nat, turn: Id, job: Id, now: int)
    requires AskedEarlier(t.session, input.key, n) && forall m: nat :: AskedEarlier(t.session, input.key, m) ==> m <= n
    ensures
      var s, same := t.session,
        && n == input.current + 1 && t.session.turns[n].asked == input.atMs && t.session.turns[n].candidate == Some(input.candidate)
        && t.session.turns[n - 1].skipped == input.skip;
      Advanced(t, input, turn, job, now) == (t, if same then Done else Conflict)
  {
    AskedIff(t.session, input.key, n);
    AskedIff(t.session, input.key, AdvancedBy(t.session, input.key));
  }

  // ---- Skipping, audio and realtime texts ---------------------------------------------

  function Skipped(s: Session, key: nat, n: nat, atMs: int, now: int): (Session, Outcome) {
    if s.status != Active || s.expiresAt <= now || s.recording.Some? || atMs > s.maxSeconds * 1000 then (s, Conflict)
    else if s.turns.Keys == {} then (s, Failure)
    else if LastSeq(s) != n then (s, Conflict)
    else
      var turn := s.turns[n];
      if turn.skipped then (s, if turn.skipKey == Some(key) && turn.ended == Some(atMs) then Done else Conflict)
      else if turn.ended.Some? || atMs <= turn.asked || !Untouched(turn) then (s, Conflict)
      else if exists m :: m in s.turns && m != n && s.turns[m].skipKey == Some(key) then (s, Conflict)
      else (WithTurn(s, n, turn.(ended := Some(atMs), skipped := true, skipKey := Some(key))), Done)
  }

  /** `usable` stands for the checks on the uploaded asset and on its use by other sessions. */
  function Attached(t: Tables, key: nat, n: nat, asset: Id, usable: bool, job: Id, now: int): (Tables, Outcome) {
    var s := t.session;
    if s.status !in {Active, Finalizing, Finalized} then (t, Conflict)
    else if n !in s.turns then (t, NotFound)
    else
      var turn := s.turns[n];
      if turn.skipped then (t, Conflict)
      else if turn.audio.Some? then (t, if turn.audio == Some(asset) && turn.audioKey == Some(key) then Done else Conflict)
      else if !usable then (t, NotFound)
      else if exists m :: m in s.turns && s.turns[m].audio == Some(asset) then (t, Conflict)
      else TurnWritten(t, n, WithAudio(turn, key, asset), job, now)
  }

  function WithAudio(turn: Turn, key: nat, asset: Id): Turn {
    turn.(audio := Some(asset), audioKey := Some(key), status := if turn.status == TurnReady then TurnReady else TurnQueued)
  }

  /** A turn is written together with its job, or not at all. */
  function TurnWritten(t: Tables, n: nat, turn: Turn, job: Id, now: int): (Tables, Outcome) {
    match Enqueued(t.jobs, job, TurnJob(turn.id, now))
    case Ok(jobs) => (Tables(WithTurn(t.session, n, turn), jobs), Done)
    case Err(_) => (t, Failure)
  }

  function SavedRealtime(t: Tables, key: nat, n: nat, text: string, job: Id, now: int): (Tables, Outcome) {
    var s, transcript := t.session, Join(Fields(text));
    if transcript == "" || |transcript| > MAX_ANSWER_RUNES then (t, Invalid)
    else if n !in s.turns then (t, NotFound)
    else
      var turn := s.turns[n];
      if turn.skipped then (t, Conflict)
      else if turn.transcriptKey.Some? then
        (t, if turn.transcriptKey == Some(key) && turn.finalText == Some(transcript) then Done else Conflict)
      else if turn.origin.Some? || s.status != Active then (t, Conflict)
      else if exists m :: m in s.turns && s.turns[m].transcriptKey == Some(key) then (t, Conflict)
      else
        var saved := turn.(provisional := Some(transcript), finalText := Some(transcript), status := TurnReady,
                           transcriptKey := Some(key), origin := Some(TurnRealtime));
        TurnWritten(t, n, saved, job, now)
  }

  // ---- What attaching and saving answer, column by column -----------------------------

  predicate TurnJobKnown(jobs: Jobs, turn: Id) { exists j :: j in jobs && jobs[j].key == InterviewTurnKey(turn) }

  /** The turn is replaced, and its job is queued unless it was queued before. */
  ghost predicate Rewrites(t: Tables, t': Tables, n: nat, turn: Turn, job: Id, now: int) {
    && t'.session == t.session.(turns := t.session.turns[n := turn])
    && t'.jobs == (if TurnJobKnown(t.jobs, turn.id) then t.jobs
                   else t.jobs[job := Job(InterviewProcess(TurnStep), turn.id, InterviewTurnKey(turn.id), Queued, 0, 3, now, None, None, None)])
    && TurnJobKnown(t'.jobs, turn.id)
  }

  lemma TurnWrittenIs(t: Tables, n: nat, turn: Turn, job: Id, now: int)
    ensures
      var (t', outcome) := TurnWritten(t, n, turn, job, now);
      if !TurnJobKnown(t.jobs, turn.id) && job in t.jobs then t' == t && outcome == Failure
      else outcome == Done && Rewrites(t, t', n, turn, job, now)
  {
    assert TurnJobKnown(t.jobs, turn.id) <==> KeyTaken(t.jobs, InterviewTurnKey(turn.id));
    assert t.jobs[job := TurnJob(turn.id, now)][job].key == InterviewTurnKey(turn.id);
  }

  ghost predicate AttachAnswers(t: Tables, t': Tables, outcome: Outcome, key: nat, n: nat, asset: Id, usable: bool, job: Id, now: int) {
    var s := t.session;
    && (outcome != Done ==> t' == t)
    && (outcome == Done <==>
          && s.status in {Active, Finalizing, Finalized} && n in s.turns && !s.turns[n].skipped
          && if s.turns[n].audio != None then s.turns[n].audio == Some(asset) && s.turns[n].audioKey == Some(key)
             else usable && (forall m :: m in s.turns ==> s.turns[m].audio != Some(asset))
                  && (TurnJobKnown(t.jobs, s.turns[n].id) || job !in t.jobs))
    && (outcome == Done && s.turns[n].audio != None ==> t' == t)
    && (outcome == Done && s.turns[n].audio == None ==>
          Rewrites(t, t', n, s.turns[n].(audio := Some(asset), audioKey := Some(key),
                                         status := if s.turns[n].status == TurnReady then TurnReady else TurnQueued), job, now))
  }

  lemma AttachedAnswers(t: Tables, key: nat, n: nat, asset: Id, usable: bool, job: Id, now: int)
    ensures
      AttachAnswers(t, Attached(t, key, n, asset, usable, job, now).0, Attached(t, key, n, asset, usable, job, now).1,
                    key, n, asset, usable, job, now)
  {
    if n in t.session.turns { TurnWrittenIs(t, n, WithAudio(t.session.turns[n], key, asset), job, now); }
  }

  ghost predicate RealtimeAnswers(t: Tables, t': Tables, outcome: Outcome, key: nat, n: nat, text: string, job: Id, now: int) {
    var s, transcript := t.session, Join(Fields(text));
    && (outcome != Done ==> t' == t)
    && (outcome == Invalid <==> transcript == "" || |transcript| > 4000)
    && (outcome == Done <==>
          && transcript != "" && |transcript| <= 4000 && n in s.turns && !s.turns[n].skipped
          && if s.turns[n].transcriptKey != None then s.turns[n].transcriptKey == Some(key) && s.turns[n].finalText == Some(transcript)
             else s.status == Active && s.turns[n].origin == None && (forall m :: m in s.turns ==> s.turns[m].transcriptKey != Some(key))
                  && (TurnJobKnown(t.jobs, s.turns[n].id) || job !in t.jobs))
    && (outcome == Done && s.turns[n].transcriptKey != None ==> t' == t)
    && (outcome == Done && s.turns[n].transcriptKey == None ==>
          Rewrites(t, t', n, s.turns[n].(provisional := Some(transcript), finalText := Some(transcript), status := TurnReady,
                                         transcriptKey := Some(key), origin := Some(TurnRealtime)), job, now))
  }

  lemma SavedRealtimeAnswers(t: Tables, key: nat, n: nat, text: string, job: Id, now: int)
    ensures
      RealtimeAnswers(t, SavedRealtime(t, key, n, text, job, now).0, SavedRealtime(t, key, n, text, job, now).1, key, n, text, job, now)
  {
    var transcript := Join(Fields(text));
    if n in t.session.turns {
      var saved := t.session.turns[n].(provisional := Some(transcript), finalText := Some(transcript), status := TurnReady,
                                       transcriptKey := Some(key), origin := Some(TurnRealtime));
      TurnWrittenIs(t, n, saved, job, now);
    }
  }

  // ---- Cancelling and finalizing ------------------------------------------------------

  function SessionJobs(s: Session, jobs: Jobs): set<Id> {
    set j | j in jobs && jobs[j].kind.InterviewProcess? && Live(jobs[j])
         && (jobs[j].resource == s.id || exists n :: n in s.turns && s.turns[n].id == jobs[j].resource)
  }

  /** The job prepares or refills the session, or works on one of its turns, and has not ended. */
  predicate WorksFor(s: Session, job: Job) {
    && job.kind in {InterviewProcess(PrepareStep), InterviewProcess(TurnStep), InterviewProcess(RefillStep)}
    && job.state in {Queued, Running, RetryWait} && (job.resource == s.id || exists n :: n in s.turns && s.turns[n].id == job.resource)
  }

  /** Exactly the jobs that work for the session end. */
  predicate JobsEnd(s: Session, before: Jobs, after: Jobs, cancelled: bool, now: int) {
    && after.Keys == before.Keys
    && forall j :: j in before ==>
         after[j] == if cancelled && WorksFor(s, before[j])
                     then before[j].(state := Cancelled, completedAt := Some(now), leaseToken := None, leaseExpires := None)
                     else before[j]
  }

  lemma CancelledJobsEnd(t: Tables, now: int)
    ensures
      var (t', outcome) := SessionCancelled(t, now);
      JobsEnd(t.session, t.jobs, t'.jobs, outcome == Done && t.session.status != CancelledSession, now)
  {
    forall j | j in t.jobs ensures WorksFor(t.session, t.jobs[j]) <==> j in SessionJobs(t.session, t.jobs) { StepIs(t.jobs[j].kind); }
  }

  lemma StepIs(kind: Kind)
    ensures kind.InterviewProcess? <==> kind in {InterviewProcess(PrepareStep), InterviewProcess(TurnStep), InterviewProcess(RefillStep)}
  {
    if kind.InterviewProcess? { assert kind.step == PrepareStep || kind.step == TurnStep || kind.step == RefillStep; }
  }

  function SessionCancelled(t: Tables, now: int): (Tables, Outcome) {
    var s := t.session;
    if s.status == CancelledSession then (t, Done)
    else if s.status in {Finalized, Finalizing} || s.recording.Some? then (t, Conflict)
    else
      (Tables(s.(status := CancelledSession),
              map j | j in t.jobs :: if j in SessionJobs(s, t.jobs) then CancelRow(t.jobs[j], now) else t.jobs[j]), Done)
  }

  function FinalizedSession(s: Session, key: nat, endedMs: int, recording: Id): (Session, Outcome) {
    if endedMs > s.maxSeconds * 1000 then (s, DurationLimit)
    else if s.status == Finalized then
      (s, if s.finalizeKey == Some(key) && s.endedMs == endedMs && s.recording == Some(recording) then Done else Conflict)
    else if s.status !in {Active, Finalizing} || s.recording != Some(recording) then (s, Conflict)
    else if (set n | n in s.turns && !s.turns[n].skipped) == {} then (s, Failure)
    else
      var last := s.turns[LastAnswered(s)];
      if endedMs <= last.asked then (s, Conflict)
      else if last.ended.Some? && (last.ended.value <= last.asked || last.ended.value > s.maxSeconds * 1000) then (s, Conflict)
      else
        var closed := if last.ended.Some? then s else WithTurn(s, LastAnswered(s), last.(ended := Some(endedMs)));
        (closed.(status := Finalized, endedMs := endedMs, finalizeKey := Some(key)), Done)
  }

  predicate LastOne(s: Session, n: nat) { n in s.turns && forall k :: k in s.turns ==> k <= n }

  predicate LastAnsweredOne(s: Session, n: nat) {
    n in s.turns && !s.turns[n].skipped && forall k :: k in s.turns && !s.turns[k].skipped ==> k <= n
  }

  /** The session may end then: behind the turn's question, and the turn, if it was closed, was
      closed behind its question and within the limit. */
  predicate MayEnd(s: Session, turn: Turn, endedMs: int) {
    turn.asked < endedMs && (turn.ended.Some? ==> turn.asked < turn.ended.value <= s.maxSeconds * 1000)
  }

  /** What Finalize answers and leaves, column by column. */
  ghost predicate FinalizeAnswers(s: Session, s': Session, outcome: Outcome, key: nat, endedMs: int, recording: Id) {
    && (outcome != Done ==> s' == s)
    && (s.status == Finalized ==>
          && s' == s
          && (outcome == Done <==>
                endedMs <= s.maxSeconds * 1000 && s.finalizeKey == Some(key) && s.endedMs == endedMs && s.recording == Some(recording)))
    && (s.status != Finalized ==>
          (outcome == Done <==>
             && s.status in {Active, Finalizing} && s.recording == Some(recording) && endedMs <= s.maxSeconds * 1000
             && exists n :: LastAnsweredOne(s, n) && MayEnd(s, s.turns[n], endedMs)))
    && (outcome == Done && s.status != Finalized ==>
          && s.status in {Active, Finalizing} && s.recording == Some(recording) && endedMs <= s.maxSeconds * 1000
          && exists n :: LastAnsweredOne(s, n) && s.turns[n].asked < endedMs
               && s' == s.(status := Finalized, endedMs := endedMs, finalizeKey := Some(key),
                           turns := if s.turns[n].ended == None then s.turns[n := s.turns[n].(ended := Some(endedMs))] else s.turns))
  }

  lemma FinalizedAnswers(s: Session, key: nat, endedMs: int, recording: Id)
    ensures
      var (s', outcome) := FinalizedSession(s, key, endedMs, recording);
      FinalizeAnswers(s, s', outcome, key, endedMs, recording)
  {
    LastAnsweredIs(s);
  }

  lemma LastAnsweredIs(s: Session)
    ensures (set n | n in s.turns && !s.turns[n].skipped) != {} ==> LastAnsweredOne(s, LastAnswered(s))
    ensures forall n :: LastAnsweredOne(s, n) ==> n == LastAnswered(s) && (set n | n in s.turns && !s.turns[n].skipped) != {}
  {
    var answered := set n | n in s.turns && !s.turns[n].skipped;
    assert forall k :: k in s.turns && !s.turns[k].skipped ==> k in answered;
    assert LastAnswered(s) == Highest(answered);
  }

  // ---- Recording transactions on the session ------------------------------------------

  predicate AllAnswersReady(s: Session) {
    && (forall n :: n in s.turns && !s.turns[n].skipped ==> s.turns[n].status == TurnReady)
    && (exists n :: n in s.turns && !s.turns[n].skipped)
  }

  function Linked(s: Session, recording: Id): (Session, Outcome) {
    if s.status == Active && s.recording.None? && AllAnswersReady(s)
    then (s.(recording := Some(recording), status := Finalizing), Done)
    else (s, NotFound)
  }

  function DurationVerified(s: Session, actualMs: int): Session {
    var n := LastAnswered(s);
    if n !in s.turns then s
    else WithTurn(s, n, s.turns[n].(ended := Some(if s.turns[n].asked + 1 > actualMs then s.turns[n].asked + 1 else actualMs)))
  }

  /** The last answered turn ends at the measured duration, at least a millisecond after it was asked. */
  ghost predicate EndsLast(s: Session, s': Session, actualMs: int) {
    && ((forall n :: n in s.turns ==> s.turns[n].skipped) ==> s' == s)
    && forall n :: LastAnsweredOne(s, n) ==>
         s' == s.(turns := s.turns[n := s.turns[n].(ended := Some(if actualMs <= s.turns[n].asked then s.turns[n].asked + 1 else actualMs))])
  }

  lemma DurationEndsLast(s: Session, actualMs: int)
    requires 0 !in s.turns
    ensures EndsLast(s, DurationVerified(s, actualMs), actualMs)
  {
    var answered := set n | n in s.turns && !s.turns[n].skipped;
    assert LastAnswered(s) == Highest(answered);
    forall n | LastAnsweredOne(s, n) ensures n == LastAnswered(s) { assert n in answered; }
    if LastAnswered(s) in s.turns { assert LastAnswered(s) in answered; }
  }

  function WithAnswers(s: Session, answers: map<nat, string>): Session {
    s.(turns := map n | n in s.turns :: if n in answers then s.turns[n].(finalText := Some(answers[n])) else s.turns[n])
  }

  predicate Addressed(s: Session, n: nat) { n in s.turns && !s.turns[n].skipped }

  lemma WithNoAnswers(s: Session, answers: map<nat, string>)
    ensures WithAnswers(s, answers - answers.Keys) == s
  {
    assert WithAnswers(s, answers - answers.Keys).turns == s.turns;
  }

  lemma WithAllAnswers(s: Session, answers: map<nat, string>)
    ensures WithAnswers(s, answers - {}) == WithAnswers(s, answers)
  {
    assert answers - {} == answers;
  }

  lemma WithOneMoreAnswer(s: Session, answers: map<nat, string>, pending: set<nat>, n: nat)
    requires n in pending && pending <= answers.Keys
    ensures
      var partial := WithAnswers(s, answers - pending);
      && partial.recording == s.recording && (Addressed(partial, n) <==> Addressed(s, n))
      && (n in s.turns ==>
            WithTurn(partial, n, partial.turns[n].(finalText := Some(answers[n]))) == WithAnswers(s, answers - (pending - {n})))
  {
    if n in s.turns {
      var partial := WithAnswers(s, answers - pending);
      var left := WithTurn(partial, n, partial.turns[n].(finalText := Some(answers[n])));
      assert left.turns == WithAnswers(s, answers - (pending - {n})).turns;
    }
  }

  function SavedAnswers(s: Session, recording: Id, answers: map<nat, string>): (Session, Outcome) {
    if s.recording == Some(recording) && forall n :: n in answers ==> Addressed(s, n)
    then (WithAnswers(s, answers), Done)
    else (s, if answers.Keys == {} then Done else Failure)
  }

  /** Every answer reaches its turn, which was answered, or nothing is written. */
  predicate AnswersReach(s: Session, s': Session, outcome: Outcome, recording: Id, answers: map<nat, string>) {
    && (outcome == Done <==>
          answers == map[] || (s.recording == Some(recording) && forall n :: n in answers ==> n in s.turns && !s.turns[n].skipped))
    && (outcome != Done ==> s' == s)
    && (outcome == Done ==>
          && s' == s.(turns := s'.turns) && s'.turns.Keys == s.turns.Keys
          && forall n :: n in s.turns ==>
               s'.turns[n] == if n in answers then s.turns[n].(finalText := Some(answers[n])) else s.turns[n])
  }

  lemma SavedAnswersReach(s: Session, recording: Id, answers: map<nat, string>)
    ensures AnswersReach(s, SavedAnswers(s, recording, answers).0, SavedAnswers(s, recording, answers).1, recording, answers)
  {
    assert answers.Keys == {} <==> answers == map[];
    assert WithAnswers(s, answers).turns.Keys == s.turns.Keys;
  }

  function TimelineRow(n: nat, turn: Turn): InterviewTurn {
    InterviewTurn(n, turn.question, turn.skipped, turn.status, turn.provisional, turn.finalText)
  }

  /** The rows up to `n` in the order `LoadInterviewTimeline` returns them. */
  function RowsUpTo(turns: map<nat, Turn>, n: nat): seq<InterviewTurn> {
    if n == 0 then [] else RowsUpTo(turns, n - 1) + if n in turns then [TimelineRow(n, turns[n])] else []
  }

  function LoadedTimeline(s: Session): seq<InterviewTurn> { RowsUpTo(s.turns, LastSeq(s)) }

  // ---- Worker transactions ------------------------------------------------------------

  function SavedPreparation(t: Tables, held: Claimed, question: string, candidate: Id, now: int): (Session, Outcome) {
    var s := t.session;
    if !LeaseActive(t.jobs, held, now) then (s, LeaseGone)
    else if s.status != Preparing then (s, Done)
    else if candidate in s.candidates then (s, Failure)
    else (s.(candidates := s.candidates[candidate := Candidate(question, None)], status := Ready), Done)
  }

  /** `novel` is the outcome of comparing the question with every question already in the session. */
  function SavedAdaptive(t: Tables, held: Claimed, source: nat, question: string, novel: bool, candidate: Id, now: int): (Session, Outcome) {
    var s := t.session;
    if !LeaseActive(t.jobs, held, now) then (s, LeaseGone)
    else if s.status != Active || Unused(s) != {} || source < LastSeq(s) - 2 || !novel then (s, Done)
    else if candidate in s.candidates then (s, Failure)
    else (s.(candidates := s.candidates[candidate := Candidate(question, None)]), Done)
  }

  function SavedRefill(t: Tables, held: Claimed, question: string, novel: bool, candidate: Id, now: int): (Session, Outcome) {
    var s := t.session;
    if !LeaseActive(t.jobs, held, now) then (s, LeaseGone)
    else if s.status != Active || Unused(s) != {} then (s, Done)
    else if !novel || candidate in s.candidates then (s, Failure)
    else (s.(candidates := s.candidates[candidate := Candidate(question, None)]), Done)
  }

  /** The text the job continues with: a realtime result that got there first stays canonical. */
  function SavedBatch(t: Tables, held: Claimed, id: Id, text: string, now: int): (Session, Result<string, Outcome>) {
    var s, n, transcript := t.session, TurnOf(t.session, id), Truncate(TrimSpace(text), MAX_ANSWER_RUNES);
    if !LeaseActive(t.jobs, held, now) then (s, Err(LeaseGone))
    else if n !in s.turns then (s, Err(NotFound))
    else
      var turn := s.turns[n];
      if turn.audio.Some? && !turn.skipped && turn.origin != Some(TurnRealtime) then
        (WithTurn(s, n, turn.(provisional := Some(transcript), finalText := Some(transcript), status := TurnReady, origin := Some(TurnBatch))), Ok(transcript))
      else if turn.origin != Some(TurnRealtime) then (s, Err(NotFound))
      else (s, Ok(if turn.finalText.Some? then turn.finalText.value else if turn.provisional.Some? then turn.provisional.value else ""))
  }

  predicate TurnWithId(s: Session, id: Id, n: nat) {
    n in s.turns && s.turns[n].id == id && forall m :: m in s.turns && s.turns[m].id == id ==> m <= n
  }

  lemma TurnWithIdIs(s: Session, id: Id, n: nat)
    requires 0 !in s.turns
    ensures TurnWithId(s, id, n) <==> n in s.turns && TurnOf(s, id) == n
    ensures TurnOf(s, id) !in s.turns ==> forall m :: m in s.turns ==> s.turns[m].id != id
  {
    var ids := set m | m in s.turns && s.turns[m].id == id;
    assert forall m :: m in s.turns && s.turns[m].id == id ==> m in ids;
    assert TurnOf(s, id) == Highest(ids);
  }

  /** A batch text is trimmed and cut to 4000 characters and stored under a live lease; it never
      replaces a realtime text, with which the job goes on instead. */
  ghost predicate BatchAnswers(t: Tables, s': Session, canonical: Result<string, Outcome>, held: Claimed, id: Id, text: string, now: int) {
    var s, leased, trimmed := t.session,
      held.id in t.jobs && t.jobs[held.id].state == Running && t.jobs[held.id].leaseToken == Some(held.token)
      && t.jobs[held.id].leaseExpires.Some? && t.jobs[held.id].leaseExpires.value > now,
      TrimSpace(text);
    && (!leased ==> s' == s && canonical == Err(LeaseGone))
    && (leased && (forall n :: n in s.turns ==> s.turns[n].id != id) ==> s' == s && canonical == Err(NotFound))
    && forall n :: leased && TurnWithId(s, id, n) ==>
         var turn, stored := s.turns[n], if |trimmed| <= 4000 then trimmed else trimmed[..4000];
         if turn.origin == Some(TurnRealtime) then
           && s' == s
           && canonical == Ok(if turn.finalText.Some? then turn.finalText.value else if turn.provisional.Some? then turn.provisional.value else "")
         else if turn.audio == None || turn.skipped then s' == s && canonical == Err(NotFound)
         else
           && canonical == Ok(stored)
           && s' == s.(turns := s.turns[n := turn.(provisional := Some(stored), finalText := Some(stored), status := TurnReady,
                                                   origin := Some(TurnBatch))])
  }

  lemma SavedBatchAnswers(t: Tables, held: Claimed, id: Id, text: string, now: int)
    requires 0 !in t.session.turns
    ensures BatchAnswers(t, SavedBatch(t, held, id, text, now).0, SavedBatch(t, held, id, text, now).1, held, id, text, now)
  {
    TurnWithIdIs(t.session, id, TurnOf(t.session, id));
    forall n | TurnWithId(t.session, id, n) ensures n == TurnOf(t.session, id) { TurnWithIdIs(t.session, id, n); }
  }

  /** `FinalizeFailure` by the step of the job that failed for good. */
  function StepFailed(s: Session, kind: Kind, resource: Id): Session {
    match kind
    case InterviewProcess(PrepareStep) => if resource == s.id && s.status == Preparing then s.(status := FailedSession) else s
    case InterviewProcess(TurnStep) =>
      var n := TurnOf(s, resource);
      if n in s.turns && !s.turns[n].skipped && s.turns[n].status != TurnReady then WithTurn(s, n, s.turns[n].(status := TurnFailed)) else s
    case _ => s
  }

  function FailedClaim(t: Tables, held: Claimed, delay: int, now: int): Tables {
    Tables(if Holds(t.jobs, held) && IsTerminalFailure(held) then StepFailed(t.session, held.kind, held.resource) else t.session,
           FailedJobs(t.jobs, held, delay, now))
  }

  /** Only a failure for good reaches the session, and only the row of its own step. */
  ghost predicate FailureReaches(t: Tables, s': Session, held: Claimed) {
    var s, final := t.session,
      held.id in t.jobs && t.jobs[held.id].state == Running && t.jobs[held.id].leaseToken == Some(held.token)
      && held.maxAttempts <= held.attempts;
    && (!final || held.kind !in {InterviewProcess(PrepareStep), InterviewProcess(TurnStep)} ==> s' == s)
    && (final && held.kind == InterviewProcess(PrepareStep) ==>
          s' == if s.id == held.resource && s.status == Preparing then s.(status := FailedSession) else s)
    && (final && held.kind == InterviewProcess(TurnStep) ==>
          && ((forall n :: n in s.turns ==> s.turns[n].id != held.resource) ==> s' == s)
          && forall n :: TurnWithId(s, held.resource, n) ==>
               s' == if s.turns[n].skipped || s.turns[n].status == TurnReady then s
                     else s.(turns := s.turns[n := s.turns[n].(status := TurnFailed)]))
  }

  lemma FailedReaches(t: Tables, held: Claimed, delay: int, now: int)
    requires 0 !in t.session.turns
    ensures FailureReaches(t, FailedClaim(t, held, delay, now).session, held)
  {
    var s := t.session;
    TurnWithIdIs(s, held.resource, TurnOf(s, held.resource));
    forall n | TurnWithId(s, held.resource, n) ensures n == TurnOf(s, held.resource) { TurnWithIdIs(s, held.resource, n); }
  }

  // ---- Housekeeping -------------------------------------------------------------------

  /** Creating a new interview fails the owner's expired ones. */
  function Outdated(s: Session, now: int): Session {
    if s.status in {Preparing, Ready, Active} && s.expiresAt <= now then s.(status := FailedSession) else s
  }

  /** The sweep finalizes linked sessions nobody finalized. */
  function Swept(s: Session, now: int): Session {
    if s.status == Finalizing && s.expiresAt <= now && s.recording.Some? then s.(status := Finalized) else s
  }

  /** Afterwards no session that has expired is still open or waits to be finalized; one that has
      not expired stays as it is, and only the status changes. */
  lemma HousekeepingEnds(s: Session, now: int)
    ensures
      var o, f := Outdated(s, now), Swept(s, now);
      && o == s.(status := o.status) && f == s.(status := f.status) && (now < s.expiresAt ==> o == s && f == s)
      && (s.expiresAt <= now && s.status in {Preparing, Ready, Active} ==> o.status == FailedSession)
      && (s.expiresAt <= now && s.status == Finalizing && s.recording != None ==> f.status == Finalized)
      && (s.status !in {Preparing, Ready, Active} ==> o == s) && (s.status != Finalizing || s.recording == None ==> f == s)
  {
  }

  // ---- The repository -----------------------------------------------------------------

  class Repository {
    const queue: Store
    var session: Session

    constructor (id: Id, openingQuestion: string, maxSeconds: int, expiresAt: int)
      ensures fresh(queue)
      ensures View() == Tables(Session(id, Preparing, openingQuestion, maxSeconds, expiresAt, None, 0, None, map[], map[]), map[])
    {
      queue := new Store();
      session := Session(id, Preparing, openingQuestion, maxSeconds, expiresAt, None, 0, None, map[], map[]);
    }

    function View(): Tables
      reads this, queue
    {
      Tables(session, queue.jobs)
    }

    method UpdateTurn(n: nat, turn: Turn)
      modifies this
      ensures session == WithTurn(old(session), n, turn)
    {
      session := session.(turns := session.turns[n := turn]);
    }

    method Start(turn: Id, now: int) returns (outcome: Outcome)
      modifies this
      ensures (session, outcome) == Started(old(session), turn, now)
      ensures outcome == Done <==>
        || old(session).status == Active
        || (&& old(session).status == Ready && now < old(session).expiresAt && 1 !in old(session).turns
            && |set c | c in old(session).candidates && old(session).candidates[c].consumedBy == None| == 1)
      ensures session == if outcome == Done && old(session).status != Active
        then old(session).(status := Active, turns := old(session).turns[1 :=
               Turn(turn, old(session).openingQuestion, 0, None, false, None, None, None, None, None, Pending, None, None, None, None)])
        else old(session)
    {
      UnusedAre(session);
      if session.status == Active {
        return Done;
      }
      if session.status != Ready || session.expiresAt <= now {
        return NotReady;
      }
      var unused := set c | c in session.candidates && session.candidates[c].consumedBy.None?;
      if |unused| != 1 {
        return NotReady;
      }
      if 1 in session.turns {
        return Failure;
      }
      UpdateTurn(1, FreshTurn(turn, session.openingQuestion, 0, None, None));
      session := session.(status := Active);
      return Done;
    }

    /** Why the next question may not be asked yet. */
    method Refusal(input: AdvanceInput, now: int) returns (refusal: Option<Outcome>)
      ensures refusal == AdvanceRefusal(session, input, now)
    {
      if session.status != Active || session.expiresAt <= now {
        return Some(Conflict);
      }
      if input.atMs >= session.maxSeconds * 1000 {
        return Some(DurationLimit);
      }
      if session.recording.Some? {
        return Some(Conflict);
      }
      if session.turns.Keys == {} {
        return Some(Failure);
      }
      var n := LastSeq(session);
      var current := session.turns[n];
      if n != input.current || current.ended.Some? || current.skipped || input.atMs - current.asked < MIN_TURN_MS {
        return Some(Conflict);
      }
      if input.skip && (current.status != Pending || current.audio.Some? || !TextBlank(current)) {
        return Some(Conflict);
      }
      if input.candidate !in session.candidates || session.candidates[input.candidate].consumedBy.Some? {
        return Some(NotReady);
      }
      return None;
    }

    /** Closes or skips the current turn, consumes the candidate and asks its question. */
    method Ask(input: AdvanceInput, turn: Id)
      requires session.turns.Keys != {} && input.candidate in session.candidates
      modifies this
      ensures session == AdvancedSession(old(session), input, turn)
    {
      var n, candidate := LastSeq(session), session.candidates[input.candidate];
      UpdateTurn(n, session.turns[n].(ended := Some(input.atMs), skipped := input.skip));
      session := session.(candidates := session.candidates[input.candidate := candidate.(consumedBy := Some(n + 1))]);
      UpdateTurn(n + 1, FreshTurn(turn, candidate.question, input.atMs, Some(input.key), Some(input.candidate)));
    }

    /** The answer to a request that was committed before. */
    method Replay(input: AdvanceInput) returns (answer: Option<Outcome>)
      ensures
        var earlier := AdvancedBy(session, input.key);
        answer == if earlier == 0 then None else Some(if SameAdvance(session, earlier, input) then Done else Conflict)
    {
      var earlier := AdvancedBy(session, input.key);
      if earlier == 0 {
        return None;
      }
      if earlier != input.current + 1 || session.turns[earlier].asked != input.atMs
         || session.turns[earlier].candidate != Some(input.candidate) || session.turns[earlier - 1].skipped != input.skip {
        return Some(Conflict);
      }
      return Some(Done);
    }

    method Advance(input: AdvanceInput, turn: Id, job: Id, now: int) returns (outcome: Outcome)
      modifies this, queue
      ensures (View(), outcome) == Advanced(old(View()), input, turn, job, now)
      ensures AdvanceAnswers(old(View()), View(), outcome, input, turn, job, now)
    {
      AdvancedAnswers(View(), input, turn, job, now);
      var answer := Replay(input);
      if answer.Some? {
        return answer.value;
      }
      var refusal := Refusal(input, now);
      if refusal.Some? {
        return refusal.value;
      }
      outcome := Commit(input, turn, job, now);
    }

    /** Asks the next question, and for a refill when a skip left no candidate waiting. */
    method Commit(input: AdvanceInput, turn: Id, job: Id, now: int) returns (outcome: Outcome)
      requires session.turns.Keys != {} && input.candidate in session.candidates
      modifies this, queue
      ensures (View(), outcome) == AskedNext(old(View()), input, turn, job, now)
    {
      var before, n := session, LastSeq(session);
      Ask(input, turn);
      if input.skip && Unused(session) == {} {
        var error := queue.Enqueue(job, InterviewProcess(RefillStep), session.id, InterviewRefillKey(session.id, n + 1), 3, now);
        if error.Some? {
          session := before; // rollback
          return Failure;
        }
      }
      return Done;
    }

    method SkipTurn(key: nat, n: nat, atMs: int, now: int) returns (outcome: Outcome)
      modifies this
      ensures (session, outcome) == Skipped(old(session), key, n, atMs, now)
      ensures outcome == Done <==>
        && old(session).status == Active && now < old(session).expiresAt && old(session).recording == None && atMs <= old(session).maxSeconds * 1000
        && n in old(session).turns && (forall k :: k in old(session).turns ==> k <= n)
        && var was := old(session).turns[n];
        if was.skipped then was.skipKey == Some(key) && was.ended == Some(atMs)
        else
          && was.ended == None && was.asked < atMs && was.status == Pending && was.audio == None
          && (was.provisional.None? || TrimSpace(was.provisional.value) == "") && (was.finalText.None? || TrimSpace(was.finalText.value) == "")
          && forall k :: k in old(session).turns && k != n ==> old(session).turns[k].skipKey != Some(key)
      ensures session == if outcome == Done && !old(session).turns[n].skipped
        then old(session).(turns := old(session).turns[n := old(session).turns[n].(ended := Some(atMs), skipped := true, skipKey := Some(key))])
        else old(session)
    {
      if session.status != Active || session.expiresAt <= now || session.recording.Some? || atMs > session.maxSeconds * 1000 {
        return Conflict;
      }
      if session.turns.Keys == {} {
        return Failure;
      }
      if LastSeq(session) != n {
        return Conflict;
      }
      var turn := session.turns[n];
      if turn.skipped {
        if turn.skipKey != Some(key) || turn.ended != Some(atMs) {
          return Conflict;
        }
        return Done;
      }
      if turn.ended.Some? || atMs <= turn.asked || turn.status != Pending || turn.audio.Some? || !TextBlank(turn) {
        return Conflict;
      }
      if exists m :: m in session.turns && m != n && session.turns[m].skipKey == Some(key) {
        return Conflict;
      }
      UpdateTurn(n, turn.(ended := Some(atMs), skipped := true, skipKey := Some(key)));
      return Done;
    }

    method AttachAudio(key: nat, n: nat, asset: Id, usable: bool, job: Id, now: int) returns (outcome: Outcome)
      modifies this, queue
      ensures (View(), outcome) == Attached(old(View()), key, n, asset, usable, job, now)
      ensures AttachAnswers(old(View()), View(), outcome, key, n, asset, usable, job, now)
    {
      AttachedAnswers(View(), key, n, asset, usable, job, now);
      if session.status != Active && session.status != Finalizing && session.status != Finalized {
        return Conflict;
      }
      if n !in session.turns {
        return NotFound;
      }
      var turn := session.turns[n];
      if turn.skipped {
        return Conflict;
      }
      if turn.audio.Some? {
        return if turn.audio != Some(asset) || turn.audioKey != Some(key) then Conflict else Done;
      }
      if !usable {
        return NotFound;
      }
      if exists m :: m in session.turns && session.turns[m].audio == Some(asset) {
        return Conflict;
      }
      outcome := WriteTurn(n, WithAudio(turn, key, asset), job, now);
    }

    method WriteTurn(n: nat, turn: Turn, job: Id, now: int) returns (outcome: Outcome)
      modifies this, queue
      ensures (View(), outcome) == TurnWritten(old(View()), n, turn, job, now)
    {
      var before := session;
      UpdateTurn(n, turn);
      var error := queue.Enqueue(job, InterviewProcess(TurnStep), turn.id, InterviewTurnKey(turn.id), 3, now);
      if error.Some? {
        session := before; // rollback
        return Failure;
      }
      return Done;
    }

    method SaveTurnTranscript(key: nat, n: nat, text: string, job: Id, now: int) returns (outcome: Outcome)
      modifies this, queue
      ensures (View(), outcome) == SavedRealtime(old(View()), key, n, text, job, now)
      ensures RealtimeAnswers(old(View()), View(), outcome, key, n, text, job, now)
    {
      SavedRealtimeAnswers(View(), key, n, text, job, now);
      var transcript := Join(Fields(text));
      if transcript == "" || |transcript| > MAX_ANSWER_RUNES {
        return Invalid;
      }
      if n !in session.turns {
        return NotFound;
      }
      var turn := session.turns[n];
      if turn.skipped {
        return Conflict;
      }
      if turn.transcriptKey.Some? {
        return if turn.transcriptKey != Some(key) || turn.finalText != Some(transcript) then Conflict else Done;
      }
      if turn.origin.Some? {
        return Conflict;
      }
      if session.status != Active {
        return Conflict;
      }
      if exists m :: m in session.turns && session.turns[m].transcriptKey == Some(key) {
        return Conflict;
      }
      turn := turn.(provisional := Some(transcript), finalText := Some(transcript), status := TurnReady);
      turn := turn.(transcriptKey := Some(key), origin := Some(TurnRealtime));
      outcome := WriteTurn(n, turn, job, now);
    }

    method Cancel(now: int) returns (outcome: Outcome)
      modifies this, queue
      ensures (View(), outcome) == SessionCancelled(old(View()), now)
      ensures outcome == Done <==>
        old(session).status == CancelledSession || (old(session).status !in {Finalizing, Finalized} && old(session).recording == None)
      ensures session == if outcome == Done then old(session).(status := CancelledSession) else old(session)
      ensures JobsEnd(old(session), old(queue.jobs), queue.jobs, outcome == Done && old(session).status != CancelledSession, now)
    {
      CancelledJobsEnd(View(), now);
      if session.status == CancelledSession {
        return Done;
      }
      if session.status == Finalized || session.status == Finalizing || session.recording.Some? {
        return Conflict;
      }
      var retired := SessionJobs(session, queue.jobs);
      session := session.(status := CancelledSession);
      queue.jobs := map j | j in queue.jobs :: if j in retired then CancelRow(queue.jobs[j], now) else queue.jobs[j];
      return Done;
    }

    method Finalize(key: nat, endedMs: int, recording: Id) returns (outcome: Outcome)
      modifies this
      ensures (session, outcome) == FinalizedSession(old(session), key, endedMs, recording)
      ensures FinalizeAnswers(old(session), session, outcome, key, endedMs, recording)
    {
      FinalizedAnswers(session, key, endedMs, recording);
      if endedMs > session.maxSeconds * 1000 {
        return DurationLimit;
      }
      if session.status == Finalized {
        var matches := session.finalizeKey == Some(key) && session.endedMs == endedMs && session.recording == Some(recording);
        return if matches then Done else Conflict;
      }
      if (session.status != Active && session.status != Finalizing) || session.recording != Some(recording) {
        return Conflict;
      }
      var answered := set n | n in session.turns && !session.turns[n].skipped;
      if answered == {} {
        return Failure;
      }
      var n := Highest(answered);
      var last := session.turns[n];
      if endedMs <= last.asked {
        return Conflict;
      }
      var actual := endedMs;
      if last.ended.Some? {
        actual := last.ended.value;
        if actual <= last.asked || actual > session.maxSeconds * 1000 {
          return Conflict;
        }
      }
      if last.ended.None? {
        UpdateTurn(n, last.(ended := Some(actual)));
      }
      session := session.(status := Finalized, endedMs := endedMs, finalizeKey := Some(key));
      return Done;
    }

    method LinkInterview(recording: Id) returns (outcome: Outcome)
      modifies this
      ensures (session, outcome) == Linked(old(session), recording)
      ensures outcome == Done <==>
        && old(session).status == Active && old(session).recording == None
        && (forall n :: n in old(session).turns && !old(session).turns[n].skipped ==> old(session).turns[n].status == TurnReady)
        && (exists n :: n in old(session).turns && !old(session).turns[n].skipped)
      ensures session == if outcome == Done then old(session).(recording := Some(recording), status := Finalizing) else old(session)
    {
      if session.status != Active || session.recording.Some?
         || (exists n :: n in session.turns && !session.turns[n].skipped && session.turns[n].status != TurnReady)
         || !(exists n :: n in session.turns && !session.turns[n].skipped && session.turns[n].status == TurnReady) {
        return NotFound;
      }
      session := session.(recording := Some(recording), status := Finalizing);
      return Done;
    }

    method SaveTranscript(held: Claimed, id: Id, text: string, now: int) returns (canonical: Result<string, Outcome>)
      modifies this
      ensures (session, canonical) == SavedBatch(old(View()), held, id, text, now)
      ensures 0 !in old(session).turns ==> BatchAnswers(old(View()), session, canonical, held, id, text, now)
    {
      if 0 !in session.turns { SavedBatchAnswers(View(), held, id, text, now); }
      var transcript := TrimSpace(text);
      if |transcript| > MAX_ANSWER_RUNES {
        transcript := Truncate(transcript, MAX_ANSWER_RUNES);
      }
      if !LeaseActive(queue.jobs, held, now) {
        return Err(LeaseGone);
      }
      var n := TurnOf(session, id);
      if n in session.turns && session.turns[n].audio.Some? && !session.turns[n].skipped && session.turns[n].origin != Some(TurnRealtime) {
        var turn := session.turns[n].(provisional := Some(transcript), finalText := Some(transcript), status := TurnReady);
        UpdateTurn(n, turn.(origin := Some(TurnBatch)));
        return Ok(transcript);
      }
      if n !in session.turns {
        return Err(NotFound);
      }
      var turn := session.turns[n];
      if turn.origin != Some(TurnRealtime) {
        return Err(NotFound);
      }
      return Ok(if turn.finalText.Some? then turn.finalText.value else if turn.provisional.Some? then turn.provisional.value else "");
    }

    method SavePreparation(held: Claimed, question: string, candidate: Id, now: int) returns (outcome: Outcome)
      modifies this
      ensures (session, outcome) == SavedPreparation(old(View()), held, question, candidate, now)
      ensures session == old(session) || (
        && held.id in queue.jobs && queue.jobs[held.id].state == Running && queue.jobs[held.id].leaseToken == Some(held.token)
        && queue.jobs[held.id].leaseExpires.Some? && queue.jobs[held.id].leaseExpires.value > now
        && old(session).status == Preparing && candidate !in old(session).candidates && outcome == Done
        && session == old(session).(status := Ready, candidates := old(session).candidates[candidate := Candidate(question, None)]))
      ensures outcome == Done && old(session).status == Preparing ==> session.status == Ready && candidate in session.candidates
    {
      if !LeaseActive(queue.jobs, held, now) {
        return LeaseGone;
      }
      if session.status != Preparing {
        return Done;
      }
      if candidate in session.candidates {
        return Failure;
      }
      session := session.(candidates := session.candidates[candidate := Candidate(question, None)]);
      session := session.(status := Ready);
      return Done;
    }

    method SaveAdaptive(held: Claimed, source: nat, question: string, novel: bool, candidate: Id, now: int) returns (outcome: Outcome)
      modifies this
      ensures (session, outcome) == SavedAdaptive(old(View()), held, source, question, novel, candidate, now)
      ensures session == old(session) || (
        && held.id in queue.jobs && queue.jobs[held.id].state == Running && queue.jobs[held.id].leaseToken == Some(held.token)
        && queue.jobs[held.id].leaseExpires.Some? && queue.jobs[held.id].leaseExpires.value > now
        && old(session).status == Active && novel && candidate !in old(session).candidates && outcome == Done && source >= LastSeq(old(session)) - 2
        && (forall c :: c in old(session).candidates ==> old(session).candidates[c].consumedBy != None)
        && session == old(session).(candidates := old(session).candidates[candidate := Candidate(question, None)]))
      ensures
        && outcome == Done && old(session).status == Active && novel && source + 2 >= LastSeq(old(session))
        && (forall c :: c in old(session).candidates ==> old(session).candidates[c].consumedBy != None) ==>
          session.candidates == old(session).candidates[candidate := Candidate(question, None)]
    {
      if !LeaseActive(queue.jobs, held, now) {
        return LeaseGone;
      }
      if session.status != Active {
        return Done;
      }
      UnusedAre(session);
      if |Unused(session)| > 0 {
        return Done;
      }
      if source < LastSeq(session) - 2 {
        return Done;
      }
      if !novel {
        return Done;
      }
      if candidate in session.candidates {
        return Failure;
      }
      session := session.(candidates := session.candidates[candidate := Candidate(question, None)]);
      return Done;
    }

    method SaveRefill(held: Claimed, question: string, novel: bool, candidate: Id, now: int) returns (outcome: Outcome)
      modifies this
      ensures (session, outcome) == SavedRefill(old(View()), held, question, novel, candidate, now)
      ensures session == old(session) || (
        && held.id in queue.jobs && queue.jobs[held.id].state == Running && queue.jobs[held.id].leaseToken == Some(held.token)
        && queue.jobs[held.id].leaseExpires.Some? && queue.jobs[held.id].leaseExpires.value > now
        && old(session).status == Active && novel && candidate !in old(session).candidates && outcome == Done
        && (forall c :: c in old(session).candidates ==> old(session).candidates[c].consumedBy != None)
        && session == old(session).(candidates := old(session).candidates[candidate := Candidate(question, None)]))
      ensures
        && outcome == Done && old(session).status == Active
        && (forall c :: c in old(session).candidates ==> old(session).candidates[c].consumedBy != None) ==>
          session.candidates == old(session).candidates[candidate := Candidate(question, None)]
    {
      if !LeaseActive(queue.jobs, held, now) {
        return LeaseGone;
      }
      if session.status != Active {
        return Done;
      }
      UnusedAre(session);
      if |Unused(session)| > 0 {
        return Done;
      }
      if !novel || candidate in session.candidates {
        return Failure;
      }
      session := session.(candidates := session.candidates[candidate := Candidate(question, None)]);
      return Done;
    }

    method VerifyInterviewDuration(actualMs: int)
      modifies this
      ensures session == DurationVerified(old(session), actualMs)
      ensures 0 !in old(session).turns ==> EndsLast(old(session), session, actualMs)
    {
      if 0 !in session.turns { DurationEndsLast(session, actualMs); }
      var n := LastAnswered(session);
      if n in session.turns {
        var turn := session.turns[n];
        UpdateTurn(n, turn.(ended := Some(if turn.asked + 1 > actualMs then turn.asked + 1 else actualMs)));
      }
    }

    method UpdateAnswer(recording: Id, n: nat, answer: string) returns (updated: bool)
      modifies this
      ensures updated <==> old(session).recording == Some(recording) && Addressed(old(session), n)
      ensures session == if updated then WithTurn(old(session), n, old(session).turns[n].(finalText := Some(answer))) else old(session)
    {
      if session.recording != Some(recording) || n !in session.turns || session.turns[n].skipped {
        return false;
      }
      UpdateTurn(n, session.turns[n].(finalText := Some(answer)));
      return true;
    }

    /** One UPDATE per answer, in any order; the transaction rolls back at the first that misses. */
    method SaveInterviewAnswers(recording: Id, answers: map<nat, string>) returns (outcome: Outcome)
      modifies this
      ensures (session, outcome) == SavedAnswers(old(session), recording, answers)
      ensures AnswersReach(old(session), session, outcome, recording, answers)
    {
      SavedAnswersReach(session, recording, answers);
      var before := session;
      var pending := answers.Keys;
      WithNoAnswers(before, answers);
      while pending != {}
        invariant pending <= answers.Keys
        invariant pending != answers.Keys ==> before.recording == Some(recording)
        invariant forall n :: n in answers.Keys - pending ==> Addressed(before, n)
        invariant session == WithAnswers(before, answers - pending)
        decreases |pending|
      {
        var n :| n in pending;
        WithOneMoreAnswer(before, answers, pending, n);
        var updated := UpdateAnswer(recording, n, answers[n]);
        if !updated {
          session := before; // rollback
          return Failure;
        }
        pending := pending - {n};
      }
      WithAllAnswers(before, answers);
      return Done;
    }

    method Fail(held: Claimed, delay: int, now: int)
      modifies this, queue
      ensures View() == FailedClaim(old(View()), held, delay, now)
      ensures 0 !in old(session).turns ==> FailureReaches(old(View()), session, held)
    {
      if 0 !in session.turns { FailedReaches(View(), held, delay, now); }
      var terminal, error := queue.Fail(held, delay, now);
      if error.Some? || !terminal {
        return;
      }
      match held.kind {
        case InterviewProcess(PrepareStep) =>
          if held.resource == session.id && session.status == Preparing {
            session := session.(status := FailedSession);
          }
        case InterviewProcess(TurnStep) =>
          var n := TurnOf(session, held.resource);
          if n in session.turns && !session.turns[n].skipped && session.turns[n].status != TurnReady {
            UpdateTurn(n, session.turns[n].(status := TurnFailed));
          }
        case _ =>
      }
    }
  }
}
