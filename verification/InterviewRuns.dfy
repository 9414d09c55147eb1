/** All interleavings of an interview: its client, its background jobs, and the recording
    pipeline that composes its transcript once it is linked. */
module InterviewRuns {
  import opened Prelude
  import opened Text
  import opened Timeline
  import opened WorkQueue
  import opened Interview
  import opened InterviewShape
  import opened InterviewMoves

  /** Where a job handler stands (`internal/interview/processor.go`).  `active` is the session
      status the "turn" step read when it loaded the turn. */
  datatype Phase =
    | Fresh
    | Transcribing(n: nat, active: bool)
    | FollowingUp(n: nat)
    | Returned(ok: bool)

  datatype Worker = Worker(held: Claimed, phase: Phase)

  /** `composers` are recording workers between composing a timeline and saving its answers. */
  datatype World = World(now: int, next: nat, t: Tables, workers: map<nat, Worker>, composers: map<nat, Composed>)

  datatype Action =
    | Tick(elapsed: nat)
    | Start
    | Advance(input: AdvanceInput)
    | Skip(key: nat, n: nat, atMs: int)
    | Attach(key: nat, n: nat, asset: Id, usable: bool)
    | SaveRealtime(key: nat, n: nat, text: string)
    | Cancel
    | Finalize(key: nat, endedMs: int, recording: Id)
    | Outdate
    | Sweep
    | RequestRefill(suffix: nat)
    | Prune(victims: set<Id>, before: int)
    | Link(recording: Id)
    | VerifyDuration(actualMs: int)
    | Compose(reader: nat)
    | SaveAnswers(reader: nat)
    | Claim(worker: nat, job: Id, lease: nat)
    | Heartbeat(worker: nat, lease: nat)
    | Crash(worker: nat)
    | Prepare(worker: nat, question: string)
    | Refill(worker: nat, question: string, novel: bool)
    | Load(worker: nat)
    | SaveTranscript(worker: nat, text: string)
    | FollowUp(worker: nat, question: string, novel: bool)
    | Leave(worker: nat, ok: bool)
    | Finish(worker: nat, delay: nat)

  /** A session that was just created, with its preparation queued. */
  function Created(openingQuestion: string, maxSeconds: int, expiresAt: int): World {
    var job := NewJob(InterviewProcess(PrepareStep), Uuid(0), InterviewPrepareKey(Uuid(0)), 3, 0);
    World(0, 2, Tables(Session(Uuid(0), Preparing, openingQuestion, maxSeconds, expiresAt, None, 0, None, map[], map[]), map[Uuid(1) := job]),
          map[], map[])
  }

  predicate IsWorkerStep(a: Action) {
    || a.Heartbeat? || a.Crash? || a.Prepare? || a.Refill? || a.Load? || a.SaveTranscript? || a.FollowUp? || a.Leave? || a.Finish?
  }

  // ---- The turn handler ---------------------------------------------------------------

  /** `LoadTurn`: a skipped or missing turn needs no work; a ready one only a follow-up. */
  function Loaded(s: Session, worker: Worker): Worker {
    var n := TurnOf(s, worker.held.resource);
    if worker.phase != Fresh || worker.held.kind != InterviewProcess(TurnStep) then worker
    else if n !in s.turns || s.turns[n].skipped then worker.(phase := Returned(true))
    else if s.turns[n].status != TurnReady then
      worker.(phase := if s.turns[n].audio.None? then Returned(false) else Transcribing(n, s.status == Active))
    else worker.(phase := AfterTranscript(n, if s.turns[n].finalText.Some? then s.turns[n].finalText.value else "", s.status == Active))
  }

  function AfterTranscript(n: nat, text: string, active: bool): Phase {
    if TrimSpace(text) == "" || !active then Returned(true) else FollowingUp(n)
  }

  function Transcribed(t: Tables, worker: Worker, text: string, now: int): (Session, Worker) {
    if !worker.phase.Transcribing? then (t.session, worker)
    else
      var (session, canonical) := SavedBatch(t, worker.held, worker.held.resource, text, now);
      match canonical
      case Ok(transcript) => (session, worker.(phase := AfterTranscript(worker.phase.n, transcript, worker.phase.active)))
      case Err(_) => (session, worker.(phase := Returned(false)))
  }

  /** A skipped or missing turn ends the job well, one without audio badly; one with audio is
      transcribed, and one that is ready is followed up while the interview is active. */
  ghost predicate LoadGoesOn(s: Session, id: Id, phase: Phase) {
    && ((forall n :: n in s.turns ==> s.turns[n].id != id) ==> phase == Returned(true))
    && forall n :: TurnWithId(s, id, n) ==>
         var turn := s.turns[n];
         phase ==
           if turn.skipped then Returned(true)
           else if turn.status != TurnReady then if turn.audio == None then Returned(false) else Transcribing(n, s.status == Active)
           else if s.status == Active && turn.finalText.Some? && TrimSpace(turn.finalText.value) != "" then FollowingUp(n)
           else Returned(true)
  }

  /** A handler that drives the "turn" step against the repository. */
  class TurnHandler {
    const repository: Repository
    const held: Claimed
    var phase: Phase

    constructor (repository: Repository, held: Claimed)
      ensures this.repository == repository && View() == Worker(held, Fresh)
    {
      this.repository, this.held, phase := repository, held, Fresh;
    }

    function View(): Worker
      reads this
    {
      Worker(held, phase)
    }

    method Load()
      requires phase == Fresh && held.kind == InterviewProcess(TurnStep)
      modifies this
      ensures View() == Loaded(repository.session, old(View()))
      ensures 0 !in repository.session.turns ==> LoadGoesOn(repository.session, held.resource, phase)
    {
      if 0 !in repository.session.turns {
        TurnWithIdIs(repository.session, held.resource, TurnOf(repository.session, held.resource));
        forall n | TurnWithId(repository.session, held.resource, n) ensures n == TurnOf(repository.session, held.resource) {
          TurnWithIdIs(repository.session, held.resource, n);
        }
      }
      var s := repository.session;
      var n := TurnOf(s, held.resource);
      if n !in s.turns || s.turns[n].skipped {
        phase := Returned(true);
        return;
      }
      var turn := s.turns[n];
      if turn.status != TurnReady && turn.audio.None? {
        phase := Returned(false);
        return;
      }
      if turn.status != TurnReady {
        phase := Transcribing(n, s.status == Active);
        return;
      }
      var transcript := if turn.finalText.Some? then turn.finalText.value else "";
      phase := if TrimSpace(transcript) == "" || s.status != Active then Returned(true) else FollowingUp(n);
    }

    method SaveTranscript(text: string, now: int)
      requires phase.Transcribing?
      modifies this, repository
      ensures (repository.session, View()) == Transcribed(old(repository.View()), old(View()), text, now)
      ensures
        var canonical := SavedBatch(old(repository.View()), held, held.resource, text, now).1;
        if canonical.Err? then phase == Returned(false) && repository.session == old(repository.session)
        else if Blank(canonical.value) || !old(phase).active then phase == Returned(true)
        else phase == FollowingUp(old(phase).n)
    {
      var result := SavedBatch(repository.View(), held, held.resource, text, now).1;
      if result.Ok? { TrimBlank(result.value); }
      var n, active := phase.n, phase.active;
      var canonical := repository.SaveTranscript(held, held.resource, text, now);
      if canonical.Err? {
        phase := Returned(false);
        return;
      }
      phase := if TrimSpace(canonical.value) == "" || !active then Returned(true) else FollowingUp(n);
    }
  }

  // ---- Steps --------------------------------------------------------------------------

  function Ending(outcome: Outcome): Phase { Returned(outcome == Done) }

  function WithSession(w: World, s: Session): World { w.(t := w.t.(session := s)) }

  function WithJobs(w: World, jobs: Jobs): World { w.(t := w.t.(jobs := jobs)) }

  /** Every client request that needs identifiers draws two: one for a row, one for a job. */
  function ClientStep(w: World, a: Action): World
    requires !IsWorkerStep(a)
  {
    var s, row, job, drawn := w.t.session, Uuid(w.next), Uuid(w.next + 1), w.(next := w.next + 2);
    match a
    case Tick(elapsed) => w.(now := w.now + elapsed)
    case Start => WithSession(drawn, Started(s, row, w.now).0)
    case Advance(input) => drawn.(t := Advanced(w.t, input, row, job, w.now).0)
    case Skip(key, n, atMs) => WithSession(w, Skipped(s, key, n, atMs, w.now).0)
    case Attach(key, n, asset, usable) => drawn.(t := Attached(w.t, key, n, asset, usable, job, w.now).0)
    case SaveRealtime(key, n, text) => drawn.(t := SavedRealtime(w.t, key, n, text, job, w.now).0)
    case Cancel => w.(t := SessionCancelled(w.t, w.now).0)
    case Finalize(key, endedMs, recording) => WithSession(w, FinalizedSession(s, key, endedMs, recording).0)
    case Outdate => WithSession(w, Outdated(s, w.now))
    case Sweep => WithSession(w, Swept(s, w.now))
    case RequestRefill(suffix) =>
      (match Enqueued(w.t.jobs, job, NewJob(InterviewProcess(RefillStep), s.id, InterviewRefillKey(s.id, suffix), 3, w.now))
       case Ok(jobs) => WithJobs(drawn, jobs)
       case Err(_) => w)
    case Prune(victims, before) => if Prunable(w.t.jobs, victims, before) then WithJobs(w, w.t.jobs - victims) else w
    case Link(recording) => WithSession(w, Linked(s, recording).0)
    case VerifyDuration(actualMs) => if s.recording.Some? then WithSession(w, DurationVerified(s, actualMs)) else w
    case Compose(reader) =>
      if s.recording.Some? && Composition(LoadedTimeline(s)).Ok?
      then w.(composers := w.composers[reader := Composition(LoadedTimeline(s)).value]) else w
    case SaveAnswers(reader) =>
      if reader in w.composers && s.recording.Some?
      then WithSession(w, SavedAnswers(s, s.recording.value, w.composers[reader].answers).0) else w
    case Claim(worker, j, lease) =>
      if worker !in w.workers && j in w.t.jobs && Claimable(w.t.jobs[j], w.now) then
        var claimed := ClaimRow(w.t.jobs[j], w.next, lease, w.now);
        WithJobs(w, w.t.jobs[j := claimed]).(next := w.next + 1, workers := w.workers[worker := Worker(Snapshot(j, claimed, w.next), Fresh)])
      else w
  }

  function WorkerStep(w: World, i: nat, a: Action): World
    requires IsWorkerStep(a) && i in w.workers
  {
    var s, worker, row, drawn := w.t.session, w.workers[i], Uuid(w.next), w.(next := w.next + 1);
    match a
    case Heartbeat(_, lease) => WithJobs(w, Heartbeaten(w.t.jobs, worker.held, lease, w.now))
    case Crash(_) => w.(workers := w.workers - {i})
    case Prepare(_, question) =>
      if worker.phase == Fresh && worker.held.kind == InterviewProcess(PrepareStep) then
        var (after, outcome) := SavedPreparation(w.t, worker.held, question, row, w.now);
        WithSession(drawn, after).(workers := w.workers[i := worker.(phase := Ending(outcome))])
      else w
    case Refill(_, question, novel) =>
      if worker.phase == Fresh && worker.held.kind == InterviewProcess(RefillStep) then
        var (after, outcome) := SavedRefill(w.t, worker.held, question, novel, row, w.now);
        WithSession(drawn, after).(workers := w.workers[i := worker.(phase := Ending(outcome))])
      else w
    case Load(_) => w.(workers := w.workers[i := Loaded(s, worker)])
    case SaveTranscript(_, text) =>
      var (after, moved) := Transcribed(w.t, worker, text, w.now);
      WithSession(w, after).(workers := w.workers[i := moved])
    case FollowUp(_, question, novel) =>
      if worker.phase.FollowingUp? then
        var (after, outcome) := SavedAdaptive(w.t, worker.held, worker.phase.n, question, novel, row, w.now);
        WithSession(drawn, after).(workers := w.workers[i := worker.(phase := Ending(outcome))])
      else w
    case Leave(_, ok) => w.(workers := w.workers[i := worker.(phase := Returned(ok))])
    case Finish(_, delay) =>
      if worker.phase.Returned? then
        var t := if worker.phase.ok then w.t.(jobs := Completed(w.t.jobs, worker.held, w.now)) else FailedClaim(w.t, worker.held, delay, w.now);
        w.(t := t, workers := w.workers - {i})
      else w
  }

  function Step(w: World, a: Action): World {
    if !IsWorkerStep(a) then ClientStep(w, a) else if a.worker in w.workers then WorkerStep(w, a.worker, a) else w
  }

  function Run(w: World, actions: seq<Action>): World
    decreases |actions|
  {
    if actions == [] then w else Run(Step(w, actions[0]), actions[1..])
  }

  // ---- The session keeps its shape ----------------------------------------------------

  ghost predicate SessionInv(w: World) { SessionOk(w.t.session) && IdsKnown(w.t.session, w.next) }

  lemma NewIdIsNew(s: Session, next: nat)
    requires IdsKnown(s, next)
    ensures forall n :: n in s.turns ==> s.turns[n].id != Uuid(next)
    ensures Uuid(next) !in s.candidates
  {
  }

  lemma CancelStep(w: World)
    ensures
      var s, s' := w.t.session, ClientStep(w, Cancel).t.session;
      s' == s || (s.recording.None? && s' == s.(status := CancelledSession))
  {
  }

  lemma OutdateStep(w: World)
    ensures ClientStep(w, Outdate).t.session == Outdated(w.t.session, w.now)
  {
  }

  lemma SweepStep(w: World)
    ensures ClientStep(w, Sweep).t.session == Swept(w.t.session, w.now)
  {
  }

  lemma LinkStep(w: World, a: Action)
    requires a.Link?
    ensures ClientStep(w, a).t.session == Linked(w.t.session, a.recording).0
  {
  }

  lemma CancelKeepsSession(w: World)
    requires SessionOk(w.t.session)
    ensures SessionOk(ClientStep(w, Cancel).t.session)
  {
    CancelStep(w);
    StatusKeeps(w.t.session, ClientStep(w, Cancel).t.session);
  }

  lemma OutdateKeepsSession(w: World)
    requires SessionOk(w.t.session)
    ensures SessionOk(ClientStep(w, Outdate).t.session)
  {
    OutdateStep(w);
    StatusKeeps(w.t.session, Outdated(w.t.session, w.now));
  }

  lemma SweepKeepsSession(w: World)
    requires SessionOk(w.t.session)
    ensures SessionOk(ClientStep(w, Sweep).t.session)
  {
    SweepStep(w);
    StatusKeeps(w.t.session, Swept(w.t.session, w.now));
  }

  lemma LinkKeepsSession(w: World, a: Action)
    requires SessionOk(w.t.session) && a.Link?
    ensures SessionOk(ClientStep(w, a).t.session)
  {
    LinkStep(w, a);
    StatusKeeps(w.t.session, Linked(w.t.session, a.recording).0);
  }

  lemma StatusKeepsSession(w: World, a: Action)
    requires SessionOk(w.t.session) && ChangesStatusOnly(a)
    ensures SessionOk(ClientStep(w, a).t.session)
  {
    if a.Cancel? {
      CancelKeepsSession(w);
    } else if a.Outdate? {
      OutdateKeepsSession(w);
    } else if a.Sweep? {
      SweepKeepsSession(w);
    } else {
      LinkKeepsSession(w, a);
    }
  }

  predicate IsTurnRequest(a: Action) { a.Start? || a.Advance? || a.Skip? || a.Attach? || a.SaveRealtime? }

  lemma AdvanceStep(w: World, a: Action)
    requires a.Advance?
    ensures ClientStep(w, a).t == Advanced(w.t, a.input, Uuid(w.next), Uuid(w.next + 1), w.now).0
    ensures ClientStep(w, a).next == w.next + 2
  {
  }

  lemma AttachStep(w: World, a: Action)
    requires a.Attach?
    ensures ClientStep(w, a).t == Attached(w.t, a.key, a.n, a.asset, a.usable, Uuid(w.next + 1), w.now).0
  {
  }

  lemma RealtimeStep(w: World, a: Action)
    requires a.SaveRealtime?
    ensures ClientStep(w, a).t == SavedRealtime(w.t, a.key, a.n, a.text, Uuid(w.next + 1), w.now).0
  {
  }

  lemma StartKeepsSession(w: World)
    requires SessionInv(w)
    ensures SessionOk(ClientStep(w, Start).t.session)
  {
    StartKeeps(w.t.session, Uuid(w.next), w.now);
  }

  lemma AdvanceKeepsSession(w: World, a: Action)
    requires SessionInv(w) && a.Advance?
    ensures SessionOk(ClientStep(w, a).t.session)
  {
    NewIdIsNew(w.t.session, w.next);
    AdvanceKeeps(w.t, a.input, Uuid(w.next), Uuid(w.next + 1), w.now);
    AdvanceStep(w, a);
  }

  lemma SkipKeepsSession(w: World, a: Action)
    requires SessionInv(w) && a.Skip?
    ensures SessionOk(ClientStep(w, a).t.session)
  {
    SkipKeeps(w.t.session, a.key, a.n, a.atMs, w.now);
  }

  lemma AttachKeepsSession(w: World, a: Action)
    requires SessionInv(w) && a.Attach?
    ensures SessionOk(ClientStep(w, a).t.session)
  {
    AttachKeeps(w.t, a.key, a.n, a.asset, a.usable, Uuid(w.next + 1), w.now);
    AttachStep(w, a);
  }

  lemma RealtimeKeepsSession(w: World, a: Action)
    requires SessionInv(w) && a.SaveRealtime?
    ensures SessionOk(ClientStep(w, a).t.session)
  {
    RealtimeKeeps(w.t, a.key, a.n, a.text, Uuid(w.next + 1), w.now);
    RealtimeStep(w, a);
  }

  lemma TurnRequestKeepsSession(w: World, a: Action)
    requires SessionInv(w) && IsTurnRequest(a)
    ensures SessionOk(ClientStep(w, a).t.session)
  {
    if a.Start? {
      StartKeepsSession(w);
    } else if a.Advance? {
      AdvanceKeepsSession(w, a);
    } else if a.Skip? {
      SkipKeepsSession(w, a);
    } else if a.Attach? {
      AttachKeepsSession(w, a);
    } else {
      RealtimeKeepsSession(w, a);
    }
  }

  lemma FinalizeStep(w: World, a: Action)
    requires a.Finalize?
    ensures ClientStep(w, a).t.session == FinalizedSession(w.t.session, a.key, a.endedMs, a.recording).0
  {
  }

  lemma DurationStep(w: World, a: Action)
    requires a.VerifyDuration?
    ensures ClientStep(w, a).t.session == if w.t.session.recording.Some? then DurationVerified(w.t.session, a.actualMs) else w.t.session
  {
  }

  lemma AnswersStep(w: World, a: Action)
    requires a.SaveAnswers?
    ensures
      var s := w.t.session;
      ClientStep(w, a).t.session
      == if a.reader in w.composers && s.recording.Some? then SavedAnswers(s, s.recording.value, w.composers[a.reader].answers).0 else s
  {
  }

  lemma FinalizeKeepsSession(w: World, a: Action)
    requires SessionOk(w.t.session) && a.Finalize?
    ensures SessionOk(ClientStep(w, a).t.session)
  {
    FinalizeStep(w, a);
    FinalizeKeeps(w.t.session, a.key, a.endedMs, a.recording);
  }

  lemma DurationKeepsSession(w: World, a: Action)
    requires SessionOk(w.t.session) && a.VerifyDuration?
    ensures SessionOk(ClientStep(w, a).t.session)
  {
    DurationStep(w, a);
    if w.t.session.recording.Some? { DurationKeeps(w.t.session, a.actualMs); }
  }

  lemma AnswersKeepSession(w: World, a: Action)
    requires SessionOk(w.t.session) && a.SaveAnswers?
    ensures SessionOk(ClientStep(w, a).t.session)
  {
    var s := w.t.session;
    AnswersStep(w, a);
    if a.reader in w.composers && s.recording.Some? { AnswersKeep(s, s.recording.value, w.composers[a.reader].answers); }
  }

  lemma ClosingKeepsSession(w: World, a: Action)
    requires SessionOk(w.t.session) && (a.Finalize? || a.VerifyDuration? || a.SaveAnswers?)
    ensures SessionOk(ClientStep(w, a).t.session)
  {
    if a.Finalize? {
      FinalizeKeepsSession(w, a);
    } else if a.VerifyDuration? {
      DurationKeepsSession(w, a);
    } else {
      AnswersKeepSession(w, a);
    }
  }

  lemma PrepareCases(w: World, i: nat, a: Action)
    requires a.Prepare? && i in w.workers
    ensures WorkerStep(w, i, a).t.session in {w.t.session, SavedPreparation(w.t, w.workers[i].held, a.question, Uuid(w.next), w.now).0}
  {
  }

  lemma RefillCases(w: World, i: nat, a: Action)
    requires a.Refill? && i in w.workers
    ensures WorkerStep(w, i, a).t.session in {w.t.session, SavedRefill(w.t, w.workers[i].held, a.question, a.novel, Uuid(w.next), w.now).0}
  {
  }

  lemma FollowUpStep(w: World, i: nat, a: Action)
    requires a.FollowUp? && i in w.workers
    ensures
      var worker := w.workers[i];
      WorkerStep(w, i, a).t.session
      == if worker.phase.FollowingUp?
         then SavedAdaptive(w.t, worker.held, worker.phase.n, a.question, a.novel, Uuid(w.next), w.now).0 else w.t.session
  {
  }

  lemma FinishCases(w: World, i: nat, a: Action)
    requires a.Finish? && i in w.workers
    ensures
      var held, w' := w.workers[i].held, WorkerStep(w, i, a);
      && w'.t.session in {w.t.session, StepFailed(w.t.session, held.kind, held.resource)}
      && w'.next == w.next
  {
  }

  lemma QuestionKeepsSession(w: World, i: nat, a: Action)
    requires SessionOk(w.t.session) && (a.Prepare? || a.Refill?) && i in w.workers
    ensures SessionOk(WorkerStep(w, i, a).t.session)
  {
    var held := w.workers[i].held;
    if a.Prepare? {
      PrepareCases(w, i, a);
      PreparationKeeps(w.t, held, a.question, Uuid(w.next), w.now);
    } else {
      RefillCases(w, i, a);
      RefillKeeps(w.t, held, a.question, a.novel, Uuid(w.next), w.now);
    }
  }

  lemma FollowUpKeepsSession(w: World, i: nat, a: Action)
    requires SessionOk(w.t.session) && a.FollowUp? && i in w.workers
    ensures SessionOk(WorkerStep(w, i, a).t.session)
  {
    FollowUpStep(w, i, a);
    if w.workers[i].phase.FollowingUp? {
      AdaptiveKeeps(w.t, w.workers[i].held, w.workers[i].phase.n, a.question, a.novel, Uuid(w.next), w.now);
    }
  }

  lemma ResultKeepsSession(w: World, i: nat, a: Action)
    requires SessionOk(w.t.session) && (a.SaveTranscript? || a.Finish?) && i in w.workers
    ensures SessionOk(WorkerStep(w, i, a).t.session)
  {
    var held := w.workers[i].held;
    if a.SaveTranscript? {
      BatchStep(w, i, a);
      BatchKeeps(w.t, held, held.resource, a.text, w.now);
    } else {
      FinishCases(w, i, a);
      StepFailedKeeps(w.t.session, held.kind, held.resource);
    }
  }

  lemma HandlerKeepsSession(w: World, i: nat, a: Action)
    requires SessionOk(w.t.session) && IsWorkerStep(a) && !IsBookkeeping(a) && i in w.workers
    ensures SessionOk(WorkerStep(w, i, a).t.session)
  {
    if a.Prepare? || a.Refill? {
      QuestionKeepsSession(w, i, a);
    } else if a.FollowUp? {
      FollowUpKeepsSession(w, i, a);
    } else {
      ResultKeepsSession(w, i, a);
    }
  }

  predicate IsBookkeeping(a: Action) {
    || a.Tick? || a.RequestRefill? || a.Prune? || a.Compose? || a.Claim? || a.Heartbeat? || a.Crash? || a.Load? || a.Leave?
  }

  predicate ChangesStatusOnly(a: Action) { a.Cancel? || a.Outdate? || a.Sweep? || a.Link? }

  lemma StatusOnlySettles(w: World, a: Action)
    requires ChangesStatusOnly(a)
    ensures Settles(w.t.session, ClientStep(w, a).t.session, w.next, None)
  {
    SameRowsSettle(w.t.session, ClientStep(w, a).t.session, w.next);
  }

  lemma ClientBookkeepingKeeps(w: World, a: Action)
    requires a.Tick? || a.RequestRefill? || a.Prune? || a.Compose? || a.Claim?
    ensures ClientStep(w, a).t.session == w.t.session
  {
  }

  lemma HandlerBookkeepingKeeps(w: World, i: nat, a: Action)
    requires (a.Heartbeat? || a.Crash? || a.Load? || a.Leave?) && i in w.workers
    ensures WorkerStep(w, i, a).t.session == w.t.session
  {
  }

  lemma BookkeepingKeeps(w: World, a: Action)
    requires IsBookkeeping(a)
    ensures Step(w, a).t.session == w.t.session
  {
    if !IsWorkerStep(a) {
      ClientBookkeepingKeeps(w, a);
    } else if a.worker in w.workers {
      HandlerBookkeepingKeeps(w, a.worker, a);
    }
  }

  lemma SkipSettles(w: World, a: Action)
    requires a.Skip?
    ensures Settles(w.t.session, ClientStep(w, a).t.session, w.next, None)
  {
    SkipMoves(w.t.session, a.key, a.n, a.atMs, w.now, w.next);
  }

  lemma AttachSettles(w: World, a: Action)
    requires a.Attach?
    ensures Settles(w.t.session, ClientStep(w, a).t.session, w.next, None)
  {
    AttachMoves(w.t, a.key, a.n, a.asset, a.usable, Uuid(w.next + 1), w.now, w.next);
    AttachStep(w, a);
  }

  lemma RealtimeSettles(w: World, a: Action)
    requires a.SaveRealtime?
    ensures Settles(w.t.session, ClientStep(w, a).t.session, w.next, None)
  {
    RealtimeMoves(w.t, a.key, a.n, a.text, Uuid(w.next + 1), w.now, w.next);
    RealtimeStep(w, a);
  }

  lemma TurnRequestSettles(w: World, a: Action)
    requires a.Skip? || a.Attach? || a.SaveRealtime?
    ensures Settles(w.t.session, ClientStep(w, a).t.session, w.next, None)
  {
    if a.Skip? {
      SkipSettles(w, a);
    } else if a.Attach? {
      AttachSettles(w, a);
    } else {
      RealtimeSettles(w, a);
    }
  }

  lemma FinalizeSettles(w: World, a: Action)
    requires a.Finalize?
    ensures Settles(w.t.session, ClientStep(w, a).t.session, w.next, None)
  {
    FinalizeStep(w, a);
    FinalizeMoves(w.t.session, a.key, a.endedMs, a.recording, w.next);
  }

  lemma DurationSettles(w: World, a: Action)
    requires a.VerifyDuration?
    ensures Settles(w.t.session, ClientStep(w, a).t.session, w.next, None)
  {
    DurationStep(w, a);
    SameRowsSettle(w.t.session, w.t.session, w.next);
    DurationMoves(w.t.session, a.actualMs, w.next);
  }

  lemma AnswersSettle(w: World, a: Action)
    requires a.SaveAnswers?
    ensures Settles(w.t.session, ClientStep(w, a).t.session, w.next, None)
  {
    var s := w.t.session;
    AnswersStep(w, a);
    SameRowsSettle(s, s, w.next);
    if a.reader in w.composers && s.recording.Some? { AnswersMove(s, s.recording.value, w.composers[a.reader].answers, w.next); }
  }

  lemma ClosingSettles(w: World, a: Action)
    requires a.Finalize? || a.VerifyDuration? || a.SaveAnswers?
    ensures Settles(w.t.session, ClientStep(w, a).t.session, w.next, None)
  {
    if a.Finalize? {
      FinalizeSettles(w, a);
    } else if a.VerifyDuration? {
      DurationSettles(w, a);
    } else {
      AnswersSettle(w, a);
    }
  }

  lemma BatchStep(w: World, i: nat, a: Action)
    requires a.SaveTranscript? && i in w.workers
    ensures
      var held, w' := w.workers[i].held, WorkerStep(w, i, a);
      w'.next == w.next && (w'.t.session == w.t.session || w'.t.session == SavedBatch(w.t, held, held.resource, a.text, w.now).0)
  {
  }

  lemma BatchMovesSession(w: World, i: nat, a: Action)
    requires a.SaveTranscript? && i in w.workers && 0 !in w.t.session.turns
    ensures StepMoves(w, WorkerStep(w, i, a), Some(w.workers[i].held.resource))
  {
    var held := w.workers[i].held;
    BatchStep(w, i, a);
    SameRowsSettle(w.t.session, w.t.session, w.next);
    BatchMoves(w.t, held, held.resource, a.text, w.now, w.next);
  }

  lemma FinishMovesSession(w: World, i: nat, a: Action)
    requires a.Finish? && i in w.workers
    ensures StepMoves(w, WorkerStep(w, i, a), None)
  {
    FinishCases(w, i, a);
    SameRowsSettle(w.t.session, w.t.session, w.next);
    StepFailedMoves(w.t.session, w.workers[i].held.kind, w.workers[i].held.resource, w.next);
  }

  lemma QuestionMovesSession(w: World, i: nat, a: Action)
    requires (a.Prepare? || a.Refill? || a.FollowUp?) && i in w.workers
    ensures StepMoves(w, WorkerStep(w, i, a), None)
  {
    CandidateMoves(w.t.session, WorkerStep(w, i, a).t.session, w.next);
  }

  lemma StartMovesSession(w: World)
    requires SessionOk(w.t.session)
    ensures StepMoves(w, ClientStep(w, Start), None)
  {
    StartMoves(w.t.session, w.next, w.now);
  }

  lemma AdvanceMovesSession(w: World, input: AdvanceInput)
    requires SessionOk(w.t.session)
    ensures StepMoves(w, ClientStep(w, Advance(input)), None)
  {
    AdvanceStep(w, Advance(input));
    AdvanceMoves(w.t, input, w.next, Uuid(w.next + 1), w.now);
  }

  function BatchTurn(w: World, a: Action): Option<Id> {
    if a.SaveTranscript? && a.worker in w.workers then Some(w.workers[a.worker].held.resource) else None
  }

  ghost predicate StepMoves(w: World, w': World, batch: Option<Id>) {
    && SessionMoves(w.t.session, w'.t.session, w.next, batch)
    && (w'.next == w.next ==> RowsKept(w.t.session, w'.t.session))
  }

  lemma UnchangedMoves(w: World, w': World)
    requires w'.t.session == w.t.session
    ensures StepMoves(w, w', None)
  {
    SameRowsSettle(w.t.session, w'.t.session, w.next);
  }

  lemma StepMovesSession(w: World, a: Action)
    requires SessionOk(w.t.session)
    ensures StepMoves(w, Step(w, a), BatchTurn(w, a))
  {
    if IsBookkeeping(a) {
      BookkeepingKeeps(w, a);
      UnchangedMoves(w, Step(w, a));
    } else if IsWorkerStep(a) {
      if a.worker !in w.workers {
        UnchangedMoves(w, w);
      } else if a.SaveTranscript? {
        BatchMovesSession(w, a.worker, a);
      } else if a.Finish? {
        FinishMovesSession(w, a.worker, a);
      } else {
        QuestionMovesSession(w, a.worker, a);
      }
    } else if a.Start? {
      StartMovesSession(w);
    } else if a.Advance? {
      AdvanceMovesSession(w, a.input);
    } else if ChangesStatusOnly(a) {
      StatusOnlySettles(w, a);
    } else if IsTurnRequest(a) {
      TurnRequestSettles(w, a);
    } else {
      ClosingSettles(w, a);
    }
  }

  lemma ClientNextGrows(w: World, a: Action)
    requires !IsWorkerStep(a)
    ensures w.next <= ClientStep(w, a).next
  {
  }

  lemma HandlerNextGrows(w: World, i: nat, a: Action)
    requires IsWorkerStep(a) && i in w.workers
    ensures w.next <= WorkerStep(w, i, a).next
  {
  }

  lemma NextGrows(w: World, a: Action)
    ensures w.next <= Step(w, a).next
  {
    if !IsWorkerStep(a) {
      ClientNextGrows(w, a);
    } else if a.worker in w.workers {
      HandlerNextGrows(w, a.worker, a);
    }
  }

  lemma IdsStayKnown(w: World, w': World, batch: Option<Id>)
    requires IdsKnown(w.t.session, w.next) && StepMoves(w, w', batch) && w.next <= w'.next
    ensures IdsKnown(w'.t.session, w'.next)
  {
    var s, s' := w.t.session, w'.t.session;
    forall n | n in s'.turns ensures Known(s'.turns[n].id, w'.next) {
      if n in s.turns {
        assert SameIdentity(s.turns[n], s'.turns[n]);
        KnownMonotone(s.turns[n].id, w.next, w'.next);
      }
    }
    forall c | c in s'.candidates ensures Known(c, w'.next) {
      if c in s.candidates { KnownMonotone(c, w.next, w'.next); }
    }
  }

  lemma ClientKeepsShape(w: World, a: Action)
    requires SessionInv(w) && !IsWorkerStep(a) && !IsBookkeeping(a)
    ensures SessionOk(ClientStep(w, a).t.session)
  {
    if IsTurnRequest(a) {
      TurnRequestKeepsSession(w, a);
    } else if ChangesStatusOnly(a) {
      StatusKeepsSession(w, a);
    } else {
      ClosingKeepsSession(w, a);
    }
  }

  lemma StepKeepsShape(w: World, a: Action)
    requires SessionInv(w)
    ensures SessionOk(Step(w, a).t.session)
  {
    if IsBookkeeping(a) {
      BookkeepingKeeps(w, a);
    } else if !IsWorkerStep(a) {
      ClientKeepsShape(w, a);
    } else if a.worker in w.workers {
      HandlerKeepsSession(w, a.worker, a);
    }
  }

  lemma StepKeepsSession(w: World, a: Action)
    requires SessionInv(w)
    ensures SessionInv(Step(w, a))
  {
    StepKeepsShape(w, a);
    StepMovesSession(w, a);
    NextGrows(w, a);
    IdsStayKnown(w, Step(w, a), BatchTurn(w, a));
  }

  lemma {:induction false} RunKeepsSession(w: World, actions: seq<Action>)
    requires SessionInv(w)
    ensures SessionInv(Run(w, actions))
    decreases |actions|
  {
    if actions != [] {
      StepKeepsSession(w, actions[0]);
      RunKeepsSession(Step(w, actions[0]), actions[1..]);
    }
  }
}
