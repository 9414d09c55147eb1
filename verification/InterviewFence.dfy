/** The fence around a turn's fallback transcription: at most one worker can still save it,
    and only as long as nobody has. */
module InterviewFence {
  import opened Prelude
  import opened WorkQueue
  import opened Interview
  import opened InterviewShape
  import opened InterviewMoves
  import opened InterviewRuns

  // ---- The job table ------------------------------------------------------------------

  predicate TurnKeyed(job: Job) { job.kind == InterviewProcess(TurnStep) ==> job.key == InterviewTurnKey(job.resource) }

  predicate QueueRowOk(id: Id, job: Job, next: nat) {
    Known(id, next) && TurnKeyed(job) && (job.leaseToken.Some? ==> job.leaseToken.value < next)
  }

  ghost predicate QueueOk(jobs: Jobs, next: nat) {
    KeysUnique(jobs) && forall id :: id in jobs ==> QueueRowOk(id, jobs[id], next)
  }

  lemma QueueLater(jobs: Jobs, next: nat, later: nat)
    requires QueueOk(jobs, next) && next <= later
    ensures QueueOk(jobs, later)
  {
    forall id | id in jobs ensures QueueRowOk(id, jobs[id], later) { KnownMonotone(id, next, later); }
  }

  /** Rows that stay keep their key and lose at most their lease. */
  lemma SameJobsKeepQueue(before: Jobs, after: Jobs, next: nat)
    requires QueueOk(before, next)
    requires forall id :: id in after ==> id in before && SameJob(before[id], after[id])
    requires forall id :: id in after ==> after[id].leaseToken.None? || after[id].leaseToken == before[id].leaseToken
    ensures QueueOk(after, next)
  {
    forall id | id in after ensures QueueRowOk(id, after[id], next) { assert QueueRowOk(id, before[id], next); }
    forall i, j | i in after && j in after && after[i].key == after[j].key ensures i == j {
      assert SameJob(before[i], after[i]) && SameJob(before[j], after[j]);
    }
  }

  lemma EnqueueKeepsQueue(jobs: Jobs, id: Id, job: Job, next: nat)
    requires QueueOk(jobs, next) && QueueRowOk(id, job, next) && job.leaseToken.None? && Enqueued(jobs, id, job).Ok?
    ensures QueueOk(Enqueued(jobs, id, job).value, next) && JobsMove(jobs, Enqueued(jobs, id, job).value)
  {
  }

  lemma ClaimKeepsQueue(jobs: Jobs, id: Id, token: nat, lease: int, now: int)
    requires QueueOk(jobs, token) && id in jobs
    ensures QueueOk(jobs[id := ClaimRow(jobs[id], token, lease, now)], token + 1)
  {
    var after := jobs[id := ClaimRow(jobs[id], token, lease, now)];
    forall j | j in after ensures QueueRowOk(j, after[j], token + 1) {
      assert QueueRowOk(j, jobs[j], token);
      KnownMonotone(j, token, token + 1);
    }
  }

  // ---- Jobs, step by step -------------------------------------------------------------

  ghost predicate QueueStep(w: World, w': World) {
    QueueOk(w'.t.jobs, w'.next) && JobsMove(w.t.jobs, w'.t.jobs)
  }

  lemma EnqueueStep(w: World, w': World, id: Id, job: Job)
    requires QueueOk(w.t.jobs, w.next) && w.next + 2 == w'.next
    requires id == Uuid(w.next + 1) && job.leaseToken.None? && TurnKeyed(job)
    requires w'.t.jobs == w.t.jobs || (Enqueued(w.t.jobs, id, job).Ok? && w'.t.jobs == Enqueued(w.t.jobs, id, job).value)
    ensures QueueStep(w, w')
  {
    QueueLater(w.t.jobs, w.next, w'.next);
    if Enqueued(w.t.jobs, id, job).Ok? { EnqueueKeepsQueue(w.t.jobs, id, job, w'.next); }
  }

  lemma AdvanceQueue(w: World, a: Action)
    requires QueueOk(w.t.jobs, w.next) && a.Advance?
    ensures QueueStep(w, ClientStep(w, a))
  {
    var s := w.t.session;
    AdvanceStep(w, a);
    EnqueueStep(w, ClientStep(w, a), Uuid(w.next + 1), NewJob(InterviewProcess(RefillStep), s.id, InterviewRefillKey(s.id, LastSeq(s) + 1), 3, w.now));
  }

  lemma AttachQueue(w: World, a: Action)
    requires QueueOk(w.t.jobs, w.next) && a.Attach?
    ensures QueueStep(w, ClientStep(w, a))
  {
    AttachStep(w, a);
    var id := if a.n in w.t.session.turns then w.t.session.turns[a.n].id else Uuid(0);
    EnqueueStep(w, ClientStep(w, a), Uuid(w.next + 1), TurnJob(id, w.now));
  }

  lemma RealtimeQueue(w: World, a: Action)
    requires QueueOk(w.t.jobs, w.next) && a.SaveRealtime?
    ensures QueueStep(w, ClientStep(w, a))
  {
    RealtimeStep(w, a);
    var id := if a.n in w.t.session.turns then w.t.session.turns[a.n].id else Uuid(0);
    EnqueueStep(w, ClientStep(w, a), Uuid(w.next + 1), TurnJob(id, w.now));
  }

  lemma RefillQueue(w: World, a: Action)
    requires QueueOk(w.t.jobs, w.next) && a.RequestRefill?
    ensures QueueStep(w, ClientStep(w, a))
  {
    var s := w.t.session;
    var job := NewJob(InterviewProcess(RefillStep), s.id, InterviewRefillKey(s.id, a.suffix), 3, w.now);
    if Enqueued(w.t.jobs, Uuid(w.next + 1), job).Ok? { EnqueueStep(w, ClientStep(w, a), Uuid(w.next + 1), job); }
  }

  lemma RetiredJobs(jobs: Jobs, retired: set<Id>, now: int, next: nat)
    requires QueueOk(jobs, next) && forall id :: id in retired && id in jobs ==> Live(jobs[id])
    ensures
      var after := map j | j in jobs :: if j in retired then CancelRow(jobs[j], now) else jobs[j];
      QueueOk(after, next) && JobsMove(jobs, after)
  {
    SameJobsKeepQueue(jobs, map j | j in jobs :: if j in retired then CancelRow(jobs[j], now) else jobs[j], next);
  }

  lemma CancelQueue(w: World)
    requires QueueOk(w.t.jobs, w.next)
    ensures QueueStep(w, ClientStep(w, Cancel))
  {
    RetiredJobs(w.t.jobs, SessionJobs(w.t.session, w.t.jobs), w.now, w.next);
  }

  lemma PruneQueue(w: World, a: Action)
    requires QueueOk(w.t.jobs, w.next) && a.Prune?
    ensures QueueStep(w, ClientStep(w, a))
  {
    SameJobsKeepQueue(w.t.jobs, ClientStep(w, a).t.jobs, w.next);
  }

  predicate LeavesQueue(a: Action) {
    || a.Tick? || a.Start? || a.Skip? || a.Finalize? || a.Outdate? || a.Sweep? || a.Link? || a.VerifyDuration? || a.Compose? || a.SaveAnswers?
  }

  lemma OtherClientQueue(w: World, a: Action)
    requires QueueOk(w.t.jobs, w.next) && LeavesQueue(a)
    ensures QueueStep(w, ClientStep(w, a))
  {
    assert ClientStep(w, a).t.jobs == w.t.jobs && w.next <= ClientStep(w, a).next;
    QueueLater(w.t.jobs, w.next, ClientStep(w, a).next);
  }

  lemma ReleaseKeepsQueue(jobs: Jobs, held: Claimed, delay: int, now: int, lease: int, next: nat)
    requires QueueOk(jobs, next)
    ensures QueueOk(Completed(jobs, held, now), next) && QueueOk(FailedJobs(jobs, held, delay, now), next)
    ensures QueueOk(Heartbeaten(jobs, held, lease, now), next)
  {
    SameJobsKeepQueue(jobs, Completed(jobs, held, now), next);
    SameJobsKeepQueue(jobs, FailedJobs(jobs, held, delay, now), next);
    SameJobsKeepQueue(jobs, Heartbeaten(jobs, held, lease, now), next);
  }

  lemma HeartbeatQueue(w: World, i: nat, a: Action)
    requires QueueOk(w.t.jobs, w.next) && a.Heartbeat? && i in w.workers
    ensures QueueStep(w, WorkerStep(w, i, a))
  {
    ReleaseKeepsQueue(w.t.jobs, w.workers[i].held, 0, w.now, a.lease, w.next);
    HeartbeatMoves(w.t.jobs, w.workers[i].held, a.lease, w.now);
  }

  lemma FinishQueue(w: World, i: nat, a: Action)
    requires QueueOk(w.t.jobs, w.next) && a.Finish? && i in w.workers
    ensures QueueStep(w, WorkerStep(w, i, a))
  {
    ReleaseKeepsQueue(w.t.jobs, w.workers[i].held, a.delay, w.now, 0, w.next);
    ReleaseMoves(w.t.jobs, w.workers[i].held, a.delay, w.now);
  }

  lemma HandlerQueue(w: World, i: nat, a: Action)
    requires QueueOk(w.t.jobs, w.next) && IsWorkerStep(a) && i in w.workers
    ensures QueueStep(w, WorkerStep(w, i, a))
  {
    if a.Heartbeat? {
      HeartbeatQueue(w, i, a);
    } else if a.Finish? {
      FinishQueue(w, i, a);
    } else {
      QuietHandler(w, i, a);
      QueueLater(w.t.jobs, w.next, WorkerStep(w, i, a).next);
    }
  }

  lemma QuietHandler(w: World, i: nat, a: Action)
    requires IsWorkerStep(a) && i in w.workers && !a.Heartbeat? && !a.Finish?
    ensures WorkerStep(w, i, a).t.jobs == w.t.jobs && w.next <= WorkerStep(w, i, a).next
  {
  }

  lemma StepQueue(w: World, a: Action)
    requires QueueOk(w.t.jobs, w.next) && !a.Claim?
    ensures QueueStep(w, Step(w, a))
  {
    if IsWorkerStep(a) {
      if a.worker in w.workers { HandlerQueue(w, a.worker, a); }
    } else if a.Advance? {
      AdvanceQueue(w, a);
    } else if a.Attach? {
      AttachQueue(w, a);
    } else if a.SaveRealtime? {
      RealtimeQueue(w, a);
    } else if a.RequestRefill? {
      RefillQueue(w, a);
    } else if a.Cancel? {
      CancelQueue(w);
    } else if a.Prune? {
      PruneQueue(w, a);
    } else {
      OtherClientQueue(w, a);
    }
  }

  // ---- Workers ------------------------------------------------------------------------

  predicate NotBatched(s: Session, id: Id) {
    forall n :: n in s.turns && s.turns[n].id == id ==> s.turns[n].origin != Some(TurnBatch)
  }

  /** A worker that is about to save a fallback transcript, and still holds its job, is the
      first to do so. */
  predicate WorkerOk(t: Tables, next: nat, worker: Worker) {
    && worker.held.token < next && SnapshotAgrees(t.jobs, worker.held)
    && (worker.phase.Transcribing? ==>
          worker.held.kind == InterviewProcess(TurnStep) && (Holds(t.jobs, worker.held) ==> NotBatched(t.session, worker.held.resource)))
  }

  ghost predicate TokensDistinct(workers: map<nat, Worker>) {
    forall i, j :: i in workers && j in workers && workers[i].held.token == workers[j].held.token ==> i == j
  }

  ghost predicate WorkersOk(w: World) {
    TokensDistinct(w.workers) && forall i :: i in w.workers ==> WorkerOk(w.t, w.next, w.workers[i])
  }

  ghost predicate FenceInv(w: World) { SessionInv(w) && QueueOk(w.t.jobs, w.next) && WorkersOk(w) }

  /** Two workers that hold jobs of the same turn are the same worker. */
  lemma OneWorkerPerTurn(w: World, i: nat, j: nat)
    requires FenceInv(w) && i in w.workers && j in w.workers
    requires Holds(w.t.jobs, w.workers[i].held) && Holds(w.t.jobs, w.workers[j].held)
    requires w.workers[i].held.kind == InterviewProcess(TurnStep) && w.workers[j].held.kind == InterviewProcess(TurnStep)
    requires w.workers[i].held.resource == w.workers[j].held.resource
    ensures i == j
  {
    assert WorkerOk(w.t, w.next, w.workers[i]) && WorkerOk(w.t, w.next, w.workers[j]);
    assert QueueRowOk(w.workers[i].held.id, w.t.jobs[w.workers[i].held.id], w.next);
    assert QueueRowOk(w.workers[j].held.id, w.t.jobs[w.workers[j].held.id], w.next);
  }

  lemma MovesKeepNotBatched(s: Session, s': Session, next: nat, batch: Option<Id>, id: Id)
    requires SessionMoves(s, s', next, batch) && NotBatched(s, id) && batch != Some(id)
    ensures NotBatched(s', id)
  {
    forall n | n in s'.turns && s'.turns[n].id == id ensures s'.turns[n].origin != Some(TurnBatch) {
      if n in s.turns { assert SameIdentity(s.turns[n], s'.turns[n]); }
    }
  }

  /** A worker that a step leaves alone. */
  lemma BystanderOk(w: World, a: Action, j: nat)
    requires FenceInv(w) && j in w.workers && !a.Claim?
    requires IsWorkerStep(a) ==> a.worker != j
    ensures WorkerOk(Step(w, a).t, Step(w, a).next, w.workers[j])
  {
    var worker, w' := w.workers[j], Step(w, a);
    assert WorkerOk(w.t, w.next, worker);
    StepQueue(w, a);
    NextGrows(w, a);
    MovesKeepHolders(w.t.jobs, w'.t.jobs, worker.held);
    if worker.phase.Transcribing? && Holds(w'.t.jobs, worker.held) {
      StepMovesSession(w, a);
      BystanderNotBatched(w, a, j);
    }
  }

  lemma BystanderNotBatched(w: World, a: Action, j: nat)
    requires FenceInv(w) && j in w.workers && w.workers[j].phase.Transcribing? && Holds(w.t.jobs, w.workers[j].held)
    requires IsWorkerStep(a) ==> a.worker != j
    requires StepMoves(w, Step(w, a), BatchTurn(w, a))
    ensures NotBatched(Step(w, a).t.session, w.workers[j].held.resource)
  {
    var id := w.workers[j].held.resource;
    assert WorkerOk(w.t, w.next, w.workers[j]);
    if BatchTurn(w, a) == Some(id) {
      SameTurnCannotSave(w, a.worker, j, a);
    } else {
      MovesKeepNotBatched(w.t.session, Step(w, a).t.session, w.next, BatchTurn(w, a), id);
    }
  }

  lemma SameTurnCannotSave(w: World, i: nat, j: nat, a: Action)
    requires FenceInv(w) && i in w.workers && j in w.workers && i != j && a.SaveTranscript? && a.worker == i
    requires w.workers[j].phase.Transcribing? && Holds(w.t.jobs, w.workers[j].held)
    requires w.workers[i].held.resource == w.workers[j].held.resource
    ensures Step(w, a).t.session == w.t.session
  {
    assert WorkerOk(w.t, w.next, w.workers[i]) && WorkerOk(w.t, w.next, w.workers[j]);
    if w.workers[i].phase.Transcribing? && Holds(w.t.jobs, w.workers[i].held) {
      OneWorkerPerTurn(w, i, j);
    }
  }

  /** The worker that takes the step. */
  lemma ActorOk(w: World, i: nat, a: Action)
    requires SessionOk(w.t.session) && QueueOk(w.t.jobs, w.next) && i in w.workers && WorkerOk(w.t, w.next, w.workers[i])
    requires IsWorkerStep(a) && a.worker == i && i in Step(w, a).workers
    ensures WorkerOk(Step(w, a).t, Step(w, a).next, Step(w, a).workers[i])
  {
    ActorAgrees(w, i, a);
    ActorPhase(w, i, a);
    ActorNotBatched(w, i, a);
    ActorStays(w, Step(w, a), i, a);
  }

  lemma ActorStays(w: World, w': World, i: nat, a: Action)
    requires i in w.workers && i in w'.workers && ActorMoves(w, w', i, a)
    requires
      var held := w.workers[i].held;
      held.token < w'.next && SnapshotAgrees(w'.t.jobs, held) && (Holds(w'.t.jobs, held) ==> Holds(w.t.jobs, held))
    requires
      var held := w.workers[i].held;
      GetsToTranscribe(w.t.session, w.workers[i], a) ==>
        held.kind == InterviewProcess(TurnStep) && (Holds(w.t.jobs, held) ==> NotBatched(w.t.session, held.resource))
    ensures WorkerOk(w'.t, w'.next, w'.workers[i])
  {
  }

  lemma ActorAgrees(w: World, i: nat, a: Action)
    requires QueueOk(w.t.jobs, w.next) && IsWorkerStep(a) && i in w.workers && a.worker == i && WorkerOk(w.t, w.next, w.workers[i])
    ensures
      var held, w' := w.workers[i].held, Step(w, a);
      held.token < w'.next && SnapshotAgrees(w'.t.jobs, held) && (Holds(w'.t.jobs, held) ==> Holds(w.t.jobs, held))
  {
    StepQueue(w, a);
    NextGrows(w, a);
    MovesKeepHolders(w.t.jobs, Step(w, a).t.jobs, w.workers[i].held);
  }

  predicate GetsToTranscribe(s: Session, worker: Worker, a: Action) {
    worker.phase.Transcribing? || (a.Load? && Loaded(s, worker).phase.Transcribing?)
  }

  lemma ActorNotBatched(w: World, i: nat, a: Action)
    requires SessionOk(w.t.session) && i in w.workers && WorkerOk(w.t, w.next, w.workers[i])
    ensures
      var held := w.workers[i].held;
      GetsToTranscribe(w.t.session, w.workers[i], a) ==>
        held.kind == InterviewProcess(TurnStep) && (Holds(w.t.jobs, held) ==> NotBatched(w.t.session, held.resource))
  {
    if GetsToTranscribe(w.t.session, w.workers[i], a) && !w.workers[i].phase.Transcribing? { LoadedNotBatched(w.t.session, w.workers[i]); }
  }

  /** A worker gets to transcribing only by loading, and leaves the session alone when it does. */
  predicate ActorMoves(w: World, w': World, i: nat, a: Action)
    requires i in w.workers && i in w'.workers
  {
    var worker, after := w.workers[i], w'.workers[i];
    && after.held == worker.held
    && (after.phase.Transcribing? ==>
          w'.t.session == w.t.session && (after.phase == worker.phase || (a.Load? && after == Loaded(w.t.session, worker))))
  }

  lemma LoadActs(w: World, i: nat, a: Action)
    requires a.Load? && i in w.workers && a.worker == i
    ensures i in Step(w, a).workers && ActorMoves(w, Step(w, a), i, a)
  {
  }

  lemma ActorPhase(w: World, i: nat, a: Action)
    requires IsWorkerStep(a) && i in w.workers && a.worker == i && i in Step(w, a).workers
    ensures ActorMoves(w, Step(w, a), i, a)
  {
    if a.Load? { LoadActs(w, i, a); }
  }

  lemma LoadedNotBatched(s: Session, worker: Worker)
    requires SessionOk(s) && worker.phase == Fresh && Loaded(s, worker).phase.Transcribing?
    ensures NotBatched(s, worker.held.resource) && worker.held.kind == InterviewProcess(TurnStep)
  {
    var n := TurnOf(s, worker.held.resource);
    TurnOfIs(s, worker.held.resource);
    assert TurnOk(s.turns[n]);
  }

  lemma ClaimStep(w: World, a: Action)
    requires a.Claim? && a.worker !in w.workers && a.job in w.t.jobs && Claimable(w.t.jobs[a.job], w.now)
    ensures
      var w', row := ClientStep(w, a), ClaimRow(w.t.jobs[a.job], w.next, a.lease, w.now);
      && w'.t == Tables(w.t.session, w.t.jobs[a.job := row]) && w'.next == w.next + 1
      && w'.workers == w.workers[a.worker := Worker(Snapshot(a.job, row, w.next), Fresh)]
  {
  }

  lemma ClaimKeepsWorker(t: Tables, next: nat, job: Id, lease: int, now: int, worker: Worker)
    requires WorkerOk(t, next, worker) && job in t.jobs && Claimable(t.jobs[job], now)
    ensures WorkerOk(t.(jobs := t.jobs[job := ClaimRow(t.jobs[job], next, lease, now)]), next + 1, worker)
  {
    ClaimKeepsHolders(t.jobs, job, next, lease, now, worker.held);
  }

  lemma ClaimantOk(t: Tables, next: nat, job: Id, lease: int, now: int)
    requires job in t.jobs
    ensures
      var row := ClaimRow(t.jobs[job], next, lease, now);
      WorkerOk(t.(jobs := t.jobs[job := row]), next + 1, Worker(Snapshot(job, row, next), Fresh))
  {
  }

  lemma ClaimKeepsWorkers(w: World, a: Action, j: nat)
    requires FenceInv(w) && a.Claim? && a.worker !in w.workers && a.job in w.t.jobs && Claimable(w.t.jobs[a.job], w.now)
    requires j in ClientStep(w, a).workers
    ensures WorkerOk(ClientStep(w, a).t, ClientStep(w, a).next, ClientStep(w, a).workers[j])
  {
    ClaimStep(w, a);
    if j in w.workers {
      ClaimKeepsWorker(w.t, w.next, a.job, a.lease, w.now, w.workers[j]);
    } else {
      ClaimantOk(w.t, w.next, a.job, a.lease, w.now);
    }
  }

  lemma ClaimQueue(w: World, a: Action)
    requires QueueOk(w.t.jobs, w.next) && a.Claim?
    requires a.worker !in w.workers && a.job in w.t.jobs && Claimable(w.t.jobs[a.job], w.now)
    ensures QueueOk(ClientStep(w, a).t.jobs, ClientStep(w, a).next)
  {
    ClaimStep(w, a);
    ClaimKeepsQueue(w.t.jobs, a.job, w.next, a.lease, w.now);
  }

  predicate Refused(w: World, a: Action)
    requires a.Claim?
  {
    a.worker in w.workers || a.job !in w.t.jobs || !Claimable(w.t.jobs[a.job], w.now)
  }

  lemma RefusedClaim(w: World, a: Action)
    requires a.Claim? && Refused(w, a)
    ensures ClientStep(w, a) == w
  {
  }

  lemma ClaimKeepsFence(w: World, a: Action)
    requires FenceInv(w) && a.Claim?
    ensures QueueOk(ClientStep(w, a).t.jobs, ClientStep(w, a).next) && WorkersOk(ClientStep(w, a))
  {
    var w' := ClientStep(w, a);
    if Refused(w, a) {
      RefusedClaim(w, a);
    } else {
      ClaimQueue(w, a);
      ClaimedTokens(w, a);
      forall j | j in w'.workers ensures WorkerOk(w'.t, w'.next, w'.workers[j]) { ClaimKeepsWorkers(w, a, j); }
    }
  }

  lemma ClaimedTokens(w: World, a: Action)
    requires WorkersOk(w) && a.Claim?
    ensures TokensDistinct(ClientStep(w, a).workers)
  {
    forall i | i in w.workers ensures w.workers[i].held.token < w.next { assert WorkerOk(w.t, w.next, w.workers[i]); }
  }

  /** A step leaves every worker but the one that takes it alone, and its claim too. */
  predicate WorkersStay(w: World, w': World, actor: Option<nat>) {
    && w'.workers.Keys <= w.workers.Keys
    && (forall i :: i in w'.workers ==> w'.workers[i].held == w.workers[i].held)
    && (forall i :: i in w'.workers && actor != Some(i) ==> w'.workers[i] == w.workers[i])
  }

  lemma ClientWorkers(w: World, a: Action)
    requires !IsWorkerStep(a) && !a.Claim?
    ensures WorkersStay(w, ClientStep(w, a), None)
  {
    assert ClientStep(w, a).workers == w.workers;
  }

  lemma LeavingWorkers(w: World, i: nat, a: Action)
    requires (a.Crash? || a.Finish?) && i in w.workers
    ensures WorkersStay(w, WorkerStep(w, i, a), Some(i))
  {
  }

  lemma StayingWorkers(w: World, i: nat, a: Action)
    requires IsWorkerStep(a) && !a.Crash? && !a.Finish? && i in w.workers
    ensures WorkerStep(w, i, a).workers.Keys == w.workers.Keys && WorkerStep(w, i, a).workers[i].held == w.workers[i].held
    ensures WorkerStep(w, i, a).workers == w.workers[i := WorkerStep(w, i, a).workers[i]]
  {
  }

  lemma HandlerWorkers(w: World, i: nat, a: Action)
    requires IsWorkerStep(a) && i in w.workers
    ensures WorkersStay(w, WorkerStep(w, i, a), Some(i))
  {
    if a.Crash? || a.Finish? {
      LeavingWorkers(w, i, a);
    } else {
      StayingWorkers(w, i, a);
    }
  }

  lemma TokensStay(w: World, w': World, actor: Option<nat>)
    requires TokensDistinct(w.workers) && WorkersStay(w, w', actor)
    ensures TokensDistinct(w'.workers)
  {
  }

  function Actor(w: World, a: Action): Option<nat> { if IsWorkerStep(a) && a.worker in w.workers then Some(a.worker) else None }

  lemma StepWorkers(w: World, a: Action)
    requires !a.Claim?
    ensures WorkersStay(w, Step(w, a), Actor(w, a))
  {
    if !IsWorkerStep(a) {
      ClientWorkers(w, a);
    } else if a.worker in w.workers {
      HandlerWorkers(w, a.worker, a);
    }
  }

  lemma StepWorkerOk(w: World, a: Action, j: nat)
    requires FenceInv(w) && !a.Claim? && j in w.workers && j in Step(w, a).workers
    requires Actor(w, a) != Some(j) ==> Step(w, a).workers[j] == w.workers[j]
    ensures WorkerOk(Step(w, a).t, Step(w, a).next, Step(w, a).workers[j])
  {
    if Actor(w, a) == Some(j) {
      assert WorkerOk(w.t, w.next, w.workers[j]);
      ActorOk(w, j, a);
    } else {
      BystanderOk(w, a, j);
    }
  }

  lemma StepKeepsWorkers(w: World, a: Action)
    requires FenceInv(w) && !a.Claim?
    ensures WorkersOk(Step(w, a))
  {
    var w' := Step(w, a);
    StepWorkers(w, a);
    TokensStay(w, w', Actor(w, a));
    forall j | j in w'.workers ensures WorkerOk(w'.t, w'.next, w'.workers[j]) { StepWorkerOk(w, a, j); }
  }

  lemma StepKeepsFence(w: World, a: Action)
    requires FenceInv(w)
    ensures FenceInv(Step(w, a))
  {
    StepKeepsSession(w, a);
    if a.Claim? {
      ClaimKeepsFence(w, a);
    } else {
      StepQueue(w, a);
      StepKeepsWorkers(w, a);
    }
  }

  lemma CreatedIsFenced(openingQuestion: string, maxSeconds: int, expiresAt: int)
    requires 1 <= maxSeconds <= 600
    ensures FenceInv(Created(openingQuestion, maxSeconds, expiresAt))
  {
  }

  lemma {:induction false} RunKeepsFence(w: World, actions: seq<Action>)
    requires FenceInv(w)
    ensures FenceInv(Run(w, actions))
    decreases |actions|
  {
    if actions != [] {
      StepKeepsFence(w, actions[0]);
      RunKeepsFence(Step(w, actions[0]), actions[1..]);
    }
  }
}
