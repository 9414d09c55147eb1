/** All interleavings of the recording pipeline.

    Any number of workers run their handlers step by step, lose and regain leases, and crash,
    while clients create, retry, reanalyse, promote and delete recordings and maintenance
    prunes old jobs.  Each `Action` is one transaction or one handler step. */
module Pipeline {
  import opened Prelude
  import opened Text
  import opened WorkQueue
  import opened Recordings
  import opened Processing

  /** What the analyser and the rewriter may answer: any relations at all. */
  datatype Ports = Ports(
    analysis: (string, seq<string>) -> bool,
    rewrite: (string, seq<string>, string) -> bool)

  /** `next` is the uuid counter: every identifier and lease token drawn so far is below it. */
  datatype World = World(now: int, next: nat, t: Tables, workers: map<nat, Worker>)

  datatype Action =
    | Tick(elapsed: nat)
    | AddPreview(request: nat)
    | TranscribePreview(preview: Id, transcript: string, duration: int)
    | Create(principal: nat, user: nat, key: nat, request: nat, duration: int, admitted: bool)
    | Promote(preview: Id, user: nat)
    | Retry(user: nat, id: Id)
    | Reanalyze(user: nat, id: Id, requestKey: nat)
    | Remove(user: nat, id: Id)
    | Prune(victims: set<Id>, before: int)
    | Claim(worker: nat, job: Id, lease: nat)
    | Heartbeat(worker: nat, lease: nat)
    | Crash(worker: nat)
    | Load(worker: nat)
    | VerifyDuration(worker: nat, seconds: int)
    | Transcribe(worker: nat, text: string)
    | Analyze(worker: nat, suggestions: seq<string>, strengthsPending: bool)
    | Rewrite(worker: nat, corrected: string, dialogue: Option<bool>)
    | GiveUp(worker: nat)
    | Finish(worker: nat, delay: nat)

  const EMPTY := World(0, 0, Tables(map[], map[], map[], {}), map[])

  function WithWorker(w: World, id: nat, step: (Tables, Worker)): World {
    w.(t := step.0, workers := w.workers[id := step.1])
  }

  predicate IsWorkerStep(a: Action) {
    a.Heartbeat? || a.Crash? || a.Load? || a.VerifyDuration? || a.Transcribe? || a.Analyze? || a.Rewrite? || a.GiveUp? || a.Finish?
  }

  function AddedPreview(w: World, request: nat): World {
    var preview, job := Uuid(w.next), Uuid(w.next + 1);
    match Enqueued(w.t.jobs, job, NewJob(GuestPreview, preview, PreviewKey(preview), 3, w.now))
    case Err(_) => w
    case Ok(jobs) =>
      w.(next := w.next + 2, t := w.t.(jobs := jobs, previews := w.t.previews[preview := Preview(PreviewQueued, job, request, 0, "")]))
  }

  function ClientStep(w: World, a: Action): World
    requires !IsWorkerStep(a)
  {
    match a
    case Tick(elapsed) => w.(now := w.now + elapsed)
    case AddPreview(request) => AddedPreview(w, request)
    case TranscribePreview(p, transcript, duration) =>
      if p in w.t.previews && w.t.previews[p].state == PreviewQueued
      then w.(t := w.t.(previews := w.t.previews[p := w.t.previews[p].(state := PreviewReady, transcript := transcript, duration := duration)]))
      else w
    case Create(principal, user, key, request, duration, admitted) =>
      w.(t := CreatedRecording(w.t, principal, user, key, request, duration, admitted, w.now).0)
    case Promote(preview, user) => w.(next := w.next + 1, t := Promoted(w.t, preview, user, Uuid(w.next), w.now).0)
    case Retry(user, id) => w.(next := w.next + 1, t := Retried(w.t, user, id, Uuid(w.next), w.now).0)
    case Reanalyze(user, id, key) => w.(next := w.next + 1, t := Reanalyzed(w.t, user, id, key, Uuid(w.next), w.now).0)
    case Remove(user, id) => w.(t := Removed(w.t, user, id, w.now).0)
    case Prune(victims, before) =>
      if Prunable(w.t.jobs, victims, before) then w.(t := w.t.(jobs := w.t.jobs - victims)) else w
    case Claim(worker, job, lease) =>
      if worker !in w.workers && job in w.t.jobs && Claimable(w.t.jobs[job], w.now) then
        var row := ClaimRow(w.t.jobs[job], w.next, lease, w.now);
        w.(next := w.next + 1, t := w.t.(jobs := w.t.jobs[job := row]),
           workers := w.workers[worker := Worker(Snapshot(job, row, w.next), Started)])
      else w
  }

  function WorkerStep(p: Ports, w: World, id: nat, a: Action): World
    requires IsWorkerStep(a) && id in w.workers
  {
    var worker := w.workers[id];
    match a
    case Heartbeat(_, lease) => w.(t := w.t.(jobs := Heartbeaten(w.t.jobs, worker.held, lease, w.now)))
    case Crash(_) => w.(workers := w.workers - {id})
    case Load(_) => w.(workers := w.workers[id := Loaded(w.t, worker)])
    case VerifyDuration(_, seconds) => WithWorker(w, id, Verified(w.t, worker, seconds, w.now))
    case Transcribe(_, text) => WithWorker(w, id, Transcribed(w.t, worker, text))
    case Analyze(_, suggestions, pending) =>
      if worker.phase.AtSuggestions? && p.analysis(worker.phase.transcript, suggestions)
      then WithWorker(w, id, Analyzed(w.t, worker, suggestions, pending, w.now)) else w
    case Rewrite(_, corrected, dialogue) =>
      if worker.phase.AtRewriting? && p.rewrite(worker.phase.transcript, worker.phase.suggestions, corrected)
      then WithWorker(w.(next := w.next + 1), id, Rewritten(w.t, worker, corrected, Uuid(w.next), dialogue, w.now)) else w
    case GiveUp(_) => w.(workers := w.workers[id := worker.(phase := Returned(false))])
    case Finish(_, delay) =>
      if worker.phase.Returned?
      then w.(t := Finished(w.t, worker, delay, w.now), workers := w.workers - {id}) else w
  }

  function Step(p: Ports, w: World, a: Action): World {
    if !IsWorkerStep(a) then ClientStep(w, a)
    else if a.worker in w.workers then WorkerStep(p, w, a.worker, a)
    else w
  }

  function Run(p: Ports, w: World, actions: seq<Action>): World
    decreases |actions|
  {
    if actions == [] then w else Run(p, Step(p, w, actions[0]), actions[1..])
  }

  // ---- The invariant ------------------------------------------------------------------

  predicate KeyKnown(key: IdempotencyKey, next: nat) {
    match key
    case RecordingCreateKey(digest) => true
    case RecordingKey(job) => Known(job, next)
    case PromotePreviewKey(preview) => Known(preview, next)
    case StrengthsKey(job) => Known(job, next)
    case ShadowingKey(job) => Known(job, next)
    case PreviewKey(preview) => Known(preview, next)
    case InterviewTurnKey(turn) => Known(turn, next)
    case InterviewPrepareKey(session) => Known(session, next)
    case InterviewRefillKey(session, _) => Known(session, next)
  }

  /** A job created with a recording is tied to it by id, key, kind and resource. */
  predicate CreateRowOk(id: Id, job: Job) {
    && (job.key.RecordingCreateKey? <==> id.Derived?)
    && (id.Derived? ==>
          && id == CreateJobId(id.principal, id.key) && job.key == CreateKey(id.principal, id.key)
          && job.kind == RecordingProcess && job.resource == CreateRecordingId(id.principal, id.key))
  }

  ghost predicate JobsOk(w: World) {
    forall id :: id in w.t.jobs ==>
      var job := w.t.jobs[id];
      && RowOk(job) && Known(id, w.next) && KeyKnown(job.key, w.next) && CreateRowOk(id, job)
      && (job.leaseToken.Some? ==> job.leaseToken.value < w.next)
      && (job.key.PromotePreviewKey? ==> job.key.preview in w.t.previews && w.t.previews[job.key.preview].state == PreviewPromoted)
      && (job.kind == RecordingProcess && Live(job) ==> job.resource in w.t.recordings)
  }

  /** Stage and contents agree; a ready recording's contents were computed from one another. */
  predicate RecordingOk(p: Ports, row: Recording) {
    match row.status
    case Ready => row.stage.None? && p.analysis(row.transcript, row.suggestions) && p.rewrite(row.transcript, row.suggestions, row.corrected)
    case _ => row.stage.Some? && (row.stage.value == RewritingStage ==> p.analysis(row.transcript, row.suggestions))
  }

  ghost predicate RecordingsOk(p: Ports, w: World) {
    && (forall r :: r in w.t.recordings ==> Known(w.t.recordings[r].job, w.next) && RecordingOk(p, w.t.recordings[r]))
    && (forall v :: v in w.t.previews ==> Known(v, w.next) && Known(w.t.previews[v].job, w.next))
  }

  /** What the handler remembers is what the row says, for as long as it holds the lease and the recording is active. */
  predicate LocalView(phase: Phase, row: Recording) {
    match phase
    case Started => true
    case AtTranscribing => row.stage == Some(TranscribingStage)
    case DurationVerified => row.stage == Some(TranscribingStage)
    case AtSuggestions(transcript) => row.stage == Some(SuggestionsStage) && row.transcript == transcript
    case AtRewriting(transcript, suggestions) =>
      row.stage == Some(RewritingStage) && row.transcript == transcript && row.suggestions == suggestions
    case Returned(ok) => !ok
  }

  predicate WorkerOk(w: World, worker: Worker) {
    && worker.held.token < w.next && Known(worker.held.id, w.next)
    && SnapshotAgrees(w.t.jobs, worker.held)
    && (worker.held.kind == RecordingProcess || worker.phase.Started? || worker.phase.Returned?)
    && (worker.held.kind == RecordingProcess && Fenced(w.t, worker.held) ==>
          LocalView(worker.phase, w.t.recordings[worker.held.resource]))
  }

  ghost predicate WorkersOk(w: World) {
    && (forall i :: i in w.workers ==> WorkerOk(w, w.workers[i]))
    && (forall i, j :: i in w.workers && j in w.workers && w.workers[i].held.token == w.workers[j].held.token ==> i == j)
  }

  ghost predicate Inv(p: Ports, w: World) {
    JobsOk(w) && KeysUnique(w.t.jobs) && RecordingsOk(p, w) && WorkersOk(w)
  }

  /** Identifiers stay known when the counter advances. */
  lemma Advance(p: Ports, w: World, later: nat)
    requires Inv(p, w) && w.next <= later
    ensures Inv(p, w.(next := later))
  {
    var w' := w.(next := later);
    forall id: Id | Known(id, w.next) ensures Known(id, later) { KnownMonotone(id, w.next, later); }
    assert JobsOk(w');
    assert RecordingsOk(p, w');
    forall i | i in w.workers ensures WorkerOk(w', w.workers[i]) { assert WorkerOk(w, w.workers[i]); }
  }

  // ---- Every action keeps the invariant -----------------------------------------------

  lemma TickKeeps(p: Ports, w: World, elapsed: nat)
    requires Inv(p, w)
    ensures Inv(p, w.(now := w.now + elapsed))
  {
    var w' := w.(now := w.now + elapsed);
    forall i | i in w.workers ensures WorkerOk(w', w.workers[i]) { assert WorkerOk(w, w.workers[i]); }
  }

  function Inserted(w: World, id: Id, row: Recording): World { w.(t := WithRecording(w.t, id, row)) }

  /** A new recording disturbs no worker: a job that still runs has its recording already. */
  lemma InsertKeeps(p: Ports, w: World, id: Id, row: Recording)
    requires Inv(p, w) && id !in w.t.recordings && Known(row.job, w.next) && RecordingOk(p, row)
    ensures Inv(p, Inserted(w, id, row))
  {
    var w' := Inserted(w, id, row);
    forall i | i in w'.workers ensures WorkerOk(w', w'.workers[i]) { assert WorkerOk(w, w.workers[i]); }
  }

  function WithJob(w: World, id: Id, job: Job): World { w.(t := w.t.(jobs := w.t.jobs[id := job])) }

  lemma CreateJobKeepsJobs(w: World, principal: nat, key: nat)
    requires JobsOk(w) && KeysUnique(w.t.jobs) && CreateRecordingId(principal, key) in w.t.recordings
    requires !KeyTaken(w.t.jobs, CreateKey(principal, key)) && CreateJobId(principal, key) !in w.t.jobs
    ensures
      var w' := WithJob(w, CreateJobId(principal, key), NewJob(RecordingProcess, CreateRecordingId(principal, key), CreateKey(principal, key), 3, w.now));
      JobsOk(w') && KeysUnique(w'.t.jobs)
  {
  }

  /** Nobody holds a job that does not exist yet. */
  lemma NewJobKeepsWorker(w: World, id: Id, job: Job, worker: Worker)
    requires WorkerOk(w, worker) && id !in w.t.jobs && job.leaseToken.None?
    ensures WorkerOk(WithJob(w, id, job), worker)
  {
  }

  lemma CreateJobKeeps(p: Ports, w: World, principal: nat, key: nat)
    requires Inv(p, w) && CreateRecordingId(principal, key) in w.t.recordings
    requires !KeyTaken(w.t.jobs, CreateKey(principal, key)) && CreateJobId(principal, key) !in w.t.jobs
    ensures
      var job := NewJob(RecordingProcess, CreateRecordingId(principal, key), CreateKey(principal, key), 3, w.now);
      Inv(p, WithJob(w, CreateJobId(principal, key), job))
  {
    var id := CreateJobId(principal, key);
    var job := NewJob(RecordingProcess, CreateRecordingId(principal, key), CreateKey(principal, key), 3, w.now);
    CreateJobKeepsJobs(w, principal, key);
    forall i | i in w.workers ensures WorkerOk(WithJob(w, id, job), w.workers[i]) { NewJobKeepsWorker(w, id, job, w.workers[i]); }
  }

  /** Create inserts a recording, and its job unless the key is taken. */
  lemma CreateIs(w: World, a: Action)
    requires a.Create?
    ensures
      var id, job := CreateRecordingId(a.principal, a.key), CreateJobId(a.principal, a.key);
      var row := FreshRecording(a.user, a.request, a.duration, TranscribingStage, job, "");
      var inserted := Inserted(w, id, row);
      var w' := ClientStep(w, a);
      || w' == w
      || (id !in w.t.recordings && KeyTaken(w.t.jobs, CreateKey(a.principal, a.key)) && w' == inserted)
      || (&& id !in w.t.recordings && !KeyTaken(w.t.jobs, CreateKey(a.principal, a.key)) && job !in w.t.jobs
          && w' == WithJob(inserted, job, NewJob(RecordingProcess, id, CreateKey(a.principal, a.key), 3, w.now)))
  {
  }

  lemma CreateKeeps(p: Ports, w: World, a: Action)
    requires Inv(p, w) && a.Create?
    ensures Inv(p, ClientStep(w, a))
  {
    var id, job := CreateRecordingId(a.principal, a.key), CreateJobId(a.principal, a.key);
    var row := FreshRecording(a.user, a.request, a.duration, TranscribingStage, job, "");
    CreateIs(w, a);
    if id !in w.t.recordings {
      InsertKeeps(p, w, id, row);
      if !KeyTaken(w.t.jobs, CreateKey(a.principal, a.key)) && job !in w.t.jobs {
        CreateJobKeeps(p, Inserted(w, id, row), a.principal, a.key);
      }
    }
  }

  predicate RowCancelled(before: Job, after: Job, now: int) { after == before || (Live(before) && after == CancelRow(before, now)) }

  lemma CancelledRows(jobs: Jobs, resource: Id, kinds: set<Kind>, now: int)
    ensures
      var after := CancelledJobs(jobs, resource, kinds, now);
      after.Keys == jobs.Keys && forall id :: id in after ==> RowCancelled(jobs[id], after[id], now)
  {
  }

  lemma RowsCancelledKeepUnique(jobs: Jobs, after: Jobs, now: int)
    requires KeysUnique(jobs) && after.Keys == jobs.Keys && forall id :: id in after ==> RowCancelled(jobs[id], after[id], now)
    ensures KeysUnique(after)
  {
    forall id | id in after ensures after[id].key == jobs[id].key { }
  }

  lemma RowsCancelledKeeps(w: World, jobs: Jobs)
    requires JobsOk(w)
    requires jobs.Keys == w.t.jobs.Keys && forall id :: id in jobs ==> RowCancelled(w.t.jobs[id], jobs[id], w.now)
    ensures JobsOk(WithJobs(w, jobs))
  {
    forall id | id in jobs
      ensures
        var row, was := jobs[id], w.t.jobs[id];
        && RowOk(row) && row.key == was.key && row.kind == was.kind && row.resource == was.resource
        && (row == was || row.leaseToken.None?) && (Live(row) ==> Live(was))
    {
      assert RowOk(w.t.jobs[id]) && RowCancelled(w.t.jobs[id], jobs[id], w.now);
    }
    RowsKeep(w, jobs);
  }

  /** Changing only state, lease and clock columns keeps the queue in order. */
  lemma RowsKeep(w: World, jobs: Jobs)
    requires JobsOk(w) && jobs.Keys == w.t.jobs.Keys
    requires forall id :: id in jobs ==>
      var row, was := jobs[id], w.t.jobs[id];
      && RowOk(row) && row.key == was.key && row.kind == was.kind && row.resource == was.resource
      && (row == was || row.leaseToken.None?) && (Live(row) ==> Live(was))
    ensures JobsOk(WithJobs(w, jobs))
  {
    forall id | id in jobs ensures CreateRowOk(id, jobs[id]) { assert CreateRowOk(id, w.t.jobs[id]); }
  }

  lemma CancelKeepsJobs(w: World, resource: Id, kinds: set<Kind>)
    requires JobsOk(w) && KeysUnique(w.t.jobs)
    ensures
      var w' := w.(t := w.t.(jobs := CancelledJobs(w.t.jobs, resource, kinds, w.now)));
      JobsOk(w') && KeysUnique(w'.t.jobs)
  {
    CancelledRows(w.t.jobs, resource, kinds, w.now);
    RowsCancelledKeeps(w, CancelledJobs(w.t.jobs, resource, kinds, w.now));
    RowsCancelledKeepUnique(w.t.jobs, CancelledJobs(w.t.jobs, resource, kinds, w.now), w.now);
  }

  lemma CancelKeeps(p: Ports, w: World, resource: Id, kinds: set<Kind>)
    requires Inv(p, w)
    ensures Inv(p, w.(t := w.t.(jobs := CancelledJobs(w.t.jobs, resource, kinds, w.now))))
  {
    CancelKeepsJobs(w, resource, kinds);
    var w' := w.(t := w.t.(jobs := CancelledJobs(w.t.jobs, resource, kinds, w.now)));
    forall i | i in w'.workers ensures WorkerOk(w', w'.workers[i]) { CancelKeepsWorker(w, resource, kinds, w.workers[i]); }
  }

  lemma CancelKeepsWorker(w: World, resource: Id, kinds: set<Kind>, worker: Worker)
    requires WorkerOk(w, worker)
    ensures WorkerOk(w.(t := w.t.(jobs := CancelledJobs(w.t.jobs, resource, kinds, w.now))), worker)
  {
    var jobs := CancelledJobs(w.t.jobs, resource, kinds, w.now);
    if Holds(jobs, worker.held) {
      assert jobs[worker.held.id] == w.t.jobs[worker.held.id];
    }
  }

  /** A recording put under a job with a new uuid: nobody holds that job yet. */
  function Rearmed(w: World, id: Id, row: Recording, key: IdempotencyKey): World {
    w.(next := w.next + 1,
       t := WithRecording(w.t, id, row).(jobs := w.t.jobs[Uuid(w.next) := NewJob(RecordingProcess, id, key, 3, w.now)]))
  }

  lemma RearmKeeps(p: Ports, w: World, id: Id, row: Recording, key: IdempotencyKey)
    requires Inv(p, w)
    requires row.job == Uuid(w.next) && RecordingOk(p, row)
    requires !KeyTaken(w.t.jobs, key) && !key.RecordingCreateKey? && KeyKnown(key, w.next + 1)
    requires key.PromotePreviewKey? ==> key.preview in w.t.previews && w.t.previews[key.preview].state == PreviewPromoted
    ensures Inv(p, Rearmed(w, id, row, key))
  {
    Advance(p, w, w.next + 1);
    var w' := Rearmed(w, id, row, key);
    RearmKeepsJobs(w, id, row, key);
    assert RecordingsOk(p, w');
    forall i | i in w'.workers ensures WorkerOk(w', w'.workers[i]) {
      assert WorkerOk(w, w.workers[i]) && WorkerOk(w.(next := w.next + 1), w.workers[i]);
      RearmKeepsWorker(w, id, row, key, w.workers[i]);
    }
  }

  lemma RearmKeepsJobs(w: World, id: Id, row: Recording, key: IdempotencyKey)
    requires JobsOk(w.(next := w.next + 1)) && KeysUnique(w.t.jobs)
    requires !KeyTaken(w.t.jobs, key) && !key.RecordingCreateKey? && KeyKnown(key, w.next + 1)
    requires key.PromotePreviewKey? ==> key.preview in w.t.previews && w.t.previews[key.preview].state == PreviewPromoted
    ensures JobsOk(Rearmed(w, id, row, key)) && KeysUnique(Rearmed(w, id, row, key).t.jobs)
  {
  }

  lemma RearmKeepsWorker(w: World, id: Id, row: Recording, key: IdempotencyKey, worker: Worker)
    requires WorkerOk(w.(next := w.next + 1), worker) && Known(worker.held.id, w.next) && row.job == Uuid(w.next)
    ensures WorkerOk(Rearmed(w, id, row, key), worker)
  {
  }

  lemma FreshJobIsFree(p: Ports, w: World)
    requires Inv(p, w)
    ensures Uuid(w.next) !in w.t.jobs
    ensures !KeyTaken(w.t.jobs, RecordingKey(Uuid(w.next)))
  {
  }

  predicate Promotable(w: World, preview: Id) {
    preview in w.t.previews && w.t.previews[preview].state != PreviewPromoted && preview !in w.t.recordings
  }

  function PromotionJobs(w: World, preview: Id): Jobs
    requires Promotable(w, preview)
  {
    var job := w.t.previews[preview].job;
    if job in w.t.jobs && w.t.jobs[job].kind == GuestPreview && w.t.jobs[job].state in {Queued, RetryWait}
    then w.t.jobs[job := CancelRow(w.t.jobs[job], w.now)] else w.t.jobs
  }

  /** A promotion before its recording and job are inserted. */
  function PromotionStarted(w: World, preview: Id): World
    requires Promotable(w, preview)
  {
    w.(t := w.t.(jobs := PromotionJobs(w, preview),
                 previews := w.t.previews[preview := w.t.previews[preview].(state := PreviewPromoted)]))
  }

  lemma PromotionStartKeeps(p: Ports, w: World, preview: Id)
    requires Inv(p, w) && Promotable(w, preview)
    ensures Inv(p, PromotionStarted(w, preview))
    ensures !KeyTaken(PromotionStarted(w, preview).t.jobs, PromotePreviewKey(preview))
  {
    var w' := PromotionStarted(w, preview);
    PromotionKeepsJobs(w, preview);
    forall i | i in w'.workers ensures WorkerOk(w', w'.workers[i]) { PromotionKeepsWorker(w, preview, w.workers[i]); }
  }

  lemma PromotionKeepsJobs(w: World, preview: Id)
    requires JobsOk(w) && KeysUnique(w.t.jobs) && Promotable(w, preview)
    ensures JobsOk(PromotionStarted(w, preview)) && KeysUnique(PromotionStarted(w, preview).t.jobs)
  {
  }

  lemma PromotionKeepsWorker(w: World, preview: Id, worker: Worker)
    requires WorkerOk(w, worker) && Promotable(w, preview)
    ensures WorkerOk(PromotionStarted(w, preview), worker)
  {
  }

  lemma PromotionIsRearm(w: World, preview: Id, user: nat)
    requires Promotable(w, preview)
    requires Uuid(w.next) !in w.t.jobs && !KeyTaken(PromotionJobs(w, preview), PromotePreviewKey(preview))
    ensures
      var w' := ClientStep(w, Promote(preview, user));
      && preview in w'.t.recordings
      && w'.t.recordings[preview].job == Uuid(w.next)
      && w'.t.recordings[preview].stage == Some(PromotionStage(w.t.previews[preview]))
      && w'.t.recordings[preview].status == Processing
      && w' == Rearmed(PromotionStarted(w, preview), preview, w'.t.recordings[preview], PromotePreviewKey(preview))
  {
  }

  lemma PromotionSetUp(p: Ports, w: World, preview: Id)
    requires Inv(p, w) && Promotable(w, preview)
    ensures Inv(p, PromotionStarted(w, preview)) && PromotionStarted(w, preview).next == w.next
    ensures Uuid(w.next) !in w.t.jobs && KeyKnown(PromotePreviewKey(preview), w.next + 1)
    ensures !KeyTaken(PromotionStarted(w, preview).t.jobs, PromotePreviewKey(preview))
  {
    FreshJobIsFree(p, w);
    PromotionStartKeeps(p, w, preview);
    KnownMonotone(preview, w.next, w.next + 1);
  }

  lemma PromotableKeeps(p: Ports, w: World, preview: Id, user: nat)
    requires Inv(p, w) && Promotable(w, preview)
    ensures Inv(p, ClientStep(w, Promote(preview, user)))
  {
    PromotionSetUp(p, w, preview);
    PromotionIsRearm(w, preview, user);
    PromotedRowOk(p, w, preview, user);
    RearmKeeps(p, PromotionStarted(w, preview), preview, ClientStep(w, Promote(preview, user)).t.recordings[preview], PromotePreviewKey(preview));
  }

  lemma PromotedRowOk(p: Ports, w: World, preview: Id, user: nat)
    requires Inv(p, w) && Promotable(w, preview)
    requires
      var w' := ClientStep(w, Promote(preview, user));
      && preview in w'.t.recordings && w'.t.recordings[preview].stage == Some(PromotionStage(w.t.previews[preview]))
      && w'.t.recordings[preview].status == Processing
    ensures RecordingOk(p, ClientStep(w, Promote(preview, user)).t.recordings[preview])
  {
  }

  lemma PromoteKeeps(p: Ports, w: World, preview: Id, user: nat)
    requires Inv(p, w)
    ensures Inv(p, ClientStep(w, Promote(preview, user)))
  {
    if Promotable(w, preview) {
      PromotableKeeps(p, w, preview, user);
    } else {
      PromotionRefused(w, preview, user);
      Advance(p, w, w.next + 1);
    }
  }

  lemma PromotionRefused(w: World, preview: Id, user: nat)
    requires !Promotable(w, preview)
    ensures ClientStep(w, Promote(preview, user)) == w.(next := w.next + 1)
  {
  }

  predicate Retryable(w: World, user: nat, id: Id) {
    id in w.t.recordings && w.t.recordings[id].user == user && w.t.recordings[id].status == FailedStatus
  }

  function WithCancelled(w: World, id: Id, kinds: set<Kind>): World {
    w.(t := w.t.(jobs := CancelledJobs(w.t.jobs, id, kinds, w.now)))
  }

  function RetryStarted(w: World, id: Id): World
    requires id in w.t.recordings
  {
    if w.t.recordings[id].stage in {Some(TranscribingStage), Some(SuggestionsStage)}
    then WithCancelled(w, id, {RecordingStrengths}) else w
  }

  lemma RetryIsRearm(w: World, user: nat, id: Id)
    requires Retryable(w, user, id)
    requires Uuid(w.next) !in w.t.jobs && !KeyTaken(RetryStarted(w, id).t.jobs, RecordingKey(Uuid(w.next)))
    ensures ClientStep(w, Retry(user, id))
      == Rearmed(RetryStarted(w, id), id, RearmedRow(w.t.recordings[id], Uuid(w.next)), RecordingKey(Uuid(w.next)))
  {
  }

  lemma RetryKeeps(p: Ports, w: World, user: nat, id: Id)
    requires Inv(p, w)
    ensures Inv(p, ClientStep(w, Retry(user, id)))
  {
    if !Retryable(w, user, id) {
      Advance(p, w, w.next + 1);
    } else {
      assert RecordingOk(p, w.t.recordings[id]);
      CancelKeeps(p, w, id, {RecordingStrengths});
      FreshJobIsFree(p, RetryStarted(w, id));
      RetryIsRearm(w, user, id);
      RearmKeeps(p, RetryStarted(w, id), id, RearmedRow(w.t.recordings[id], Uuid(w.next)), RecordingKey(Uuid(w.next)));
    }
  }

  predicate Reanalyzable(w: World, user: nat, id: Id, key: nat) {
    && id in w.t.recordings && w.t.recordings[id].user == user && (id, key) !in w.t.requests
    && w.t.recordings[id].status == Ready && w.t.recordings[id].transcript != ""
  }

  function ReanalysisRow(row: Recording, job: Id): Recording {
    row.(status := Processing, stage := Some(SuggestionsStage), job := job, suggestions := [], corrected := "", shadowing := None)
  }

  function WithRequest(w: World, id: Id, key: nat): World { w.(t := w.t.(requests := w.t.requests + {(id, key)})) }

  lemma ReanalysisIsRearm(w: World, user: nat, id: Id, key: nat)
    requires Reanalyzable(w, user, id, key)
    requires Uuid(w.next) !in w.t.jobs && !KeyTaken(WithCancelled(w, id, RECORDING_KINDS).t.jobs, RecordingKey(Uuid(w.next)))
    ensures ClientStep(w, Reanalyze(user, id, key))
      == WithRequest(Rearmed(WithCancelled(w, id, RECORDING_KINDS), id,
                             ReanalysisRow(w.t.recordings[id], Uuid(w.next)), RecordingKey(Uuid(w.next))), id, key)
  {
  }

  lemma RequestKeeps(p: Ports, w: World, id: Id, key: nat)
    requires Inv(p, w)
    ensures Inv(p, WithRequest(w, id, key))
  {
    var w' := WithRequest(w, id, key);
    forall i | i in w'.workers ensures WorkerOk(w', w'.workers[i]) { assert WorkerOk(w, w.workers[i]); }
  }

  lemma ReanalyzeKeeps(p: Ports, w: World, user: nat, id: Id, key: nat)
    requires Inv(p, w)
    ensures Inv(p, ClientStep(w, Reanalyze(user, id, key)))
  {
    if !Reanalyzable(w, user, id, key) {
      Advance(p, w, w.next + 1);
    } else {
      var row := ReanalysisRow(w.t.recordings[id], Uuid(w.next));
      CancelKeeps(p, w, id, RECORDING_KINDS);
      FreshJobIsFree(p, WithCancelled(w, id, RECORDING_KINDS));
      ReanalysisIsRearm(w, user, id, key);
      RearmKeeps(p, WithCancelled(w, id, RECORDING_KINDS), id, row, RecordingKey(Uuid(w.next)));
      RequestKeeps(p, Rearmed(WithCancelled(w, id, RECORDING_KINDS), id, row, RecordingKey(Uuid(w.next))), id, key);
    }
  }

  function WithoutRecording(w: World, id: Id): World {
    w.(t := w.t.(recordings := w.t.recordings - {id}, requests := set r | r in w.t.requests && r.0 != id))
  }

  lemma RemoveIs(w: World, user: nat, id: Id)
    ensures ClientStep(w, Remove(user, id))
      == if id in w.t.recordings && w.t.recordings[id].user == user
         then WithoutRecording(WithCancelled(w, id, RECORDING_KINDS), id) else w
  {
  }

  lemma WithoutKeepsWorker(w: World, id: Id, worker: Worker)
    requires WorkerOk(w, worker)
    ensures WorkerOk(WithoutRecording(w, id), worker)
  {
  }

  /** A recording may go once no live job works for it. */
  lemma WithoutKeeps(p: Ports, w: World, id: Id)
    requires Inv(p, w) && forall j :: j in w.t.jobs && w.t.jobs[j].kind == RecordingProcess && w.t.jobs[j].resource == id ==> !Live(w.t.jobs[j])
    ensures Inv(p, WithoutRecording(w, id))
  {
    assert JobsOk(WithoutRecording(w, id));
    forall i | i in w.workers ensures WorkerOk(WithoutRecording(w, id), w.workers[i]) { WithoutKeepsWorker(w, id, w.workers[i]); }
  }

  lemma RemoveKeeps(p: Ports, w: World, user: nat, id: Id)
    requires Inv(p, w)
    ensures Inv(p, ClientStep(w, Remove(user, id)))
  {
    RemoveIs(w, user, id);
    if id in w.t.recordings && w.t.recordings[id].user == user {
      CancelKeeps(p, w, id, RECORDING_KINDS);
      WithoutKeeps(p, WithCancelled(w, id, RECORDING_KINDS), id);
    }
  }

  lemma PruneKeeps(p: Ports, w: World, victims: set<Id>, before: int)
    requires Inv(p, w)
    ensures Inv(p, ClientStep(w, Prune(victims, before)))
  {
    var w' := ClientStep(w, Prune(victims, before));
    forall i | i in w'.workers ensures WorkerOk(w', w'.workers[i]) { assert WorkerOk(w, w.workers[i]); }
  }

  lemma ClaimIs(w: World, worker: nat, job: Id, lease: nat)
    requires worker !in w.workers && job in w.t.jobs && Claimable(w.t.jobs[job], w.now)
    ensures
      var w', row := ClientStep(w, Claim(worker, job, lease)), ClaimRow(w.t.jobs[job], w.next, lease, w.now);
      && w'.next == w.next + 1 && w'.t == w.t.(jobs := w.t.jobs[job := row])
      && w'.workers == w.workers[worker := Worker(Snapshot(job, row, w.next), Started)]
  {
  }

  lemma ClaimKeepsJobs(p: Ports, w: World, worker: nat, job: Id, lease: nat)
    requires Inv(p, w) && worker !in w.workers && job in w.t.jobs && Claimable(w.t.jobs[job], w.now)
    ensures JobsOk(ClientStep(w, Claim(worker, job, lease))) && KeysUnique(ClientStep(w, Claim(worker, job, lease)).t.jobs)
  {
    ClaimIs(w, worker, job, lease);
    ClaimKeepsRows(w.t.jobs, job, w.next, lease, w.now);
    assert JobsOk(w.(next := w.next + 1)) by { Advance(p, w, w.next + 1); }
  }

  lemma ClaimKeepsOthers(w: World, worker: nat, job: Id, lease: nat, i: nat)
    requires WorkersOk(w) && worker !in w.workers && job in w.t.jobs && Claimable(w.t.jobs[job], w.now) && Known(job, w.next)
    requires i in ClientStep(w, Claim(worker, job, lease)).workers
    ensures WorkerOk(ClientStep(w, Claim(worker, job, lease)), ClientStep(w, Claim(worker, job, lease)).workers[i])
  {
    ClaimIs(w, worker, job, lease);
    if i in w.workers {
      StealKeepsWorker(w, worker, job, lease, w.workers[i]);
    } else {
      KnownMonotone(job, w.next, w.next + 1);
    }
  }

  lemma ClaimKeepsRecordings(p: Ports, w: World, worker: nat, job: Id, lease: nat)
    requires Inv(p, w) && worker !in w.workers && job in w.t.jobs && Claimable(w.t.jobs[job], w.now)
    ensures RecordingsOk(p, ClientStep(w, Claim(worker, job, lease)))
  {
    ClaimIs(w, worker, job, lease);
    Advance(p, w, w.next + 1);
  }

  lemma ClaimKeeps(p: Ports, w: World, worker: nat, job: Id, lease: nat)
    requires Inv(p, w)
    ensures Inv(p, ClientStep(w, Claim(worker, job, lease)))
  {
    if worker !in w.workers && job in w.t.jobs && Claimable(w.t.jobs[job], w.now) {
      var w' := ClientStep(w, Claim(worker, job, lease));
      ClaimKeepsJobs(p, w, worker, job, lease);
      ClaimKeepsRecordings(p, w, worker, job, lease);
      forall i | i in w'.workers ensures WorkerOk(w', w'.workers[i]) { ClaimKeepsOthers(w, worker, job, lease, i); }
      ClaimKeepsTokens(w, worker, job, lease);
    }
  }

  lemma ClaimKeepsTokens(w: World, worker: nat, job: Id, lease: nat)
    requires WorkersOk(w) && worker !in w.workers && job in w.t.jobs && Claimable(w.t.jobs[job], w.now)
    ensures
      var w' := ClientStep(w, Claim(worker, job, lease));
      forall i, j :: i in w'.workers && j in w'.workers && w'.workers[i].held.token == w'.workers[j].held.token ==> i == j
  {
    forall i | i in w.workers ensures w.workers[i].held.token < w.next { assert WorkerOk(w, w.workers[i]); }
  }

  /** A worker whose job is claimed by another one no longer holds it; the others are not affected. */
  lemma StealKeepsWorker(w: World, thief: nat, job: Id, lease: nat, worker: Worker)
    requires WorkerOk(w, worker)
    requires thief !in w.workers && job in w.t.jobs && Claimable(w.t.jobs[job], w.now)
    ensures WorkerOk(ClientStep(w, Claim(thief, job, lease)), worker)
  {
    KnownMonotone(worker.held.id, w.next, w.next + 1);
  }

  // ---- Handler steps ------------------------------------------------------------------

  function WithPhase(w: World, i: nat, phase: Phase): World
    requires i in w.workers
  {
    w.(workers := w.workers[i := w.workers[i].(phase := phase)])
  }

  /** Changing only what a worker remembers. */
  lemma PhaseKeeps(p: Ports, w: World, i: nat, phase: Phase)
    requires Inv(p, w) && i in w.workers
    requires WorkerOk(w, w.workers[i].(phase := phase))
    ensures Inv(p, WithPhase(w, i, phase))
  {
    var w' := WithPhase(w, i, phase);
    forall j | j in w'.workers ensures WorkerOk(w', w'.workers[j]) {
      if j != i { assert WorkerOk(w, w.workers[j]); }
    }
  }

  lemma CrashKeeps(p: Ports, w: World, i: nat)
    requires Inv(p, w)
    ensures Inv(p, w.(workers := w.workers - {i}))
  {
    var w' := w.(workers := w.workers - {i});
    forall j | j in w'.workers ensures WorkerOk(w', w'.workers[j]) { assert WorkerOk(w, w.workers[j]); }
  }

  /** At most one worker holds a given job. */
  lemma SingleHolder(p: Ports, w: World, i: nat, j: nat)
    requires Inv(p, w) && i in w.workers && j in w.workers
    requires w.workers[i].held.id == w.workers[j].held.id
    requires Holds(w.t.jobs, w.workers[i].held) && Holds(w.t.jobs, w.workers[j].held)
    ensures i == j
  {
  }

  function Written(w: World, i: nat, row: Recording, phase: Phase): World
    requires i in w.workers
  {
    w.(t := WithRecording(w.t, w.workers[i].held.resource, row), workers := w.workers[i := w.workers[i].(phase := phase)])
  }

  /** A fenced write disturbs nobody else, because nobody else passes the same fence. */
  lemma WriteKeeps(p: Ports, w: World, i: nat, row: Recording, phase: Phase)
    requires Inv(p, w) && i in w.workers && w.workers[i].held.kind == RecordingProcess
    requires Fenced(w.t, w.workers[i].held)
    requires row.job == w.workers[i].held.id && RecordingOk(p, row)
    requires row.status == Processing ==> LocalView(phase, row)
    ensures Inv(p, Written(w, i, row, phase))
  {
    var w' := Written(w, i, row, phase);
    assert WorkerOk(w, w.workers[i]);
    forall j | j in w'.workers ensures WorkerOk(w', w'.workers[j]) {
      if j != i {
        assert WorkerOk(w, w.workers[j]);
        if Holds(w.t.jobs, w.workers[j].held) && w.workers[j].held.id == w.workers[i].held.id {
          SingleHolder(p, w, i, j);
        }
      }
    }
  }

  /** Queueing follow-up work of another kind. */
  lemma FollowUpKeeps(p: Ports, w: World, id: Id, job: Job)
    requires Inv(p, w) && Known(id, w.next) && !id.Derived?
    requires job.kind != RecordingProcess && job.state == Queued && RowOk(job) && job.leaseToken.None?
    requires KeyKnown(job.key, w.next) && !job.key.RecordingCreateKey? && !job.key.PromotePreviewKey?
    requires Enqueued(w.t.jobs, id, job).Ok?
    ensures Inv(p, w.(t := w.t.(jobs := Enqueued(w.t.jobs, id, job).value)))
  {
    var w' := w.(t := w.t.(jobs := Enqueued(w.t.jobs, id, job).value));
    FollowUpKeepsJobs(w, id, job);
    EnqueueKeepsKeys(w.t.jobs, id, job);
    assert RecordingsOk(p, w');
    forall j | j in w'.workers ensures WorkerOk(w', w'.workers[j]) { FollowUpKeepsWorker(w, id, job, w.workers[j]); }
  }

  lemma FollowUpKeepsJobs(w: World, id: Id, job: Job)
    requires JobsOk(w) && Known(id, w.next) && !id.Derived?
    requires job.kind != RecordingProcess && RowOk(job) && job.leaseToken.None?
    requires KeyKnown(job.key, w.next) && !job.key.RecordingCreateKey? && !job.key.PromotePreviewKey?
    requires Enqueued(w.t.jobs, id, job).Ok?
    ensures JobsOk(w.(t := w.t.(jobs := Enqueued(w.t.jobs, id, job).value)))
  {
  }

  lemma EnqueueKeepsKeys(jobs: Jobs, id: Id, job: Job)
    requires KeysUnique(jobs) && Enqueued(jobs, id, job).Ok?
    ensures KeysUnique(Enqueued(jobs, id, job).value)
  {
  }

  lemma FollowUpKeepsWorker(w: World, id: Id, job: Job, worker: Worker)
    requires WorkerOk(w, worker) && job.leaseToken.None? && Enqueued(w.t.jobs, id, job).Ok?
    ensures WorkerOk(w.(t := w.t.(jobs := Enqueued(w.t.jobs, id, job).value)), worker)
  {
  }

  function WithPreview(w: World, id: Id, preview: Preview): World { w.(t := w.t.(previews := w.t.previews[id := preview])) }

  function WithJobs(w: World, jobs: Jobs): World { w.(t := w.t.(jobs := jobs)) }

  lemma AddedPreviewIs(w: World, request: nat)
    ensures
      var preview, id, later := Uuid(w.next), Uuid(w.next + 1), w.(next := w.next + 2);
      var jobs := Enqueued(w.t.jobs, id, NewJob(GuestPreview, preview, PreviewKey(preview), 3, w.now));
      AddedPreview(w, request)
      == if jobs.Ok? then WithPreview(WithJobs(later, jobs.value), preview, Preview(PreviewQueued, id, request, 0, "")) else w
  {
  }

  lemma AddPreviewKeeps(p: Ports, w: World, request: nat)
    requires Inv(p, w)
    ensures Inv(p, AddedPreview(w, request))
  {
    var preview, id, later := Uuid(w.next), Uuid(w.next + 1), w.(next := w.next + 2);
    var job := NewJob(GuestPreview, preview, PreviewKey(preview), 3, w.now);
    AddedPreviewIs(w, request);
    if Enqueued(w.t.jobs, id, job).Ok? {
      PreviewIsNew(p, w);
      Advance(p, w, w.next + 2);
      FollowUpKeeps(p, later, id, job);
      PreviewKeeps(p, WithJobs(later, Enqueued(w.t.jobs, id, job).value), preview, Preview(PreviewQueued, id, request, 0, ""));
    }
  }

  lemma PreviewIsNew(p: Ports, w: World)
    requires RecordingsOk(p, w)
    ensures Uuid(w.next) !in w.t.previews
  {
  }

  lemma PreviewKeeps(p: Ports, w: World, id: Id, preview: Preview)
    requires Inv(p, w) && id !in w.t.previews && Known(id, w.next) && Known(preview.job, w.next)
    ensures Inv(p, WithPreview(w, id, preview))
  {
    var w' := WithPreview(w, id, preview);
    PreviewKeepsJobs(w, id, preview);
    assert RecordingsOk(p, w');
    forall i | i in w'.workers ensures WorkerOk(w', w'.workers[i]) { PreviewKeepsWorker(w, id, preview, w.workers[i]); }
  }

  lemma PreviewKeepsJobs(w: World, id: Id, preview: Preview)
    requires JobsOk(w) && id !in w.t.previews
    ensures JobsOk(w.(t := w.t.(previews := w.t.previews[id := preview])))
  {
  }

  lemma PreviewKeepsWorker(w: World, id: Id, preview: Preview, worker: Worker)
    requires WorkerOk(w, worker)
    ensures WorkerOk(w.(t := w.t.(previews := w.t.previews[id := preview])), worker)
  {
  }

  function WithHeartbeat(w: World, held: Claimed, lease: nat): World { w.(t := w.t.(jobs := Heartbeaten(w.t.jobs, held, lease, w.now))) }

  lemma HeartbeatIs(p: Ports, w: World, i: nat, lease: nat)
    requires i in w.workers
    ensures WorkerStep(p, w, i, Heartbeat(i, lease)) == WithHeartbeat(w, w.workers[i].held, lease)
  {
  }

  lemma HeartbeatKeepsJobs(w: World, held: Claimed, lease: nat)
    requires JobsOk(w) && KeysUnique(w.t.jobs)
    ensures JobsOk(WithHeartbeat(w, held, lease)) && KeysUnique(WithHeartbeat(w, held, lease).t.jobs)
  {
    if Holds(w.t.jobs, held) { assert RowOk(w.t.jobs[held.id]); }
  }

  lemma HeartbeatKeepsWorker(w: World, held: Claimed, lease: nat, worker: Worker)
    requires WorkerOk(w, worker)
    ensures WorkerOk(WithHeartbeat(w, held, lease), worker)
  {
  }

  lemma HeartbeatKeeps(p: Ports, w: World, i: nat, lease: nat)
    requires Inv(p, w) && i in w.workers
    ensures Inv(p, WorkerStep(p, w, i, Heartbeat(i, lease)))
  {
    var held := w.workers[i].held;
    HeartbeatIs(p, w, i, lease);
    HeartbeatKeepsJobs(w, held, lease);
    forall j | j in w.workers ensures WorkerOk(WithHeartbeat(w, held, lease), w.workers[j]) { HeartbeatKeepsWorker(w, held, lease, w.workers[j]); }
  }

  lemma LoadKeeps(p: Ports, w: World, i: nat)
    requires Inv(p, w) && i in w.workers
    ensures Inv(p, WorkerStep(p, w, i, Load(i)))
  {
    var worker := w.workers[i];
    var loaded := Loaded(w.t, worker);
    assert WorkerOk(w, worker);
    if ActiveUnder(w.t, worker.held.resource, worker.held.id) {
      assert RecordingOk(p, w.t.recordings[worker.held.resource]);
    }
    PhaseKeeps(p, w, i, loaded.phase);
  }

  lemma VerifyIs(p: Ports, w: World, i: nat, seconds: int)
    requires i in w.workers
    ensures
      var worker, w' := w.workers[i], WorkerStep(p, w, i, VerifyDuration(i, seconds));
      if worker.phase != AtTranscribing then w' == w
      else if VerifiedDuration(w.t, worker.held, seconds, w.now).1
      then Fenced(w.t, worker.held) && w' == Written(w, i, w.t.recordings[worker.held.resource].(duration := seconds), DurationVerified)
      else w' == WithPhase(w, i, Returned(false))
  {
    assert w.workers[i := w.workers[i]] == w.workers;
  }

  lemma VerifyKeeps(p: Ports, w: World, i: nat, seconds: int)
    requires Inv(p, w) && i in w.workers
    ensures Inv(p, WorkerStep(p, w, i, VerifyDuration(i, seconds)))
  {
    var worker := w.workers[i];
    VerifyIs(p, w, i, seconds);
    assert WorkerOk(w, worker);
    if worker.phase == AtTranscribing {
      if VerifiedDuration(w.t, worker.held, seconds, w.now).1 {
        var row := w.t.recordings[worker.held.resource];
        assert RecordingOk(p, row);
        WriteKeeps(p, w, i, row.(duration := seconds), DurationVerified);
      } else {
        PhaseKeeps(p, w, i, Returned(false));
      }
    }
  }

  lemma TranscribeIs(p: Ports, w: World, i: nat, text: string)
    requires i in w.workers
    ensures
      var worker, w', transcript := w.workers[i], WorkerStep(p, w, i, Transcribe(i, text)), NormalizeTranscript(text);
      if worker.phase != DurationVerified then w' == w
      else if transcript == "" then w' == WithPhase(w, i, Returned(false))
      else if Fenced(w.t, worker.held)
      then w' == Written(w, i, w.t.recordings[worker.held.resource].(transcript := transcript, stage := Some(SuggestionsStage)),
                         AtSuggestions(transcript))
      else w' == WithPhase(w, i, Returned(true))
  {
    assert w.workers[i := w.workers[i]] == w.workers;
  }

  lemma TranscribeKeeps(p: Ports, w: World, i: nat, text: string)
    requires Inv(p, w) && i in w.workers
    ensures Inv(p, WorkerStep(p, w, i, Transcribe(i, text)))
  {
    var worker := w.workers[i];
    var transcript := NormalizeTranscript(text);
    TranscribeIs(p, w, i, text);
    assert WorkerOk(w, worker);
    if worker.phase == DurationVerified {
      if transcript == "" {
        PhaseKeeps(p, w, i, Returned(false));
      } else if Fenced(w.t, worker.held) {
        var row := w.t.recordings[worker.held.resource];
        assert RecordingOk(p, row);
        WriteKeeps(p, w, i, row.(transcript := transcript, stage := Some(SuggestionsStage)), AtSuggestions(transcript));
      } else {
        PhaseKeeps(p, w, i, Returned(true));
      }
    }
  }

  function AnalyzedRow(row: Recording, suggestions: seq<string>): Recording {
    row.(suggestions := suggestions, stage := Some(RewritingStage))
  }

  function StrengthsJob(held: Claimed, now: int): Job {
    NewJob(RecordingStrengths, held.resource, StrengthsKey(StrengthsOf(held.id)), 3, now)
  }

  lemma AnalyzeIs(p: Ports, w: World, i: nat, suggestions: seq<string>, pending: bool)
    requires i in w.workers
    ensures
      var worker, w' := w.workers[i], WorkerStep(p, w, i, Analyze(i, suggestions, pending));
      var held := worker.held;
      if !worker.phase.AtSuggestions? || !p.analysis(worker.phase.transcript, suggestions) then w' == w
      else
        var saved := SavedAnalysis(w.t, held, suggestions, pending, w.now).1;
        if saved != Advanced then w' == WithPhase(w, i, Returned(saved == NotAdvanced))
        else
          Fenced(w.t, held) &&
          var mid := Written(w, i, AnalyzedRow(w.t.recordings[held.resource], suggestions), AtRewriting(worker.phase.transcript, suggestions));
          if !pending then w' == mid
          else
            var jobs := Enqueued(mid.t.jobs, StrengthsOf(held.id), StrengthsJob(held, w.now));
            jobs.Ok? && w' == mid.(t := mid.t.(jobs := jobs.value))
  {
  }

  lemma AnalyzeKeeps(p: Ports, w: World, i: nat, suggestions: seq<string>, pending: bool)
    requires Inv(p, w) && i in w.workers
    ensures Inv(p, WorkerStep(p, w, i, Analyze(i, suggestions, pending)))
  {
    var worker := w.workers[i];
    AnalyzeIs(p, w, i, suggestions, pending);
    if worker.phase.AtSuggestions? && p.analysis(worker.phase.transcript, suggestions) {
      var saved := SavedAnalysis(w.t, worker.held, suggestions, pending, w.now).1;
      if saved != Advanced {
        UnsavedKeeps(p, w, i, saved == NotAdvanced);
      } else {
        AnalyzedKeeps(p, w, i, suggestions);
        if pending { StrengthsKeep(p, w, i, suggestions); }
      }
    }
  }

  /** The handler returns nil only when the recording moved on without it. */
  lemma UnsavedKeeps(p: Ports, w: World, i: nat, ok: bool)
    requires Inv(p, w) && i in w.workers && (ok ==> !Fenced(w.t, w.workers[i].held))
    ensures Inv(p, WithPhase(w, i, Returned(ok)))
  {
    assert WorkerOk(w, w.workers[i]);
    PhaseKeeps(p, w, i, Returned(ok));
  }

  lemma StrengthsKeep(p: Ports, w: World, i: nat, suggestions: seq<string>)
    requires Inv(p, w) && i in w.workers && w.workers[i].phase.AtSuggestions? && Fenced(w.t, w.workers[i].held)
    requires p.analysis(w.workers[i].phase.transcript, suggestions)
    requires Enqueued(w.t.jobs, StrengthsOf(w.workers[i].held.id), StrengthsJob(w.workers[i].held, w.now)).Ok?
    ensures
      var worker := w.workers[i];
      var mid := Written(w, i, AnalyzedRow(w.t.recordings[worker.held.resource], suggestions), AtRewriting(worker.phase.transcript, suggestions));
      Inv(p, WithJobs(mid, Enqueued(mid.t.jobs, StrengthsOf(worker.held.id), StrengthsJob(worker.held, w.now)).value))
  {
    var worker := w.workers[i];
    var mid := Written(w, i, AnalyzedRow(w.t.recordings[worker.held.resource], suggestions), AtRewriting(worker.phase.transcript, suggestions));
    AnalyzedKeeps(p, w, i, suggestions);
    StrengthsJobKeeps(p, mid, worker.held);
  }

  lemma StrengthsJobKeeps(p: Ports, w: World, held: Claimed)
    requires Inv(p, w) && Known(held.id, w.next)
    requires Enqueued(w.t.jobs, StrengthsOf(held.id), StrengthsJob(held, w.now)).Ok?
    ensures Inv(p, WithJobs(w, Enqueued(w.t.jobs, StrengthsOf(held.id), StrengthsJob(held, w.now)).value))
  {
    FollowUpKeeps(p, w, StrengthsOf(held.id), StrengthsJob(held, w.now));
  }

  lemma AnalyzedKeeps(p: Ports, w: World, i: nat, suggestions: seq<string>)
    requires Inv(p, w) && i in w.workers && w.workers[i].phase.AtSuggestions? && Fenced(w.t, w.workers[i].held)
    requires p.analysis(w.workers[i].phase.transcript, suggestions)
    ensures
      var worker := w.workers[i];
      Inv(p, Written(w, i, AnalyzedRow(w.t.recordings[worker.held.resource], suggestions), AtRewriting(worker.phase.transcript, suggestions)))
  {
    var worker := w.workers[i];
    assert WorkerOk(w, worker);
    assert RecordingOk(p, w.t.recordings[worker.held.resource]);
    WriteKeeps(p, w, i, AnalyzedRow(w.t.recordings[worker.held.resource], suggestions), AtRewriting(worker.phase.transcript, suggestions));
  }

  lemma RewriteIs(p: Ports, w: World, i: nat, corrected: string, dialogue: Option<bool>)
    requires i in w.workers
    ensures
      var worker, later := w.workers[i], w.(next := w.next + 1);
      WorkerStep(p, w, i, Rewrite(i, corrected, dialogue))
      == if worker.phase.AtRewriting? && p.rewrite(worker.phase.transcript, worker.phase.suggestions, corrected)
         then WithWorker(later, i, Rewritten(later.t, later.workers[i], corrected, Uuid(w.next), dialogue, later.now))
         else w
  {
  }

  lemma RewriteKeeps(p: Ports, w: World, i: nat, corrected: string, dialogue: Option<bool>)
    requires Inv(p, w) && i in w.workers
    ensures Inv(p, WorkerStep(p, w, i, Rewrite(i, corrected, dialogue)))
  {
    var worker := w.workers[i];
    RewriteIs(p, w, i, corrected, dialogue);
    if worker.phase.AtRewriting? && p.rewrite(worker.phase.transcript, worker.phase.suggestions, corrected) {
      Advance(p, w, w.next + 1);
      RewriteWithIdKeeps(p, w.(next := w.next + 1), i, corrected, Uuid(w.next), dialogue);
    }
  }

  lemma RewriteWithIdKeeps(p: Ports, w: World, i: nat, corrected: string, shadowing: Id, dialogue: Option<bool>)
    requires Inv(p, w) && i in w.workers
    requires w.workers[i].phase.AtRewriting?
    requires p.rewrite(w.workers[i].phase.transcript, w.workers[i].phase.suggestions, corrected)
    requires Known(shadowing, w.next) && shadowing.Uuid?
    ensures Inv(p, WithWorker(w, i, Rewritten(w.t, w.workers[i], corrected, shadowing, dialogue, w.now)))
  {
    var saved := CompletedRecording(w.t, w.workers[i].held, corrected, shadowing, dialogue, w.now).1;
    if saved == Advanced {
      RewriteAdvancesKeeps(p, w, i, corrected, shadowing, dialogue);
    } else {
      assert WorkerOk(w, w.workers[i]);
      PhaseKeeps(p, w, i, Returned(saved == NotAdvanced));
    }
  }

  function ReadyRow(row: Recording, corrected: string, shadowing: Id): Recording {
    row.(status := Ready, stage := None, corrected := corrected, shadowing := Some(shadowing))
  }

  function ShadowingJob(held: Claimed, shadowing: Id, now: int): Job {
    NewJob(ShadowingSynthesize, held.resource, ShadowingKey(shadowing), 4, now)
  }

  lemma RewrittenIs(w: World, i: nat, corrected: string, shadowing: Id, dialogue: Option<bool>)
    requires i in w.workers && w.workers[i].phase.AtRewriting?
    requires CompletedRecording(w.t, w.workers[i].held, corrected, shadowing, dialogue, w.now).1 == Advanced
    ensures
      var held := w.workers[i].held;
      Fenced(w.t, held) &&
      var mid := Written(w, i, ReadyRow(w.t.recordings[held.resource], corrected, shadowing), Returned(true));
      var jobs := Enqueued(mid.t.jobs, shadowing, ShadowingJob(held, shadowing, w.now));
      jobs.Ok? && WithWorker(w, i, Rewritten(w.t, w.workers[i], corrected, shadowing, dialogue, w.now)) == WithJobs(mid, jobs.value)
  {
  }

  lemma RewriteAdvancesKeeps(p: Ports, w: World, i: nat, corrected: string, shadowing: Id, dialogue: Option<bool>)
    requires Inv(p, w) && i in w.workers
    requires w.workers[i].phase.AtRewriting?
    requires p.rewrite(w.workers[i].phase.transcript, w.workers[i].phase.suggestions, corrected)
    requires Known(shadowing, w.next) && shadowing.Uuid?
    requires CompletedRecording(w.t, w.workers[i].held, corrected, shadowing, dialogue, w.now).1 == Advanced
    ensures Inv(p, WithWorker(w, i, Rewritten(w.t, w.workers[i], corrected, shadowing, dialogue, w.now)))
  {
    var worker := w.workers[i];
    RewrittenIs(w, i, corrected, shadowing, dialogue);
    assert WorkerOk(w, worker) && RecordingOk(p, w.t.recordings[worker.held.resource]);
    var row := ReadyRow(w.t.recordings[worker.held.resource], corrected, shadowing);
    WriteKeeps(p, w, i, row, Returned(true));
    FollowUpKeeps(p, Written(w, i, row, Returned(true)), shadowing, ShadowingJob(worker.held, shadowing, w.now));
  }

  function ReleasedJobs(w: World, worker: Worker, ok: bool, delay: int): Jobs {
    if ok then Completed(w.t.jobs, worker.held, w.now) else FailedJobs(w.t.jobs, worker.held, delay, w.now)
  }

  /** Releasing changes one row, and only its state, lease and clock columns. */
  lemma ReleaseKeepsRows(w: World, worker: Worker, ok: bool, delay: int)
    requires SnapshotAgrees(w.t.jobs, worker.held)
    requires worker.held.id in w.t.jobs ==> RowOk(w.t.jobs[worker.held.id])
    ensures
      var jobs := ReleasedJobs(w, worker, ok, delay);
      && jobs.Keys == w.t.jobs.Keys
      && (forall id :: id in jobs && id != worker.held.id ==> jobs[id] == w.t.jobs[id])
      && (worker.held.id in jobs ==>
            var row, was := jobs[worker.held.id], w.t.jobs[worker.held.id];
            && RowOk(row) && row.key == was.key && row.kind == was.kind && row.resource == was.resource
            && (row == was || row.leaseToken.None?) && (Live(row) ==> Live(was)))
  {
  }

  lemma ReleaseKeepsJobs(w: World, worker: Worker, ok: bool, delay: int)
    requires JobsOk(w) && KeysUnique(w.t.jobs) && SnapshotAgrees(w.t.jobs, worker.held)
    ensures
      var jobs := ReleasedJobs(w, worker, ok, delay);
      JobsOk(WithJobs(w, jobs)) && KeysUnique(jobs)
  {
    ReleaseKeepsRows(w, worker, ok, delay);
    RowsKeep(w, ReleasedJobs(w, worker, ok, delay));
  }

  /** The queue's half of `Finish`: the row is released and the worker is gone. */
  lemma ReleaseKeeps(p: Ports, w: World, i: nat, ok: bool, delay: int)
    requires Inv(p, w) && i in w.workers
    ensures Inv(p, w.(t := w.t.(jobs := ReleasedJobs(w, w.workers[i], ok, delay)), workers := w.workers - {i}))
  {
    var worker := w.workers[i];
    assert WorkerOk(w, worker);
    ReleaseKeepsJobs(w, worker, ok, delay);
    var w' := WithJobs(w, ReleasedJobs(w, worker, ok, delay));
    forall j | j in w.workers ensures WorkerOk(w', w.workers[j]) { ReleaseKeepsWorker(w, worker, ok, delay, w.workers[j]); }
    CrashKeeps(p, w', i);
  }

  lemma ReleaseKeepsWorker(w: World, worker: Worker, ok: bool, delay: int, other: Worker)
    requires WorkerOk(w, other)
    ensures WorkerOk(WithJobs(w, ReleasedJobs(w, worker, ok, delay)), other)
  {
  }

  /** A recording that is marked failed is no longer active, so nobody is fenced on it. */
  lemma MarkFailedKeeps(p: Ports, w: World, r: Id)
    requires Inv(p, w) && r in w.t.recordings && w.t.recordings[r].status == Processing
    ensures Inv(p, Inserted(w, r, w.t.recordings[r].(status := FailedStatus)))
  {
    var w' := Inserted(w, r, w.t.recordings[r].(status := FailedStatus));
    assert RecordingOk(p, w.t.recordings[r]);
    MarkFailedKeepsJobs(w, r);
    forall j | j in w'.workers ensures WorkerOk(w', w'.workers[j]) { MarkFailedKeepsWorker(w, r, w.workers[j]); }
  }

  lemma MarkFailedKeepsJobs(w: World, r: Id)
    requires JobsOk(w) && r in w.t.recordings
    ensures JobsOk(Inserted(w, r, w.t.recordings[r].(status := FailedStatus)))
  {
  }

  lemma MarkFailedKeepsWorker(w: World, r: Id, worker: Worker)
    requires WorkerOk(w, worker) && r in w.t.recordings
    ensures WorkerOk(Inserted(w, r, w.t.recordings[r].(status := FailedStatus)), worker)
  {
  }

  lemma FinishIs(p: Ports, w: World, i: nat, delay: nat)
    requires i in w.workers && w.workers[i].phase.Returned?
    ensures
      var worker := w.workers[i];
      var released := w.(t := w.t.(jobs := ReleasedJobs(w, worker, worker.phase.ok, delay)), workers := w.workers - {i});
      var w' := WorkerStep(p, w, i, Finish(i, delay));
      || w' == released
      || (&& ActiveUnder(w.t, worker.held.resource, worker.held.id)
          && w' == Inserted(released, worker.held.resource, w.t.recordings[worker.held.resource].(status := FailedStatus)))
  {
  }

  lemma FinishKeeps(p: Ports, w: World, i: nat, delay: nat)
    requires Inv(p, w) && i in w.workers
    ensures Inv(p, WorkerStep(p, w, i, Finish(i, delay)))
  {
    var worker := w.workers[i];
    if worker.phase.Returned? {
      ReleaseKeeps(p, w, i, worker.phase.ok, delay);
      FinishIs(p, w, i, delay);
      var released := w.(t := w.t.(jobs := ReleasedJobs(w, worker, worker.phase.ok, delay)), workers := w.workers - {i});
      if ActiveUnder(w.t, worker.held.resource, worker.held.id) { MarkFailedKeeps(p, released, worker.held.resource); }
    }
  }

  lemma ClientKeeps(p: Ports, w: World, a: Action)
    requires Inv(p, w) && !IsWorkerStep(a)
    ensures Inv(p, ClientStep(w, a))
  {
    match a
    case Tick(elapsed) => TickKeeps(p, w, elapsed);
    case AddPreview(request) => AddPreviewKeeps(p, w, request);
    case TranscribePreview(_, _, _) => TranscribePreviewKeeps(p, w, a);
    case Create(_, _, _, _, _, _) => CreateKeeps(p, w, a);
    case Promote(preview, user) => PromoteKeeps(p, w, preview, user);
    case Retry(user, id) => RetryKeeps(p, w, user, id);
    case Reanalyze(user, id, key) => ReanalyzeKeeps(p, w, user, id, key);
    case Remove(user, id) => RemoveKeeps(p, w, user, id);
    case Prune(victims, before) => PruneKeeps(p, w, victims, before);
    case Claim(worker, job, lease) => ClaimKeeps(p, w, worker, job, lease);
  }

  lemma HandlerKeeps(p: Ports, w: World, i: nat, a: Action)
    requires Inv(p, w) && IsWorkerStep(a) && a.worker == i && i in w.workers
    ensures Inv(p, WorkerStep(p, w, i, a))
  {
    match a
    case Heartbeat(_, lease) => HeartbeatKeeps(p, w, i, lease);
    case Crash(_) => CrashKeeps(p, w, i);
    case Load(_) => LoadKeeps(p, w, i);
    case VerifyDuration(_, seconds) => VerifyKeeps(p, w, i, seconds);
    case Transcribe(_, text) => TranscribeKeeps(p, w, i, text);
    case Analyze(_, suggestions, pending) => AnalyzeKeeps(p, w, i, suggestions, pending);
    case Rewrite(_, corrected, dialogue) => RewriteKeeps(p, w, i, corrected, dialogue);
    case GiveUp(_) => GiveUpKeeps(p, w, i);
    case Finish(_, delay) => FinishKeeps(p, w, i, delay);
  }

  lemma GiveUpKeeps(p: Ports, w: World, i: nat)
    requires Inv(p, w) && i in w.workers
    ensures Inv(p, WorkerStep(p, w, i, GiveUp(i)))
  {
    assert WorkerOk(w, w.workers[i]);
    PhaseKeeps(p, w, i, Returned(false));
  }

  lemma StepKeeps(p: Ports, w: World, a: Action)
    requires Inv(p, w)
    ensures Inv(p, Step(p, w, a))
  {
    if !IsWorkerStep(a) {
      ClientKeeps(p, w, a);
    } else if a.worker in w.workers {
      HandlerKeeps(p, w, a.worker, a);
    }
  }

  lemma TranscribePreviewKeeps(p: Ports, w: World, a: Action)
    requires Inv(p, w) && a.TranscribePreview?
    ensures Inv(p, ClientStep(w, a))
  {
    var w' := ClientStep(w, a);
    forall i | i in w'.workers ensures WorkerOk(w', w'.workers[i]) { assert WorkerOk(w, w.workers[i]); }
  }

  /** The invariant holds in every state of every run. */
  lemma {:induction false} RunKeeps(p: Ports, w: World, actions: seq<Action>)
    requires Inv(p, w)
    ensures Inv(p, Run(p, w, actions))
    decreases |actions|
  {
    if actions != [] {
      StepKeeps(p, w, actions[0]);
      RunKeeps(p, Step(p, w, actions[0]), actions[1..]);
    }
  }
}
