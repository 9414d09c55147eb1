/** How one step of a run changes the job rows and the recording rows. */
module PipelineRows {
  import opened Prelude
  import opened WorkQueue
  import opened Recordings
  import opened Pipeline

  lemma ReanalyzedMoves(t: Tables, user: nat, id: Id, key: nat, job: Id, now: int)
    ensures JobsMove(t.jobs, Reanalyzed(t, user, id, key, job, now).0.jobs)
  {
    var cancelled := CancelledJobs(t.jobs, id, RECORDING_KINDS, now);
    CancelMoves(t.jobs, id, RECORDING_KINDS, now);
    var row := NewJob(RecordingProcess, id, RecordingKey(job), 3, now);
    if Enqueued(cancelled, job, row).Ok? { EnqueueAfterMoves(t.jobs, cancelled, job, row); }
  }

  lemma RetriedMoves(t: Tables, user: nat, id: Id, job: Id, now: int)
    ensures JobsMove(t.jobs, Retried(t, user, id, job, now).0.jobs)
  {
    var cancelled := CancelledJobs(t.jobs, id, {RecordingStrengths}, now);
    CancelMoves(t.jobs, id, {RecordingStrengths}, now);
    var row := NewJob(RecordingProcess, id, RecordingKey(job), 3, now);
    if Enqueued(cancelled, job, row).Ok? { EnqueueAfterMoves(t.jobs, cancelled, job, row); }
    if Enqueued(t.jobs, job, row).Ok? { EnqueueAfterMoves(t.jobs, t.jobs, job, row); }
  }

  lemma PromotedMoves(t: Tables, preview: Id, user: nat, job: Id, now: int)
    ensures JobsMove(t.jobs, Promoted(t, preview, user, job, now).0.jobs)
  {
    if preview in t.previews {
      var p := t.previews[preview];
      var row := NewJob(RecordingProcess, preview, PromotePreviewKey(preview), 3, now);
      if Enqueued(t.jobs, job, row).Ok? { EnqueueAfterMoves(t.jobs, t.jobs, job, row); }
      if p.job in t.jobs && t.jobs[p.job].state in {Queued, RetryWait} {
        var mid := t.jobs[p.job := CancelRow(t.jobs[p.job], now)];
        assert mid.Keys == t.jobs.Keys;
        if Enqueued(mid, job, row).Ok? { EnqueueAfterMoves(t.jobs, mid, job, row); }
      }
    }
  }

  lemma ClientMovesJobs(w: World, a: Action)
    requires !IsWorkerStep(a) && !a.Claim?
    ensures JobsMove(w.t.jobs, ClientStep(w, a).t.jobs)
  {
    match a
    case Promote(preview, user) => PromotedMoves(w.t, preview, user, Uuid(w.next), w.now);
    case Retry(user, id) => RetriedMoves(w.t, user, id, Uuid(w.next), w.now);
    case Reanalyze(user, id, key) => ReanalyzedMoves(w.t, user, id, key, Uuid(w.next), w.now);
    case Remove(user, id) => CancelMoves(w.t.jobs, id, RECORDING_KINDS, w.now);
    case _ =>
  }

  lemma AnalyzeMovesJobs(p: Ports, w: World, i: nat, a: Action)
    requires a.Analyze? && i in w.workers
    ensures JobsMove(w.t.jobs, WorkerStep(p, w, i, a).t.jobs)
  {
    var held := w.workers[i].held;
    var row := NewJob(RecordingStrengths, held.resource, StrengthsKey(StrengthsOf(held.id)), 3, w.now);
    if Enqueued(w.t.jobs, StrengthsOf(held.id), row).Ok? { EnqueueAfterMoves(w.t.jobs, w.t.jobs, StrengthsOf(held.id), row); }
  }

  lemma RewriteMovesJobs(p: Ports, w: World, i: nat, a: Action)
    requires a.Rewrite? && i in w.workers
    ensures JobsMove(w.t.jobs, WorkerStep(p, w, i, a).t.jobs)
  {
    var row := NewJob(ShadowingSynthesize, w.workers[i].held.resource, ShadowingKey(Uuid(w.next)), 4, w.now);
    if Enqueued(w.t.jobs, Uuid(w.next), row).Ok? { EnqueueAfterMoves(w.t.jobs, w.t.jobs, Uuid(w.next), row); }
  }

  lemma FinishMovesJobs(p: Ports, w: World, i: nat, a: Action)
    requires (a.Finish? || a.Heartbeat?) && i in w.workers
    ensures JobsMove(w.t.jobs, WorkerStep(p, w, i, a).t.jobs)
  {
    var held := w.workers[i].held;
    if a.Finish? { ReleaseMoves(w.t.jobs, held, a.delay, w.now); } else { HeartbeatMoves(w.t.jobs, held, a.lease, w.now); }
  }

  lemma HandlerMovesJobs(p: Ports, w: World, i: nat, a: Action)
    requires IsWorkerStep(a) && i in w.workers
    ensures JobsMove(w.t.jobs, WorkerStep(p, w, i, a).t.jobs)
  {
    if a.Analyze? {
      AnalyzeMovesJobs(p, w, i, a);
    } else if a.Rewrite? {
      RewriteMovesJobs(p, w, i, a);
    } else if a.Finish? || a.Heartbeat? {
      FinishMovesJobs(p, w, i, a);
    } else {
      QuietHandler(p, w, i, a);
    }
  }

  lemma QuietHandler(p: Ports, w: World, i: nat, a: Action)
    requires i in w.workers && (a.Crash? || a.Load? || a.VerifyDuration? || a.Transcribe? || a.GiveUp?)
    ensures WorkerStep(p, w, i, a).t.jobs == w.t.jobs
  {
  }

  /** Every step other than a claim releases, extends or ignores each job row. */
  lemma StepMovesJobs(p: Ports, w: World, a: Action)
    requires !a.Claim?
    ensures JobsMove(w.t.jobs, Step(p, w, a).t.jobs)
  {
    if !IsWorkerStep(a) {
      ClientMovesJobs(w, a);
    } else if a.worker in w.workers {
      HandlerMovesJobs(p, w, a.worker, a);
    }
  }

  // ---- Recordings ---------------------------------------------------------------------

  function Rank(row: Recording): nat {
    match row.stage
    case Some(TranscribingStage) => 0
    case Some(SuggestionsStage) => 1
    case Some(RewritingStage) => 2
    case None => 3
  }

  /** Under one job the committed stage only grows, and an outcome is final. */
  predicate NoRegress(before: Recording, after: Recording) {
    && Rank(before) <= Rank(after)
    && (before.status != Processing ==> after.status == before.status && after.stage == before.stage)
  }

  predicate RecordingMoves(before: Recording, after: Recording, next: nat, a: Action) {
    && (after.job == before.job ==> NoRegress(before, after))
    && (after.job != before.job ==> after.job == Uuid(next))
    && after.user == before.user && after.request == before.request
    && (!a.VerifyDuration? ==> after.duration == before.duration)
  }

  /** The actions that put a recording under a new job. */
  lemma RearmingMovesRecording(w: World, a: Action, r: Id)
    requires (a.Retry? || a.Reanalyze?) && r in w.t.recordings && r in ClientStep(w, a).t.recordings
    requires Known(w.t.recordings[r].job, w.next)
    ensures RecordingMoves(w.t.recordings[r], ClientStep(w, a).t.recordings[r], w.next, a)
  {
  }

  lemma OtherClientMovesRecording(w: World, a: Action, r: Id)
    requires !IsWorkerStep(a) && !a.Retry? && !a.Reanalyze? && r in w.t.recordings && r in ClientStep(w, a).t.recordings
    ensures ClientStep(w, a).t.recordings[r] == w.t.recordings[r]
  {
  }

  lemma ClientMovesRecording(w: World, a: Action, r: Id)
    requires !IsWorkerStep(a) && r in w.t.recordings && r in ClientStep(w, a).t.recordings
    requires Known(w.t.recordings[r].job, w.next)
    ensures RecordingMoves(w.t.recordings[r], ClientStep(w, a).t.recordings[r], w.next, a)
  {
    if a.Retry? || a.Reanalyze? {
      RearmingMovesRecording(w, a, r);
    } else {
      OtherClientMovesRecording(w, a, r);
    }
  }

  lemma VerifyMovesRecording(p: Ports, w: World, a: Action, r: Id)
    requires a.VerifyDuration? && a.worker in w.workers && r in w.t.recordings
    ensures r in Step(p, w, a).t.recordings && RecordingMoves(w.t.recordings[r], Step(p, w, a).t.recordings[r], w.next, a)
  {
  }

  lemma TranscribeMovesRecording(p: Ports, w: World, a: Action, r: Id)
    requires a.Transcribe? && a.worker in w.workers && r in w.t.recordings && WorkerOk(w, w.workers[a.worker])
    ensures r in Step(p, w, a).t.recordings && RecordingMoves(w.t.recordings[r], Step(p, w, a).t.recordings[r], w.next, a)
  {
    TranscribeIs(p, w, a.worker, a.text);
  }

  lemma AnalyzeMovesRecording(p: Ports, w: World, a: Action, r: Id)
    requires a.Analyze? && a.worker in w.workers && r in w.t.recordings && WorkerOk(w, w.workers[a.worker])
    ensures r in Step(p, w, a).t.recordings && RecordingMoves(w.t.recordings[r], Step(p, w, a).t.recordings[r], w.next, a)
  {
    AnalyzeIs(p, w, a.worker, a.suggestions, a.strengthsPending);
  }

  lemma RewriteMovesRecording(p: Ports, w: World, a: Action, r: Id)
    requires a.Rewrite? && a.worker in w.workers && r in w.t.recordings && WorkerOk(w, w.workers[a.worker])
    ensures r in Step(p, w, a).t.recordings && RecordingMoves(w.t.recordings[r], Step(p, w, a).t.recordings[r], w.next, a)
  {
    RewriteIs(p, w, a.worker, a.corrected, a.dialogue);
  }

  lemma FinishMovesRecording(p: Ports, w: World, a: Action, r: Id)
    requires a.Finish? && a.worker in w.workers && r in w.t.recordings
    ensures r in Step(p, w, a).t.recordings && RecordingMoves(w.t.recordings[r], Step(p, w, a).t.recordings[r], w.next, a)
  {
    if w.workers[a.worker].phase.Returned? { FinishIs(p, w, a.worker, a.delay); }
  }

  lemma QuietMovesRecording(p: Ports, w: World, a: Action, r: Id)
    requires a.Heartbeat? || a.Crash? || a.Load? || a.GiveUp?
    requires r in w.t.recordings
    ensures r in Step(p, w, a).t.recordings && RecordingMoves(w.t.recordings[r], Step(p, w, a).t.recordings[r], w.next, a)
  {
  }

  lemma HandlerMovesRecording(p: Ports, w: World, a: Action, r: Id)
    requires IsWorkerStep(a) && a.worker in w.workers && r in w.t.recordings && WorkerOk(w, w.workers[a.worker])
    ensures r in Step(p, w, a).t.recordings && RecordingMoves(w.t.recordings[r], Step(p, w, a).t.recordings[r], w.next, a)
  {
    match a
    case VerifyDuration(_, _) => VerifyMovesRecording(p, w, a, r);
    case Transcribe(_, _) => TranscribeMovesRecording(p, w, a, r);
    case Analyze(_, _, _) => AnalyzeMovesRecording(p, w, a, r);
    case Rewrite(_, _, _) => RewriteMovesRecording(p, w, a, r);
    case Finish(_, _) => FinishMovesRecording(p, w, a, r);
    case _ => QuietMovesRecording(p, w, a, r);
  }

  lemma InvAt(p: Ports, w: World, r: Id)
    requires Inv(p, w) && r in w.t.recordings
    ensures Known(w.t.recordings[r].job, w.next)
    ensures forall i :: i in w.workers ==> WorkerOk(w, w.workers[i])
  {
  }

  lemma RowMoves(p: Ports, w: World, a: Action, r: Id)
    requires r in w.t.recordings && r in Step(p, w, a).t.recordings && Known(w.t.recordings[r].job, w.next)
    requires forall i :: i in w.workers ==> WorkerOk(w, w.workers[i])
    ensures RecordingMoves(w.t.recordings[r], Step(p, w, a).t.recordings[r], w.next, a)
  {
    if !IsWorkerStep(a) {
      ClientMovesRecording(w, a, r);
    } else if a.worker in w.workers {
      HandlerMovesRecording(p, w, a, r);
    }
  }

  lemma StepMovesRecording(p: Ports, w: World, a: Action, r: Id)
    requires Inv(p, w) && r in w.t.recordings && r in Step(p, w, a).t.recordings
    ensures RecordingMoves(w.t.recordings[r], Step(p, w, a).t.recordings[r], w.next, a)
  {
    InvAt(p, w, r);
    RowMoves(p, w, a, r);
  }
}
