/** The transactions that write a recording row (the `SQL...` repositories of `internal/recording`,
    `internal/auth/guest_promotion.go`).

    `Tables` is the part of the database they touch.  The functions say what a committed
    transaction leaves behind; class `Repository` performs each transaction statement by
    statement, rolls back where the source does, and is proved equal to them. */
module Recordings {
  import opened Prelude
  import opened Text
  import opened WorkQueue

  const ACCOUNT_MAX_SESSION_SECONDS := 600
  const GUEST_MAX_SESSION_SECONDS := 180

  datatype Status = Processing | Ready | FailedStatus

  datatype Stage = TranscribingStage | SuggestionsStage | RewritingStage

  datatype Recording = Recording(
    user: nat, request: nat, duration: int,
    status: Status, stage: Option<Stage>, job: Id,
    transcript: string, suggestions: seq<string>, corrected: string, shadowing: Option<Id>)

  datatype PreviewState = PreviewQueued | PreviewReady | PreviewPromoted

  datatype Preview = Preview(state: PreviewState, job: Id, request: nat, duration: int, transcript: string)

  datatype Tables = Tables(
    jobs: Jobs, recordings: map<Id, Recording>, previews: map<Id, Preview>, requests: set<(Id, nat)>)

  datatype Save = Advanced | NotAdvanced | SaveFailed

  datatype CreateOutcome = Created | Replayed | CreateConflict | CreateRefused

  datatype ReanalysisOutcome = Scheduled | AlreadyRequested | ReanalysisNotFound | ReanalysisConflict | ReanalysisFailed

  /** What `LoadProcessingWork` and every fenced UPDATE match: this recording, processing, under this job. */
  predicate ActiveUnder(t: Tables, recording: Id, job: Id) {
    recording in t.recordings && t.recordings[recording].status == Processing && t.recordings[recording].job == job
  }

  predicate Fenced(t: Tables, held: Claimed) { ActiveUnder(t, held.resource, held.id) && Holds(t.jobs, held) }

  function WithRecording(t: Tables, id: Id, row: Recording): Tables { t.(recordings := t.recordings[id := row]) }

  // ---- Fenced writes of the processing worker -----------------------------------------

  function VerifiedDuration(t: Tables, held: Claimed, seconds: int, now: int): (Tables, bool) {
    if LeaseActive(t.jobs, held, now) && ActiveUnder(t, held.resource, held.id) && 1 <= seconds <= ACCOUNT_MAX_SESSION_SECONDS
    then (WithRecording(t, held.resource, t.recordings[held.resource].(duration := seconds)), true)
    else (t, false)
  }

  function SavedTranscript(t: Tables, held: Claimed, transcript: string): (Tables, Save) {
    if Fenced(t, held)
    then (WithRecording(t, held.resource,
            t.recordings[held.resource].(transcript := transcript, stage := Some(SuggestionsStage))), Advanced)
    else (t, NotAdvanced)
  }

  function SavedAnalysis(t: Tables, held: Claimed, suggestions: seq<string>, strengthsPending: bool, now: int): (Tables, Save) {
    if !LeaseActive(t.jobs, held, now) then (t, SaveFailed)
    else if !ActiveUnder(t, held.resource, held.id) then (t, NotAdvanced)
    else
      var saved := WithRecording(t, held.resource,
        t.recordings[held.resource].(suggestions := suggestions, stage := Some(RewritingStage)));
      if !strengthsPending then (saved, Advanced)
      else
        var strengths := StrengthsOf(held.id);
        match Enqueued(t.jobs, strengths, NewJob(RecordingStrengths, held.resource, StrengthsKey(strengths), 3, now))
        case Ok(jobs) => (saved.(jobs := jobs), Advanced)
        case Err(_) => (t, SaveFailed)
  }

  /** `dialogue` is the outcome of comparing the corrected answers with the saved turns; it is
      `None` for a rewrite without answers of a recording that is not an interview. */
  function CompletedRecording(t: Tables, held: Claimed, corrected: string, shadowing: Id, dialogue: Option<bool>, now: int): (Tables, Save) {
    if !LeaseActive(t.jobs, held, now) then (t, SaveFailed)
    else if !ActiveUnder(t, held.resource, held.id) then (t, NotAdvanced)
    else if (dialogue.Some? && !dialogue.value) || (dialogue.None? && TrimSpace(corrected) == "") then (t, SaveFailed)
    else
      match Enqueued(t.jobs, shadowing, NewJob(ShadowingSynthesize, held.resource, ShadowingKey(shadowing), 4, now))
      case Err(_) => (t, SaveFailed)
      case Ok(jobs) =>
        (WithRecording(t, held.resource,
           t.recordings[held.resource].(status := Ready, stage := None, corrected := corrected, shadowing := Some(shadowing)))
           .(jobs := jobs), Advanced)
  }

  function FinalizedFailure(t: Tables, job: Id, recording: Id): Tables {
    if ActiveUnder(t, recording, job)
    then WithRecording(t, recording, t.recordings[recording].(status := FailedStatus))
    else t
  }

  /** `Store.Fail` with the recording finalizer in the same transaction. */
  function FailedClaim(t: Tables, held: Claimed, delay: int, now: int): Tables {
    var released := t.(jobs := FailedJobs(t.jobs, held, delay, now));
    if Holds(t.jobs, held) && IsTerminalFailure(held) && held.kind == RecordingProcess
    then FinalizedFailure(released, held.id, held.resource)
    else released
  }

  // ---- Re-arming, deleting, creating --------------------------------------------------

  function RearmedRow(row: Recording, job: Id): Recording {
    row.(status := Processing, job := job,
         transcript := if row.stage == Some(TranscribingStage) then "" else row.transcript,
         suggestions := if row.stage in {Some(TranscribingStage), Some(SuggestionsStage)} then [] else row.suggestions,
         corrected := "", shadowing := None)
  }

  function Retried(t: Tables, user: nat, id: Id, job: Id, now: int): (Tables, bool) {
    if id !in t.recordings || t.recordings[id].user != user || t.recordings[id].status != FailedStatus then (t, false)
    else
      var row := t.recordings[id];
      var jobs := if row.stage in {Some(TranscribingStage), Some(SuggestionsStage)}
                  then CancelledJobs(t.jobs, id, {RecordingStrengths}, now) else t.jobs;
      match Enqueued(jobs, job, NewJob(RecordingProcess, id, RecordingKey(job), 3, now))
      case Ok(after) => (WithRecording(t, id, RearmedRow(row, job)).(jobs := after), true)
      case Err(_) => (t, false)
  }

  const RECORDING_KINDS: set<Kind> := {RecordingProcess, RecordingStrengths, ShadowingSynthesize}

  function Reanalyzed(t: Tables, user: nat, id: Id, key: nat, job: Id, now: int): (Tables, ReanalysisOutcome) {
    if id !in t.recordings || t.recordings[id].user != user then (t, ReanalysisNotFound)
    else if (id, key) in t.requests then (t, AlreadyRequested)
    else if t.recordings[id].status != Ready || t.recordings[id].transcript == "" then (t, ReanalysisConflict)
    else
      match Enqueued(CancelledJobs(t.jobs, id, RECORDING_KINDS, now), job, NewJob(RecordingProcess, id, RecordingKey(job), 3, now))
      case Err(_) => (t, ReanalysisFailed)
      case Ok(jobs) =>
        (WithRecording(t, id, t.recordings[id].(status := Processing, stage := Some(SuggestionsStage), job := job,
                                                 suggestions := [], corrected := "", shadowing := None))
           .(jobs := jobs, requests := t.requests + {(id, key)}), Scheduled)
  }

  /** The reanalysis requests go with the recording (`ON DELETE CASCADE`). */
  function Removed(t: Tables, user: nat, id: Id, now: int): (Tables, bool) {
    if id !in t.recordings || t.recordings[id].user != user then (t, false)
    else
      (t.(jobs := CancelledJobs(t.jobs, id, RECORDING_KINDS, now),
          recordings := t.recordings - {id},
          requests := set r | r in t.requests && r.0 != id), true)
  }

  function CreateRecordingId(principal: nat, key: nat): Id { Derived(RecordingScope, principal, key) }

  function CreateJobId(principal: nat, key: nat): Id { Derived(RecordingJobScope, principal, key) }

  function CreateKey(principal: nat, key: nat): IdempotencyKey { RecordingCreateKey(CreateRecordingId(principal, key)) }

  function FreshRecording(user: nat, request: nat, duration: int, stage: Stage, job: Id, transcript: string): Recording {
    Recording(user, request, duration, Processing, Some(stage), job, transcript, [], "", None)
  }

  /** `admitted` stands for the quota, media and interview-link checks inside the transaction. */
  function CreatedRecording(t: Tables, principal: nat, user: nat, key: nat, request: nat, duration: int, admitted: bool, now: int)
    : (Tables, CreateOutcome)
  {
    var id := CreateRecordingId(principal, key);
    var job := CreateJobId(principal, key);
    if id in t.recordings && t.recordings[id].user == user then
      (t, if t.recordings[id].request == request && t.recordings[id].duration == duration then Replayed else CreateConflict)
    else if !admitted || id in t.recordings then (t, CreateRefused)
    else
      match Enqueued(t.jobs, job, NewJob(RecordingProcess, id, CreateKey(principal, key), 3, now))
      case Err(_) => (t, CreateRefused)
      case Ok(jobs) =>
        (WithRecording(t, id, FreshRecording(user, request, duration, TranscribingStage, job, "")).(jobs := jobs), Created)
  }

  function PromotionStage(p: Preview): Stage { if p.state == PreviewReady then SuggestionsStage else TranscribingStage }

  /** The preview's own id becomes the recording id; a waiting preview job is cancelled, a running one is left to its fence. */
  function Promoted(t: Tables, preview: Id, user: nat, job: Id, now: int): (Tables, bool) {
    if preview !in t.previews || t.previews[preview].state == PreviewPromoted || preview in t.recordings then (t, false)
    else
      var p := t.previews[preview];
      var jobs := if p.job in t.jobs && t.jobs[p.job].kind == GuestPreview && t.jobs[p.job].state in {Queued, RetryWait}
                  then t.jobs[p.job := CancelRow(t.jobs[p.job], now)] else t.jobs;
      match Enqueued(jobs, job, NewJob(RecordingProcess, preview, PromotePreviewKey(preview), 3, now))
      case Err(_) => (t, false)
      case Ok(after) =>
        (WithRecording(t, preview,
           FreshRecording(user, p.request, if p.state == PreviewReady then p.duration else GUEST_MAX_SESSION_SECONDS,
                          PromotionStage(p), job, if p.state == PreviewReady then p.transcript else ""))
           .(jobs := after, previews := t.previews[preview := p.(state := PreviewPromoted)]), true)
  }

  // ---- Where a recording goes on ------------------------------------------------------

  /** A new job finds its key or its identifier free: the insert is not refused. */
  ghost predicate JobFits(jobs: Jobs, job: Id, key: IdempotencyKey) { job !in jobs || exists j :: j in jobs && jobs[j].key == key }

  /** If the key is free, the job waits for its first attempt. */
  ghost predicate JobWaits(before: Jobs, after: Jobs, job: Id, resource: Id, key: IdempotencyKey, now: int) {
    (forall j :: j in before ==> before[j].key != key) ==>
      job in after && after[job] == Job(RecordingProcess, resource, key, Queued, 0, 3, now, None, None, None)
  }

  /** Besides the new job, exactly the live jobs of the kinds for the resource changed: they are
      cancelled. */
  ghost predicate OthersCancelled(before: Jobs, after: Jobs, job: Id, resource: Id, kinds: set<Kind>, now: int) {
    && after.Keys <= before.Keys + {job}
    && forall j :: j in before ==>
         j in after && after[j] ==
                     if before[j].state in {Queued, Running, RetryWait} && before[j].resource == resource && before[j].kind in kinds
                     then before[j].(state := Cancelled, completedAt := Some(now), leaseToken := None, leaseExpires := None)
                     else before[j]
  }

  lemma EnqueuedOthers(before: Jobs, cancelled: Jobs, job: Id, row: Job, resource: Id, kinds: set<Kind>, now: int)
    requires cancelled.Keys == before.Keys && OthersCancelled(before, cancelled, job, resource, kinds, now)
    ensures
      var enqueued := Enqueued(cancelled, job, row);
      enqueued.Ok? ==> OthersCancelled(before, enqueued.value, job, resource, kinds, now)
  {
  }

  lemma CancelledFit(jobs: Jobs, cancelled: Jobs, id: Id, resource: Id, key: IdempotencyKey, now: int)
    requires cancelled.Keys == jobs.Keys && forall j :: j in jobs ==> cancelled[j].key == jobs[j].key
    ensures
      var enqueued := Enqueued(cancelled, id, NewJob(RecordingProcess, resource, key, 3, now));
      (enqueued.Ok? <==> JobFits(jobs, id, key)) && (enqueued.Ok? ==> JobWaits(jobs, enqueued.value, id, resource, key, now))
  {
    assert KeyTaken(cancelled, key) <==> exists j :: j in jobs && jobs[j].key == key by {
      if j :| j in jobs && jobs[j].key == key { assert cancelled[j].key == key; }
    }
  }

  /** Exactly the caller's failed recordings are retried.  A retried recording goes on at its stage:
      what that stage and the later ones had written is cleared, the rest stays. */
  ghost predicate RetryGoesOn(t: Tables, t': Tables, user: nat, id: Id, job: Id, now: int, claimed: bool) {
    && (claimed <==>
          id in t.recordings && t.recordings[id].user == user && t.recordings[id].status == FailedStatus && JobFits(t.jobs, job, RecordingKey(job)))
    && (claimed ==>
          && id in t'.recordings && t'.recordings == t.recordings[id := t'.recordings[id]]
          && var row, was := t'.recordings[id], t.recordings[id];
          && row.stage == was.stage && row.status == Processing && row.job == job
          && row.user == was.user && row.request == was.request && row.duration == was.duration
          && row.transcript == (if was.stage == Some(TranscribingStage) then "" else was.transcript)
          && row.suggestions == (if was.stage in {Some(TranscribingStage), Some(SuggestionsStage)} then [] else was.suggestions)
          && row.corrected == "" && row.shadowing == None)
    && (claimed ==> JobWaits(t.jobs, t'.jobs, job, id, RecordingKey(job), now) && t'.previews == t.previews && t'.requests == t.requests)
    && (claimed ==> OthersCancelled(t.jobs, t'.jobs, job, id,
                      if t.recordings[id].stage in {Some(TranscribingStage), Some(SuggestionsStage)} then {RecordingStrengths} else {}, now))
    && (!claimed ==> t' == t)
  }

  lemma RetriedGoesOn(t: Tables, user: nat, id: Id, job: Id, now: int)
    ensures RetryGoesOn(t, Retried(t, user, id, job, now).0, user, id, job, now, Retried(t, user, id, job, now).1)
  {
    var row := NewJob(RecordingProcess, id, RecordingKey(job), 3, now);
    CancelledFit(t.jobs, t.jobs, job, id, RecordingKey(job), now);
    EnqueuedOthers(t.jobs, t.jobs, job, row, id, {}, now);
    CancelledAre(t.jobs, id, {RecordingStrengths}, now);
    CancelledFit(t.jobs, CancelledJobs(t.jobs, id, {RecordingStrengths}, now), job, id, RecordingKey(job), now);
    EnqueuedOthers(t.jobs, CancelledJobs(t.jobs, id, {RecordingStrengths}, now), job, row, id, {RecordingStrengths}, now);
  }

  /** Exactly the caller's ready recordings with a transcript start over, once per request; they go
      back to the suggestions and keep the transcript. */
  ghost predicate FeedbackStartsOver(t: Tables, t': Tables, user: nat, id: Id, key: nat, job: Id, now: int, outcome: ReanalysisOutcome) {
    && (outcome == ReanalysisNotFound <==> id !in t.recordings || t.recordings[id].user != user)
    && (outcome == AlreadyRequested <==> id in t.recordings && t.recordings[id].user == user && (id, key) in t.requests)
    && (outcome == Scheduled <==>
          && id in t.recordings && t.recordings[id].user == user && (id, key) !in t.requests
          && t.recordings[id].status == Ready && t.recordings[id].transcript != "" && JobFits(t.jobs, job, RecordingKey(job)))
    && (outcome == Scheduled ==>
          && id in t'.recordings && t'.recordings == t.recordings[id := t'.recordings[id]]
          && var row, was := t'.recordings[id], t.recordings[id];
          && row.stage == Some(SuggestionsStage) && row.status == Processing && row.job == job
          && row.user == was.user && row.request == was.request && row.duration == was.duration && row.transcript == was.transcript
          && row.suggestions == [] && row.corrected == "" && row.shadowing == None)
    && (outcome == ReanalysisConflict <==>
          && id in t.recordings && t.recordings[id].user == user && (id, key) !in t.requests
          && (t.recordings[id].status != Ready || t.recordings[id].transcript == ""))
    && (outcome == Scheduled ==>
          OthersCancelled(t.jobs, t'.jobs, job, id, {RecordingProcess, RecordingStrengths, ShadowingSynthesize}, now))
    && (outcome == Scheduled ==>
          && JobWaits(t.jobs, t'.jobs, job, id, RecordingKey(job), now)
          && t'.previews == t.previews && t'.requests == t.requests + {(id, key)})
    && (outcome != Scheduled ==> t' == t)
  }

  lemma ReanalyzedStartsOver(t: Tables, user: nat, id: Id, key: nat, job: Id, now: int)
    ensures FeedbackStartsOver(t, Reanalyzed(t, user, id, key, job, now).0, user, id, key, job, now, Reanalyzed(t, user, id, key, job, now).1)
  {
    var cancelled := CancelledJobs(t.jobs, id, RECORDING_KINDS, now);
    CancelledAre(t.jobs, id, RECORDING_KINDS, now);
    CancelledFit(t.jobs, cancelled, job, id, RecordingKey(job), now);
    EnqueuedOthers(t.jobs, cancelled, job, NewJob(RecordingProcess, id, RecordingKey(job), 3, now), id, RECORDING_KINDS, now);
  }

  /** A preview is promoted exactly once.  A ready one keeps its transcript and its duration, any
      other is transcribed; its own job is cancelled if it still waits. */
  ghost predicate PreviewGoesOn(t: Tables, t': Tables, preview: Id, user: nat, job: Id, now: int, promoted: bool) {
    && (promoted <==>
          && preview in t.previews && t.previews[preview].state != PreviewPromoted && preview !in t.recordings
          && JobFits(t.jobs, job, PromotePreviewKey(preview)))
    && (promoted ==>
          && preview in t'.recordings && t'.recordings == t.recordings[preview := t'.recordings[preview]]
          && t'.previews == t.previews[preview := t.previews[preview].(state := PreviewPromoted)]
          && var row, was := t'.recordings[preview], t.previews[preview];
          && row.user == user && row.request == was.request && row.status == Processing && row.job == job
          && row.suggestions == [] && row.corrected == "" && row.shadowing == None
          && (was.state == PreviewReady ==>
                row.stage == Some(SuggestionsStage) && row.transcript == was.transcript && row.duration == was.duration)
          && (was.state == PreviewQueued ==> row.stage == Some(TranscribingStage) && row.transcript == "" && row.duration == 180))
    && (promoted ==> t'.requests == t.requests)
    && (!promoted ==> t' == t)
  }

  /** The preview's own job is cancelled if it waits, and the new job waits; every other job stays. */
  ghost predicate PreviewJobsGoOn(before: Jobs, after: Jobs, own: Id, job: Id, preview: Id, now: int) {
    && JobWaits(before, after, job, preview, PromotePreviewKey(preview), now) && after.Keys <= before.Keys + {job}
    && forall j :: j in before ==>
         j in after && after[j] ==
                     if j == own && before[j].kind == GuestPreview && before[j].state in {Queued, RetryWait}
                     then before[j].(state := Cancelled, completedAt := Some(now), leaseToken := None, leaseExpires := None)
                     else before[j]
  }

  lemma PromotedJobsGoOn(t: Tables, preview: Id, user: nat, job: Id, now: int)
    requires Promoted(t, preview, user, job, now).1
    ensures PreviewJobsGoOn(t.jobs, Promoted(t, preview, user, job, now).0.jobs, t.previews[preview].job, job, preview, now)
  {
    var waiting := t.previews[preview].job;
    CancelledFit(t.jobs, t.jobs, job, preview, PromotePreviewKey(preview), now);
    if waiting in t.jobs {
      CancelledFit(t.jobs, t.jobs[waiting := CancelRow(t.jobs[waiting], now)], job, preview, PromotePreviewKey(preview), now);
    }
  }

  lemma PromotedGoesOn(t: Tables, preview: Id, user: nat, job: Id, now: int)
    ensures PreviewGoesOn(t, Promoted(t, preview, user, job, now).0, preview, user, job, now, Promoted(t, preview, user, job, now).1)
  {
    if preview in t.previews {
      var waiting := t.previews[preview].job;
      CancelledFit(t.jobs, t.jobs, job, preview, PromotePreviewKey(preview), now);
      if waiting in t.jobs {
        CancelledFit(t.jobs, t.jobs[waiting := CancelRow(t.jobs[waiting], now)], job, preview, PromotePreviewKey(preview), now);
      }
    }
  }

  // ---- The repository -----------------------------------------------------------------

  class Repository {
    const queue: Store
    var recordings: map<Id, Recording>
    var previews: map<Id, Preview>
    var requests: set<(Id, nat)>

    constructor ()
      ensures fresh(queue) && View() == Tables(map[], map[], map[], {})
    {
      queue := new Store();
      recordings, previews, requests := map[], map[], {};
    }

    function View(): Tables
      reads this, queue
    {
      Tables(queue.jobs, recordings, previews, requests)
    }

    /** The WHERE clause shared by the worker's updates. */
    function Matches(held: Claimed): (matched: bool)
      reads this
      ensures matched <==> ActiveUnder(Tables(map[], recordings, previews, requests), held.resource, held.id)
    {
      held.resource in recordings && recordings[held.resource].status == Processing && recordings[held.resource].job == held.id
    }

    /** `LoadProcessingWork`: an unfenced read. */
    method LoadProcessingWork(held: Claimed) returns (work: Option<Recording>)
      ensures work == if ActiveUnder(View(), held.resource, held.id) then Some(recordings[held.resource]) else None
      ensures work.Some? <==>
        held.resource in recordings && recordings[held.resource].status == Processing && recordings[held.resource].job == held.id
    {
      if Matches(held) {
        return Some(recordings[held.resource]);
      }
      return None;
    }

    method VerifyDuration(held: Claimed, seconds: int, now: int) returns (ok: bool)
      modifies this`recordings
      ensures (View(), ok) == VerifiedDuration(old(View()), held, seconds, now)
      ensures ok <==>
        && held.id in old(queue.jobs) && old(queue.jobs)[held.id].state == Running && old(queue.jobs)[held.id].leaseToken == Some(held.token)
        && old(queue.jobs)[held.id].leaseExpires.Some? && old(queue.jobs)[held.id].leaseExpires.value > now
        && held.resource in old(recordings) && old(recordings)[held.resource].status == Processing && old(recordings)[held.resource].job == held.id
        && 1 <= seconds <= 600
      ensures recordings == if ok then old(recordings)[held.resource := old(recordings)[held.resource].(duration := seconds)] else old(recordings)
    {
      if !LeaseActive(queue.jobs, held, now) || !Matches(held) {
        return false;
      }
      if seconds < 1 || seconds > ACCOUNT_MAX_SESSION_SECONDS {
        return false;
      }
      recordings := recordings[held.resource := recordings[held.resource].(duration := seconds)];
      return true;
    }

    method SaveTranscript(held: Claimed, transcript: string) returns (saved: Save)
      modifies this`recordings
      ensures (View(), saved) == SavedTranscript(old(View()), held, transcript)
      ensures saved == Advanced <==>
        && held.id in old(queue.jobs) && old(queue.jobs)[held.id].state == Running && old(queue.jobs)[held.id].leaseToken == Some(held.token)
        && held.resource in old(recordings) && old(recordings)[held.resource].status == Processing && old(recordings)[held.resource].job == held.id
      ensures saved == Advanced ==>
        recordings == old(recordings)[held.resource :=
          old(recordings)[held.resource].(transcript := transcript, stage := Some(SuggestionsStage))]
      ensures saved != Advanced ==> saved == NotAdvanced && recordings == old(recordings)
    {
      if !Matches(held) || !Holds(queue.jobs, held) {
        return NotAdvanced;
      }
      var row := recordings[held.resource].(transcript := transcript);
      row := row.(stage := Some(SuggestionsStage));
      recordings := recordings[held.resource := row];
      return Advanced;
    }

    method SaveAnalysis(held: Claimed, suggestions: seq<string>, strengthsPending: bool, now: int) returns (saved: Save)
      modifies this`recordings, queue
      ensures (View(), saved) == SavedAnalysis(old(View()), held, suggestions, strengthsPending, now)
      ensures saved == Advanced ==>
        && held.id in old(queue.jobs) && old(queue.jobs)[held.id].state == Running && old(queue.jobs)[held.id].leaseToken == Some(held.token)
        && old(queue.jobs)[held.id].leaseExpires.Some? && old(queue.jobs)[held.id].leaseExpires.value > now
        && held.resource in old(recordings) && old(recordings)[held.resource].status == Processing && old(recordings)[held.resource].job == held.id
        && recordings == old(recordings)[held.resource :=
             old(recordings)[held.resource].(suggestions := suggestions, stage := Some(RewritingStage))]
      ensures saved == NotAdvanced ==>
        !(held.resource in old(recordings) && old(recordings)[held.resource].status == Processing && old(recordings)[held.resource].job == held.id)
      ensures saved == SaveFailed ==>
        || !(&& held.id in old(queue.jobs) && old(queue.jobs)[held.id].state == Running && old(queue.jobs)[held.id].leaseToken == Some(held.token)
          && old(queue.jobs)[held.id].leaseExpires.Some? && old(queue.jobs)[held.id].leaseExpires.value > now)
        || (strengthsPending && StrengthsOf(held.id) in old(queue.jobs))
      ensures saved == Advanced && !strengthsPending ==> queue.jobs == old(queue.jobs)
      ensures saved == Advanced && strengthsPending && (forall j :: j in old(queue.jobs) ==> old(queue.jobs)[j].key != StrengthsKey(StrengthsOf(held.id))) ==>
        && StrengthsOf(held.id) !in old(queue.jobs)
        && queue.jobs == old(queue.jobs)[StrengthsOf(held.id) :=
             Job(RecordingStrengths, held.resource, StrengthsKey(StrengthsOf(held.id)), Queued, 0, 3, now, None, None, None)]
      ensures saved != Advanced ==> View() == old(View())
    {
      if !LeaseActive(queue.jobs, held, now) {
        return SaveFailed;
      }
      if !Matches(held) {
        return NotAdvanced;
      }
      var before := recordings;
      var row := recordings[held.resource].(suggestions := suggestions, stage := Some(RewritingStage));
      recordings := recordings[held.resource := row];
      if strengthsPending {
        var strengths := StrengthsOf(held.id);
        var error := queue.Enqueue(strengths, RecordingStrengths, held.resource, StrengthsKey(strengths), 3, now);
        if error.Some? {
          recordings := before; // rollback
          return SaveFailed;
        }
      }
      return Advanced;
    }

    method CompleteRecording(held: Claimed, corrected: string, shadowing: Id, dialogue: Option<bool>, now: int) returns (saved: Save)
      modifies this`recordings, queue
      ensures (View(), saved) == CompletedRecording(old(View()), held, corrected, shadowing, dialogue, now)
      ensures saved == Advanced ==>
        && held.id in old(queue.jobs) && old(queue.jobs)[held.id].state == Running && old(queue.jobs)[held.id].leaseToken == Some(held.token)
        && old(queue.jobs)[held.id].leaseExpires.Some? && old(queue.jobs)[held.id].leaseExpires.value > now
        && held.resource in old(recordings) && old(recordings)[held.resource].status == Processing && old(recordings)[held.resource].job == held.id
        && (dialogue == Some(true) || (dialogue == None && TrimSpace(corrected) != ""))
        && recordings == old(recordings)[held.resource :=
             old(recordings)[held.resource].(status := Ready, stage := None, corrected := corrected, shadowing := Some(shadowing))]
      ensures saved == NotAdvanced ==>
        !(held.resource in old(recordings) && old(recordings)[held.resource].status == Processing && old(recordings)[held.resource].job == held.id)
      ensures saved == SaveFailed ==>
        || !(&& held.id in old(queue.jobs) && old(queue.jobs)[held.id].state == Running && old(queue.jobs)[held.id].leaseToken == Some(held.token)
          && old(queue.jobs)[held.id].leaseExpires.Some? && old(queue.jobs)[held.id].leaseExpires.value > now)
        || dialogue == Some(false) || (dialogue == None && TrimSpace(corrected) == "") || shadowing in old(queue.jobs)
      ensures saved == Advanced && (forall j :: j in old(queue.jobs) ==> old(queue.jobs)[j].key != ShadowingKey(shadowing)) ==>
        && shadowing !in old(queue.jobs)
        && queue.jobs == old(queue.jobs)[shadowing :=
             Job(ShadowingSynthesize, held.resource, ShadowingKey(shadowing), Queued, 0, 4, now, None, None, None)]
      ensures saved != Advanced ==> View() == old(View())
    {
      if !LeaseActive(queue.jobs, held, now) {
        return SaveFailed;
      }
      if !Matches(held) {
        return NotAdvanced;
      }
      var before := recordings;
      var row := recordings[held.resource].(status := Ready, stage := None);
      row := row.(corrected := corrected, shadowing := Some(shadowing));
      recordings := recordings[held.resource := row];
      if dialogue.Some? {
        if !dialogue.value {
          recordings := before; // rollback
          return SaveFailed;
        }
      } else if TrimSpace(corrected) == "" {
        recordings := before; // rollback
        return SaveFailed;
      }
      var error := queue.Enqueue(shadowing, ShadowingSynthesize, held.resource, ShadowingKey(shadowing), 4, now);
      if error.Some? {
        recordings := before; // rollback
        return SaveFailed;
      }
      return Advanced;
    }

    method FinalizeFailure(job: Id, recording: Id)
      modifies this`recordings
      ensures View() == FinalizedFailure(old(View()), job, recording)
      ensures recordings ==
        if recording in old(recordings) && old(recordings)[recording].status == Processing && old(recordings)[recording].job == job
        then old(recordings)[recording := old(recordings)[recording].(status := FailedStatus)] else old(recordings)
    {
      if recording in recordings && recordings[recording].status == Processing && recordings[recording].job == job {
        recordings := recordings[recording := recordings[recording].(status := FailedStatus)];
      }
    }

    method Fail(held: Claimed, delay: int, now: int)
      modifies this`recordings, queue
      ensures View() == FailedClaim(old(View()), held, delay, now)
      ensures recordings ==
        if held.id in old(queue.jobs) && old(queue.jobs)[held.id].state == Running && old(queue.jobs)[held.id].leaseToken == Some(held.token)
           && held.attempts >= held.maxAttempts && held.kind == RecordingProcess
           && held.resource in old(recordings) && old(recordings)[held.resource].status == Processing && old(recordings)[held.resource].job == held.id
        then old(recordings)[held.resource := old(recordings)[held.resource].(status := FailedStatus)] else old(recordings)
    {
      var terminal, error := queue.Fail(held, delay, now);
      if error.None? && terminal && held.kind == RecordingProcess {
        FinalizeFailure(held.id, held.resource);
      }
    }

    /** The row and its job are written together or not at all. */
    method Arm(id: Id, row: Recording, job: Id, key: IdempotencyKey, now: int) returns (armed: bool)
      modifies this`recordings, queue
      ensures
        match Enqueued(old(queue.jobs), job, NewJob(RecordingProcess, id, key, 3, now))
        case Ok(jobs) => armed && queue.jobs == jobs && recordings == old(recordings)[id := row]
        case Err(_) => !armed && queue.jobs == old(queue.jobs) && recordings == old(recordings)
    {
      var before := recordings;
      recordings := recordings[id := row];
      var error := queue.Enqueue(job, RecordingProcess, id, key, 3, now);
      if error.Some? {
        recordings := before; // rollback
        return false;
      }
      return true;
    }

    method Retry(user: nat, id: Id, job: Id, now: int) returns (claimed: bool)
      modifies this`recordings, queue
      ensures (View(), claimed) == Retried(old(View()), user, id, job, now)
      ensures RetryGoesOn(old(View()), View(), user, id, job, now, claimed)
    {
      if id !in recordings || recordings[id].user != user || recordings[id].status != FailedStatus {
        return false;
      }
      RetriedGoesOn(View(), user, id, job, now);
      var jobsBefore := queue.jobs;
      var row := recordings[id];
      var early := row.stage == Some(TranscribingStage) || row.stage == Some(SuggestionsStage);
      row := row.(status := Processing, job := job);
      if row.stage == Some(TranscribingStage) {
        row := row.(transcript := "");
      }
      if early {
        row := row.(suggestions := []);
      }
      row := row.(corrected := "", shadowing := None);
      if early {
        queue.Cancel(id, {RecordingStrengths}, now);
      }
      claimed := Arm(id, row, job, RecordingKey(job), now);
      if !claimed {
        queue.jobs := jobsBefore; // rollback
      }
    }

    method ScheduleFeedback(user: nat, id: Id, key: nat, job: Id, now: int) returns (outcome: ReanalysisOutcome)
      modifies this`recordings, this`requests, queue
      ensures (View(), outcome) == Reanalyzed(old(View()), user, id, key, job, now)
      ensures FeedbackStartsOver(old(View()), View(), user, id, key, job, now, outcome)
    {
      if id !in recordings || recordings[id].user != user {
        return ReanalysisNotFound;
      }
      if (id, key) in requests {
        return AlreadyRequested;
      }
      if recordings[id].status != Ready || recordings[id].transcript == "" {
        return ReanalysisConflict;
      }
      ReanalyzedStartsOver(View(), user, id, key, job, now);
      var jobsBefore := queue.jobs;
      queue.Cancel(id, RECORDING_KINDS, now);
      var row := recordings[id].(status := Processing, stage := Some(SuggestionsStage), job := job);
      row := row.(suggestions := [], corrected := "", shadowing := None);
      var armed := Arm(id, row, job, RecordingKey(job), now);
      if !armed {
        queue.jobs := jobsBefore; // rollback
        return ReanalysisFailed;
      }
      requests := requests + {(id, key)};
      return Scheduled;
    }

    method Remove(user: nat, id: Id, now: int) returns (removed: bool)
      modifies this`recordings, this`requests, queue
      ensures (View(), removed) == Removed(old(View()), user, id, now)
      ensures removed <==> id in old(recordings) && old(recordings)[id].user == user
      ensures removed ==> recordings == old(recordings) - {id} && forall r :: r in requests <==> r in old(requests) && r.0 != id
      ensures removed ==>
        && queue.jobs.Keys == old(queue.jobs).Keys
        && OthersCancelled(old(queue.jobs), queue.jobs, id, id, {RecordingProcess, RecordingStrengths, ShadowingSynthesize}, now)
      ensures !removed ==> View() == old(View())
    {
      if id !in recordings || recordings[id].user != user {
        return false;
      }
      CancelledAre(queue.jobs, id, RECORDING_KINDS, now);
      queue.Cancel(id, RECORDING_KINDS, now);
      recordings := recordings - {id};
      requests := set r | r in requests && r.0 != id;
      return true;
    }

    method Create(principal: nat, user: nat, key: nat, request: nat, duration: int, admitted: bool, now: int)
      returns (outcome: CreateOutcome)
      modifies this`recordings, queue
      ensures (View(), outcome) == CreatedRecording(old(View()), principal, user, key, request, duration, admitted, now)
      ensures
        var id := Derived(RecordingScope, principal, key);
        var mine := id in old(recordings) && old(recordings)[id].user == user;
        && (outcome == Replayed <==> mine && old(recordings)[id].request == request && old(recordings)[id].duration == duration)
        && (outcome == CreateConflict <==> mine && (old(recordings)[id].request != request || old(recordings)[id].duration != duration))
        && (outcome == Created ==>
              && admitted && id !in old(recordings)
              && recordings == old(recordings)[id :=
                   Recording(user, request, duration, Processing, Some(TranscribingStage), Derived(RecordingJobScope, principal, key), "", [], "", None)])
        && (outcome == CreateRefused && admitted && id !in old(recordings) ==> Derived(RecordingJobScope, principal, key) in old(queue.jobs))
      ensures
        var id, job := Derived(RecordingScope, principal, key), Derived(RecordingJobScope, principal, key);
        outcome == Created && (forall j :: j in old(queue.jobs) ==> old(queue.jobs)[j].key != RecordingCreateKey(id)) ==>
          queue.jobs == old(queue.jobs)[job := Job(RecordingProcess, id, RecordingCreateKey(id), Queued, 0, 3, now, None, None, None)]
      ensures outcome != Created ==> View() == old(View())
    {
      var id := CreateRecordingId(principal, key);
      var job := CreateJobId(principal, key);
      if id in recordings && recordings[id].user == user {
        if recordings[id].request != request || recordings[id].duration != duration {
          return CreateConflict;
        }
        return Replayed;
      }
      if !admitted || id in recordings {
        return CreateRefused;
      }
      var armed := Arm(id, FreshRecording(user, request, duration, TranscribingStage, job, ""), job, CreateKey(principal, key), now);
      return if armed then Created else CreateRefused;
    }

    /** A preview job that still waits is cancelled; a running one is left to its fence. */
    method CancelWaiting(job: Id, now: int)
      modifies queue
      ensures queue.jobs ==
        if job in old(queue.jobs) && old(queue.jobs)[job].kind == GuestPreview && old(queue.jobs)[job].state in {Queued, RetryWait}
        then old(queue.jobs)[job := CancelRow(old(queue.jobs)[job], now)] else old(queue.jobs)
    {
      if job in queue.jobs && queue.jobs[job].kind == GuestPreview && queue.jobs[job].state in {Queued, RetryWait} {
        queue.jobs := queue.jobs[job := CancelRow(queue.jobs[job], now)];
      }
    }

    method Promote(preview: Id, user: nat, job: Id, now: int) returns (promoted: bool)
      modifies this`recordings, this`previews, queue
      ensures (View(), promoted) == Promoted(old(View()), preview, user, job, now)
      ensures PreviewGoesOn(old(View()), View(), preview, user, job, now, promoted)
      ensures promoted ==> PreviewJobsGoOn(old(queue.jobs), queue.jobs, old(previews)[preview].job, job, preview, now)
    {
      if preview !in previews || previews[preview].state == PreviewPromoted {
        return false;
      }
      PromotedGoesOn(View(), preview, user, job, now);
      if Promoted(View(), preview, user, job, now).1 { PromotedJobsGoOn(View(), preview, user, job, now); }
      var p := previews[preview];
      var jobsBefore := queue.jobs;
      CancelWaiting(p.job, now);
      var transcript, stage, duration := "", TranscribingStage, GUEST_MAX_SESSION_SECONDS;
      if p.state == PreviewReady {
        transcript, stage, duration := p.transcript, SuggestionsStage, p.duration;
      }
      if preview in recordings {
        queue.jobs := jobsBefore; // rollback
        return false;
      }
      var row := FreshRecording(user, p.request, duration, stage, job, transcript);
      var armed := Arm(preview, row, job, PromotePreviewKey(preview), now);
      if !armed {
        queue.jobs := jobsBefore; // rollback
        return false;
      }
      previews := previews[preview := p.(state := PreviewPromoted)];
      return true;
    }
  }
}
