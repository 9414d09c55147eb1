/** The recording worker (`internal/recording/processing.go`, `internal/workqueue/runner.go`).

    A handler is a sequence of database calls with slow work between them, and anything may
    happen to the rows in between.  `Phase` says which call comes next and what the handler
    remembers; each function is one call, and class `Processor` performs it. */
module Processing {
  import opened Prelude
  import opened Text
  import opened WorkQueue
  import opened Recordings

  datatype Phase =
    | Started
    | AtTranscribing
    | DurationVerified
    | AtSuggestions(transcript: string)
    | AtRewriting(transcript: string, suggestions: seq<string>)
    | Returned(ok: bool)

  datatype Worker = Worker(held: Claimed, phase: Phase)

  /** `resume`: the persisted stage decides where the handler continues. */
  function Resumed(row: Recording): Phase {
    match row.stage
    case Some(TranscribingStage) => AtTranscribing
    case Some(SuggestionsStage) => AtSuggestions(row.transcript)
    case Some(RewritingStage) => AtRewriting(row.transcript, row.suggestions)
    case None => Returned(false)
  }

  /** A recording that is not active under the job makes the handler return nil. */
  function Loaded(t: Tables, worker: Worker): Worker {
    if worker.phase != Started then worker
    else if worker.held.kind == RecordingProcess && ActiveUnder(t, worker.held.resource, worker.held.id)
    then worker.(phase := Resumed(t.recordings[worker.held.resource]))
    else worker.(phase := Returned(true))
  }

  function AfterSave(saved: Save, next: Phase): Phase {
    match saved
    case Advanced => next
    case NotAdvanced => Returned(true)
    case SaveFailed => Returned(false)
  }

  function Verified(t: Tables, worker: Worker, seconds: int, now: int): (Tables, Worker) {
    if worker.phase != AtTranscribing then (t, worker)
    else
      var (after, ok) := VerifiedDuration(t, worker.held, seconds, now);
      (after, worker.(phase := if ok then DurationVerified else Returned(false)))
  }

  /** A transcript that normalises to nothing is an error and is never saved. */
  function Transcribed(t: Tables, worker: Worker, text: string): (Tables, Worker) {
    var transcript := NormalizeTranscript(text);
    if worker.phase != DurationVerified then (t, worker)
    else if transcript == "" then (t, worker.(phase := Returned(false)))
    else
      var (after, saved) := SavedTranscript(t, worker.held, transcript);
      (after, worker.(phase := AfterSave(saved, AtSuggestions(transcript))))
  }

  function Analyzed(t: Tables, worker: Worker, suggestions: seq<string>, strengthsPending: bool, now: int): (Tables, Worker) {
    if !worker.phase.AtSuggestions? then (t, worker)
    else
      var (after, saved) := SavedAnalysis(t, worker.held, suggestions, strengthsPending, now);
      (after, worker.(phase := AfterSave(saved, AtRewriting(worker.phase.transcript, suggestions))))
  }

  function Rewritten(t: Tables, worker: Worker, corrected: string, shadowing: Id, dialogue: Option<bool>, now: int): (Tables, Worker) {
    if !worker.phase.AtRewriting? then (t, worker)
    else
      var (after, saved) := CompletedRecording(t, worker.held, corrected, shadowing, dialogue, now);
      (after, worker.(phase := AfterSave(saved, Returned(true))))
  }

  /** `runClaim` after the handler returned: nil completes the job, an error fails it. */
  function Finished(t: Tables, worker: Worker, delay: int, now: int): Tables {
    if worker.phase == Returned(true) then t.(jobs := Completed(t.jobs, worker.held, now))
    else if worker.phase == Returned(false) then FailedClaim(t, worker.held, delay, now)
    else t
  }

  class Processor {
    const repository: Repository
    const held: Claimed
    var phase: Phase

    constructor (repository: Repository, held: Claimed)
      ensures this.repository == repository && View() == Worker(held, Started)
    {
      this.repository, this.held, phase := repository, held, Started;
    }

    function View(): Worker
      reads this
    {
      Worker(held, phase)
    }

    method Load()
      requires phase == Started && held.kind == RecordingProcess
      modifies this
      ensures View() == Loaded(repository.View(), old(View()))
      ensures
        var rows, id := repository.recordings, held.resource;
        if id !in rows || rows[id].status != Processing || rows[id].job != held.id then phase == Returned(true)
        else if rows[id].stage == Some(TranscribingStage) then phase == AtTranscribing
        else if rows[id].stage == Some(SuggestionsStage) then phase == AtSuggestions(rows[id].transcript)
        else if rows[id].stage == Some(RewritingStage) then phase == AtRewriting(rows[id].transcript, rows[id].suggestions)
        else phase == Returned(false)
    {
      var work := repository.LoadProcessingWork(held);
      if work.None? {
        phase := Returned(true);
        return;
      }
      match work.value.stage {
        case None => phase := Returned(false);
        case Some(TranscribingStage) => phase := AtTranscribing;
        case Some(SuggestionsStage) => phase := AtSuggestions(work.value.transcript);
        case Some(RewritingStage) => phase := AtRewriting(work.value.transcript, work.value.suggestions);
      }
    }

    method VerifyDuration(seconds: int, now: int)
      requires phase == AtTranscribing
      modifies this, repository, repository.queue
      ensures (repository.View(), View()) == Verified(old(repository.View()), old(View()), seconds, now)
      ensures phase == DurationVerified || (phase == Returned(false) && repository.View() == old(repository.View()))
      ensures phase == DurationVerified <==>
        LeaseActive(old(repository.queue.jobs), held, now) && ActiveUnder(old(repository.View()), held.resource, held.id) && 1 <= seconds <= 600
    {
      var ok := repository.VerifyDuration(held, seconds, now);
      phase := if ok then DurationVerified else Returned(false);
    }

    method Transcribe(text: string)
      requires phase == DurationVerified
      modifies this, repository, repository.queue
      ensures (repository.View(), View()) == Transcribed(old(repository.View()), old(View()), text)
      ensures phase ==
        if NormalizeTranscript(text) == "" then Returned(false)
        else if Fenced(old(repository.View()), held) then AtSuggestions(NormalizeTranscript(text))
        else Returned(true)
      ensures phase.AtSuggestions? ==> repository.recordings[held.resource].transcript == NormalizeTranscript(text)
    {
      var transcript := NormalizeTranscript(text);
      if transcript == "" {
        phase := Returned(false);
        return;
      }
      var saved := repository.SaveTranscript(held, transcript);
      if saved != Advanced {
        phase := Returned(saved == NotAdvanced);
        return;
      }
      phase := AtSuggestions(transcript);
    }

    method Analyze(suggestions: seq<string>, strengthsPending: bool, now: int)
      requires phase.AtSuggestions?
      modifies this, repository, repository.queue
      ensures (repository.View(), View()) == Analyzed(old(repository.View()), old(View()), suggestions, strengthsPending, now)
      ensures phase == AtRewriting(old(phase).transcript, suggestions) || (phase.Returned? && repository.View() == old(repository.View()))
      ensures phase.AtRewriting? ==> repository.recordings[held.resource].suggestions == suggestions
      ensures phase == Returned(true) ==> !ActiveUnder(old(repository.View()), held.resource, held.id)
    {
      var saved := repository.SaveAnalysis(held, suggestions, strengthsPending, now);
      if saved != Advanced {
        phase := Returned(saved == NotAdvanced);
        return;
      }
      phase := AtRewriting(phase.transcript, suggestions);
    }

    method Rewrite(corrected: string, shadowing: Id, dialogue: Option<bool>, now: int)
      requires phase.AtRewriting?
      modifies this, repository, repository.queue
      ensures (repository.View(), View()) == Rewritten(old(repository.View()), old(View()), corrected, shadowing, dialogue, now)
      ensures phase.Returned?
      ensures phase == Returned(true) && ActiveUnder(old(repository.View()), held.resource, held.id) ==>
        repository.recordings[held.resource].status == Ready && repository.recordings[held.resource].corrected == corrected
      ensures phase == Returned(false) ==> repository.View() == old(repository.View())
    {
      var saved := repository.CompleteRecording(held, corrected, shadowing, dialogue, now);
      phase := Returned(saved != SaveFailed);
    }

    method Finish(delay: int, now: int)
      requires phase.Returned?
      modifies repository, repository.queue
      ensures repository.View() == Finished(old(repository.View()), View(), delay, now)
      ensures Holds(old(repository.queue.jobs), held) ==>
        repository.queue.jobs[held.id].state ==
          if phase.ok then Succeeded else if held.attempts >= held.maxAttempts then Failed else RetryWait
      ensures phase.ok || !Holds(old(repository.queue.jobs), held) || held.attempts < held.maxAttempts ==>
        repository.recordings == old(repository.recordings)
    {
      if phase.ok {
        var _ := repository.queue.Complete(held, now);
      } else {
        repository.Fail(held, delay, now);
      }
    }
  }
}
