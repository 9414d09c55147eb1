# Verification of the Daily Speaking backend

Dafny models of the parts of the Go backend where a mistake would be hardest to see, with
proofs of what those parts promise. SQL transactions are atomic steps over explicit tables,
worker goroutines are interleaved steps, random uuids and lease tokens are drawn from a counter,
and answers of foreign services are arbitrary inputs.

Where the source changes state, the model is a class whose methods do the same statements in the
same order, each method is proved equal to a function on values, and the laws are proved about
those functions over all runs. What a call answers and leaves is also said in terms of the columns
themselves, so that neither a method nor its function is its own only witness. Where the source scans or selects, the model is a method with the
source's loops, proved against a declarative specification.

`dafny verify dfyconfig.toml` checks everything.

| files | subject |
|---|---|
| `WorkQueue`, `Recordings`, `Processing`, `Pipeline`, `PipelineRows`, `PipelineSafety`, `PipelineStranding`, `PipelineLiveness` | leased jobs and the fenced recording pipeline |
| `Text`, `Timeline`, `Interview`, `InterviewShape`, `InterviewMoves`, `InterviewRuns`, `InterviewFence`, `InterviewSafety`, `InterviewRecording` | the interview session, the transcript composed from it, and both machines together |
| `Uploads`, `Parts`, `LocalStore`, `UploadStore` | multipart uploads, the local object store, and the one on top of the other |
| `Activity`, `ActivityLaws`, `ActivityKinds` | the activity ledger and its sums by kind and day |
| `SqlScanner`, `SqlItems`, `JsonExtract` | the migration scanner and the JSON extractor |
| `FeedbackSpan`, `FeedbackPractice`, `FocusedFeedback`, `Greedy`, `Sorting` | anchoring, selecting and reading back feedback |
| `Phrases`, `Detectors`, `LanguagePass`, `DetectorPool`, `Review`, `ReviewDecisions`, `AnalysisFlow` | the detectors, their merge, the review of what they found, and the way of a phrase through all of them |
| `RefreshTokens` | refresh-token rotation, as in section 4.14.2 of RFC 9700 |

## What turned out not to hold

The code is modelled as it is. Where a natural expectation fails, there is a lemma with an input
that breaks it and a theorem that says exactly when it holds.

- A recording can be left processing for ever. It happens exactly when a Create reuses an
  idempotency key whose old job row is still in the table, because Enqueue ignores duplicate keys
  (`PipelineSafety.NoStrandedRecording`, `DeleteThenCreateStrands`, `ReusedKeyStrands`), and it
  lasts until the recording is removed (`PipelineStranding.StrandedForever`).
- Repeating a Create with the same key is answered with a conflict once the worker has measured
  another duration than the declared one (`PipelineSafety.CreateReplay`,
  `VerifiedDurationBreaksReplay`).
- Historical activity credits may overlap each other; a ledger counts every moment once exactly
  when no two of the old recordings overlapped (`ActivityLaws.LedgerCountsOnceIff`,
  `HistoryMayOverlap`).
- The spoken and the reviewed time depend on which of two overlapping intervals arrived first.
  The spoken total is independent of the order exactly when no two intervals of different kinds
  overlap outside the history (`ActivityKinds.KindTotalIsFreeIff`, `OrderDecidesTheKind`).
- The language pass may refuse whatever the model answers. Some response is acceptable exactly when
  every Cyrillic phrase stands as a whole word, is short enough to be quoted and occurs in the
  transcript; a Russian noun attached to "YouTube" does not (`LanguagePass.AcceptableIff`,
  `AttachedPhraseIsRefused`).
- An upload whose only completion crashed between publishing the object and describing it is never
  completed (`Uploads.CrashedCallOnlyAborts`, `HopelessNeverCompletes`).
- Storing the same bytes again is a conflict when a crash came between publishing the object and
  writing its metadata (`LocalStore.CrashBreaksRetry`, `PutSucceedsIff`).
- With Deletes in between, the metadata can describe other bytes than those that are there. It
  happens exactly when a writer publishes beside, or describes beside, what a Delete has left of
  other bytes of the same size (`LocalStore.TruthfulIff`, `DeleteCanMislead`).
- Normalising a transcript twice differs from normalising it once exactly when the text is cut
  right behind a space (`Text.NormalizeIdempotentIff`, `NormalizingTwiceCanDiffer`).

## Model

| member | source | states |
|---|---|---|
| WorkQueue.Store.Enqueue | backend/internal/workqueue/queue.go:57-89 | A new job waits with no attempts and no lease; a taken key changes nothing and is no error; a taken id under a free key is refused; a limit that is not positive becomes 3. |
| WorkQueue.Store.Claim | backend/internal/workqueue/queue.go:195-246 | Either no job of the wanted kinds is claimable and nothing changes, or one claimable job, and no other row, is running under the new token with one more attempt, and the caller gets a snapshot of exactly that row. |
| WorkQueue.Store.Heartbeat | backend/internal/workqueue/queue.go:248-263 | Extends the lease exactly of a row that runs under the caller's token; otherwise reports a lost lease and changes nothing. |
| WorkQueue.Store.Complete | backend/internal/workqueue/queue.go:265-279 | Succeeds exactly for a row that runs under the caller's token, and then releases the lease and records the time; otherwise a lost lease and no change. |
| WorkQueue.Store.Fail | backend/internal/workqueue/queue.go:283-325 | Under the caller's token the row fails for good when the snapshot's attempts are used up and waits for a retry otherwise; under an old token nothing changes; the resource is finalized exactly in the first case. |
| WorkQueue.Store.PruneTerminal | backend/internal/workqueue/queue.go:169-193 | Removes only terminal rows older than the boundary, at most the limit, every other row stays, and below the limit none of them is left. |
| WorkQueue.Store.Cancel | backend/internal/recording/delete_repository.go:73-118 | Cancels exactly the live jobs of the given kinds for the resource, lease included. |
| WorkQueue.FailKeepsRows | backend/internal/workqueue/queue.go:283-325 | Although the snapshot decides, a held row goes back to waiting exactly when the row itself has attempts left. |
| WorkQueue.FailureDelays | backend/internal/workqueue/queue.go:283-325 | A job that failed with attempts left cannot be claimed before its delay is over and can from then on; one without attempts left never can. |
| WorkQueue.ClaimLasts | backend/internal/workqueue/queue.go:206-246 | A claim holds its row, its lease runs exactly as long as asked for, and after that the job can be claimed again exactly when attempts are left. |
| WorkQueue.NewJobIsClaimable | backend/internal/workqueue/queue.go:57-89 | A new job can be claimed at once. |
| WorkQueue.HeartbeatLasts | backend/internal/workqueue/queue.go:248-263 | A heartbeat makes the lease run exactly as long as asked for, from then on. |
| WorkQueue.FinishedIsNotClaimable | backend/internal/workqueue/queue.go:265-279 | A job that succeeded or was cancelled is held by nobody and can never be claimed. |
| WorkQueue.ClaimKeepsHolders | backend/internal/workqueue/queue.go:206-246 | A claim gives nobody else a lease and keeps every snapshot that matches its row in agreement with it. |
| WorkQueue.MovesKeepHolders | backend/internal/workqueue/queue.go:248-325 | No other statement gives a lease back, and a snapshot that agreed with its row goes on agreeing. |
| Recordings.Repository.LoadProcessingWork | backend/internal/recording/processing_repository.go:23-54 | Returns the row exactly when the recording is processing under this job; the lease is not looked at. |
| Recordings.Repository.VerifyDuration | backend/internal/recording/processing_repository.go:56-84 | Stores the measured duration exactly under an unexpired lease, an active recording and an allowed value; fails otherwise and changes nothing. |
| Recordings.Repository.SaveTranscript | backend/internal/recording/processing_repository.go:164-175 | Transcript and stage move together, only for the recording's own job that runs under the caller's token; otherwise nothing moves. |
| Recordings.Repository.SaveAnalysis | backend/internal/recording/processing_repository.go:236-269 | Suggestions, stage and the strengths job are written together or not at all, under an unexpired lease. |
| Recordings.Repository.CompleteRecording | backend/internal/recording/processing_repository.go:279-387 | The recording becomes ready together with its corrected text and its shadowing job, or the transaction leaves no trace: expired lease, foreign job, empty corrected text or wrong dialogue. |
| Recordings.Repository.FinalizeFailure | backend/internal/recording/processing_repository.go:389-395 | Marks failed exactly a recording that is processing under this job. |
| Recordings.Repository.Fail | backend/internal/workqueue/queue.go:283-325 | The job's failure and the recording's are one transaction, and only a terminal failure of a processing job reaches the recording. |
| Recordings.Repository.Retry | backend/internal/recording/retry_repository.go:35-85 | Exactly a failed recording of the caller is claimed, if the insert of its job is not refused: it is processing under the new job at the stage it had reached, with user, request and duration kept, the transcript cleared only at transcribing and the suggestions only before rewriting; early strengths work, and no other job, is cancelled. |
| Recordings.Repository.ScheduleFeedback | backend/internal/recording/feedback_reanalysis_repository.go:17-74 | Exactly a ready recording of the caller with a transcript goes back to suggestions under a new job, keeping its transcript; its live jobs, and no others, are cancelled; the same request key is answered once and changes nothing later. |
| Recordings.Repository.Remove | backend/internal/recording/delete_repository.go:73-118 | The recording, its requests and its live jobs go together, for the owner only. |
| Recordings.Repository.Create | backend/internal/recording/create.go:104-158 | Ids follow from principal and key: an equal request is a replay, a different one a conflict, a refused one leaves no trace, a new one inserts recording and job. |
| Recordings.Repository.Promote | backend/internal/auth/guest_promotion.go:80-211 | The preview becomes a recording under its own id exactly once: at suggestions with its transcript and duration when it was ready, at transcribing with the guest limit otherwise; its waiting job, and no other, is cancelled. |
| Processing.Processor.Load | backend/internal/recording/processing.go:80-148 | The handler goes on at the stored stage with the stored transcript and suggestions; a recording that is not active under the job ends it with success, and one without a stage with an error. |
| Processing.Processor.VerifyDuration | backend/internal/recording/processing.go:150-196 | A measured duration that is not saved ends the handler with an error. |
| Processing.Processor.Transcribe | backend/internal/recording/processing.go:150-196 | An empty transcript is an error and never saved; a save that does not advance ends the handler with success; otherwise the handler remembers exactly the text it saved. |
| Processing.Processor.Analyze | backend/internal/recording/processing.go:232-254 | The suggestions saved are those for the remembered transcript; not advancing is success, a failed save an error. |
| Processing.Processor.Rewrite | backend/internal/recording/processing.go:256-280 | The handler ends; with an error exactly when completing failed. |
| Processing.Processor.Finish | backend/internal/workqueue/runner.go:111-129 | A handler that returned nil completes its job, one that returned an error fails it. |
| Pipeline.RunKeeps | backend/internal/recording/processing.go:137-280 | In every state of every run: stages and contents agree, and what a worker remembers is what the row says for as long as it passes the fence. |
| Pipeline.SingleHolder | backend/internal/workqueue/queue.go:206-246 | At most one worker holds a job, whatever leases expired and were taken over. |
| Pipeline.WriteKeeps | backend/internal/recording/processing_repository.go:125-133 | A write that passes the fence disturbs no other worker's view. |
| PipelineRows.StepMovesJobs | backend/internal/workqueue/queue.go:248-325 | Every step other than a claim releases, extends or ignores each job row, and rows that appear are unclaimed. |
| PipelineRows.StepMovesRecording | backend/internal/recording/processing_repository.go:164-395 | Every step keeps owner and request, and moves the stage forward or puts the recording under a job never used before. |
| PipelineSafety.NoTornResults | backend/internal/recording/processing_repository.go:236-300 | Over every interleaving of claims, crashes, retries, reanalyses, promotions and deletions: a ready recording's suggestions answer its stored transcript and its corrected text answers both. |
| PipelineSafety.StagesNeverGoBack | backend/internal/recording/processing_repository.go:164-175 | Under one job the committed stage never goes back and an outcome is final, however long the run. |
| PipelineSafety.CreateReplay | backend/internal/recording/create.go:104-156 | Repeating a Create never creates anything while the recording exists; it is a replay exactly when the stored duration is still the declared one. |
| PipelineSafety.VerifiedDurationConflicts | backend/internal/recording/create.go:262-271 | A measured duration that differs turns the replay into a conflict. |
| PipelineSafety.VerifiedDurationBreaksReplay | backend/internal/recording/create.go:262-271 | A concrete run: ten seconds declared, twelve measured, conflict. |
| PipelineSafety.CreateStrandsIff | backend/internal/workqueue/queue.go:79-84 | A Create strands a recording exactly when it inserts one although an old job occupies its key. |
| PipelineSafety.ClientNeverStrands | backend/internal/recording/retry_repository.go:35-85 | Retry, reanalysis, promotion, deletion, pruning and claiming strand nothing. |
| PipelineSafety.FinishNeverStrands | backend/internal/workqueue/runner.go:111-129 | Completing or failing a job strands nothing, also on the paths where the handler returned nil without advancing. |
| PipelineSafety.NoStrandedRecording | backend/internal/workqueue/runner.go:111-129 | In every state of a run each processing recording has a live job of its own, if and only if no Create in the run reuses an occupied key. |
| PipelineSafety.DeleteThenCreateStrands | backend/internal/workqueue/queue.go:79-84 | Deleting and creating again under the same key, with the old job row still there, strands the new recording. |
| PipelineSafety.ReusedKeyStrands | backend/internal/workqueue/queue.go:79-84 | A concrete run from the empty tables that ends with a stranded recording: created, deleted, and created again under the same key for another upload. |
| PipelineStranding.StrandedForever | backend/internal/recording/processing_repository.go:389-395 | A stranded recording is still stranded in every later state of every run, for as long as it is not removed. |
| PipelineSafety.LeaseSafety | backend/internal/workqueue/queue.go:195-325 | In every reachable state a job runs exactly when it has a token, a waiting job has attempts left, and a matching snapshot has the row's attempt count. |
| PipelineSafety.TerminalIsAbsorbing | backend/internal/workqueue/queue.go:206-325 | A finished job's row never changes again until it is pruned. |
| PipelineSafety.LeaseLossIsPermanent | backend/internal/workqueue/queue.go:248-325 | A token that no longer holds its row never holds it again, so Heartbeat, Complete and Fail with it change nothing for ever. |
| PipelineSafety.StartsAreBounded | backend/internal/workqueue/queue.go:213-217 | The attempt counter counts the handler starts, crashes included, so a job is started at most the allowed number of times. |
| PipelineLiveness.UndisturbedRunSucceeds | backend/internal/recording/processing.go:80-280 | From any state of any run: a recording that waits at its first stage, given to one worker whom nobody disturbs and whose services answer, ends ready with the results of this very run, and its job succeeds. |
| PipelineLiveness.CreatedWaits | backend/internal/recording/create.go:104-158 | A recording that was just created waits for its first attempt, unless an old job has its key. |
| Text.CollapseIdempotent | backend/internal/recording/normalization.go:5-7 | Collapsing white space twice is collapsing it once. |
| Text.NormalizeIdempotentIff | backend/internal/recording/normalization.go:5-36 | Normalising again changes nothing if and only if the text was not cut right behind a space. |
| Text.NormalizingTwiceCanDiffer | backend/internal/recording/normalization.go:5-36 | A concrete text that is cut behind a space and normalises differently the second time. |
| Text.NormalizeCuts | backend/internal/recording/normalization.go:5-36 | Up to 20000 characters only white space is lost; a longer text is cut there. |
| Text.NormalizeBlank | backend/internal/recording/normalization.go:5-7 | Exactly the blank texts normalise to nothing. |
| Text.JoinIsCollapsed | backend/internal/recording/interview_timeline.go:62-73 | Joining collapsed answers gives a collapsed text. |
| Timeline.ComposeInterviewTranscript | backend/internal/recording/interview_timeline.go:22-73 | The first objection in turn order, or the joined answers, the dialogue and the answer map. |
| Timeline.ComposeSucceedsIff | backend/internal/recording/interview_timeline.go:22-73 | Composing succeeds exactly for a contiguous timeline whose answered turns are ready, not blank and short enough, with at least one answer and a total within the limit; the text is then in normal form. |
| Timeline.ComposedTells | backend/internal/recording/interview_timeline.go:22-73 | The dialogue shows exactly the answered turns in order, each with its trimmed question and its final text, or the provisional one where there is none, as single words; the text joins those answers, and the map holds each under its number. |
| Timeline.ErrorBlames | backend/internal/recording/interview_timeline.go:22-73 | The error names a turn that has the fault it names. |
| Timeline.AnswerMapIs | backend/internal/recording/interview_timeline.go:22-73 | The answer map holds exactly the answered turns, each under its own number. |
| Timeline.SameComposition | backend/internal/recording/interview_timeline.go:22-73 | Replacing answers by their collapsed form changes neither the text, nor the answers, nor the dialogue, nor the error. |
| Interview.Repository.Start | backend/internal/interview/repository.go:216-253 | A ready, unexpired session with exactly one waiting candidate becomes active with turn 1 open at 0; starting an active one again changes nothing. |
| Interview.Repository.Advance | backend/internal/interview/repository.go:255-362 | A new request is committed exactly when the open last turn may be closed or skipped, the candidate waits and a needed refill is not refused: the turn ends, the candidate is consumed, and the next turn asks the question of the candidate; after a skip that leaves no candidate a refill job for the session exists. Otherwise nothing changes. The same request is a replay. |
| Interview.AdvancedAnswers | backend/internal/interview/repository.go:255-362 | The same, column by column, of the committed tables for every session and request. |
| Interview.AdvancedRepeats | backend/internal/interview/repository.go:266-281 | A key that was used before changes nothing and succeeds exactly when turn, time, candidate and skip are those of the turn it asked. |
| Interview.Repository.SkipTurn | backend/internal/interview/repository.go:364-421 | Skips exactly the open last turn while nothing was recorded for it; the same key again changes nothing, a key of another turn is a conflict. |
| Interview.Repository.AttachAudio | backend/internal/interview/repository.go:423-492 | Audio is attached once, never to a skipped turn and never the same asset to two turns, together with the turn's job; a turn that is ready stays ready. |
| Interview.Repository.SaveTurnTranscript | backend/internal/interview/repository.go:494-562 | A collapsed realtime transcript makes the turn ready, once per key, only while active and before a batch transcript, together with the turn's job. |
| Interview.Repository.Finalize | backend/internal/interview/repository.go:564-617 | Finalizes exactly the linked session within its limit, closing the last answered turn when it is open; repeated with the same input it changes nothing. |
| Interview.Repository.Cancel | backend/internal/interview/repository.go:112-140 | Cancels a session that is not linked and its live jobs. |
| Interview.Repository.LinkInterview | backend/internal/recording/create_repository.go:92-114 | Links exactly an active, unlinked session whose answered turns are all ready. |
| Interview.Repository.SaveTranscript | backend/internal/interview/processing_repository.go:217-258 | Under an active lease a batch transcript is saved unless a realtime one got there first, which then stays canonical and is returned. |
| Interview.Repository.SavePreparation | backend/internal/interview/processing_repository.go:57-101 | Question and readiness are stored together, only while preparing and under an active lease. |
| Interview.Repository.SaveAdaptive | backend/internal/interview/processing_repository.go:260-331 | A new follow-up question is stored only while active, with no other candidate waiting, for a turn at most two behind the last. |
| Interview.Repository.SaveRefill | backend/internal/interview/processing_repository.go:333-398 | A refill is stored only while active and with no other candidate waiting. |
| Interview.Repository.Fail | backend/internal/interview/processing_repository.go:420-447 | A terminal failure reaches only the row its step was about. |
| Interview.HousekeepingEnds | backend/internal/interview/repository.go:60-63 | An expired session that is still open fails when its owner creates another one, and one that waits to be finalized is finalized by the sweep; nothing else changes. |
| Interview.Repository.VerifyInterviewDuration | backend/internal/recording/processing_repository.go:86-123 | Moves only the end of the last answered turn, to the measured length but behind its start. |
| Interview.Repository.SaveInterviewAnswers | backend/internal/recording/processing_repository.go:198-234 | All answers are written or none, whatever order the map is walked in. |
| InterviewRuns.TurnHandler.Load | backend/internal/interview/processor.go:83-110 | A missing or skipped turn ends the handler; a turn that is not ready is transcribed when it has audio and an error when it has none; a ready one goes on with its final text. |
| InterviewRuns.TurnHandler.SaveTranscript | backend/internal/interview/processor.go:83-110 | The handler goes on with the canonical text, and only to a follow-up when there is text and the session was active. |
| InterviewFence.OneWorkerPerTurn | backend/internal/interview/processing_repository.go:400-408 | Two workers that hold jobs of the same turn are the same worker. |
| InterviewFence.RunKeepsFence | backend/internal/interview/processor.go:83-110 | In every run, a worker that is about to save a batch transcript and still holds its job finds its turn without a batch transcript. |
| InterviewSafety.ActiveSessionShape | backend/internal/interview/repository.go:216-421 | In every reachable active state the turns are 1..n, tile the time from 0, last 300 ms when they have a successor, and number at most (max*1000-1)/300+1; only the last may be open; candidates and later turns are in bijection, one candidate waits at most, a skipped turn has neither audio nor text. |
| InterviewSafety.QuestionsAreAsked | backend/internal/interview/repository.go:216-362 | In every reachable state, linked ones included, turn 1 asks the opening question and each later turn the question of the candidate it consumed. |
| InterviewSafety.DialogueShowsQuestions | backend/internal/recording/interview_timeline.go:22-73 | Every entry of the dialogue composed in a reachable state shows that question and the final text of its turn. |
| InterviewShape.TurnCountBounded | backend/internal/interview/repository.go:255-362 | The time limit bounds the number of turns. |
| InterviewSafety.AdvanceReplaysForever | backend/internal/interview/repository.go:255-362 | Once committed, the same Advance succeeds and changes nothing in every later state, and the same key with any field changed is a conflict. |
| InterviewSafety.LinkedComposesForever | backend/internal/interview/processing_repository.go:217-258 | After linking, composing the stored timeline gives the same outcome in every later state. |
| InterviewSafety.ReachedLinkComposesForever | backend/internal/interview/processing_repository.go:217-258 | The same from the creation of the session on: whatever led to a linked session and whatever happens to it afterwards. |
| InterviewSafety.LinkedNeverUnready | backend/internal/recording/interview_timeline.go:22-73 | After linking, the numbering and status checks of the composer never fail; only blank or oversized texts are left to object to. |
| InterviewSafety.ReachedLinkNeverUnready | backend/internal/recording/interview_timeline.go:22-73 | So in every reachable linked state, from the creation of the session on. |
| InterviewSafety.ResumeNeverMismatches | backend/internal/recording/processing.go:210-230 | Whoever resumes after the answers were composed sees the very same text, so the comparison that guards analysis and rewrite never fails. |
| InterviewSafety.ReachedResumeNeverMismatches | backend/internal/recording/processing.go:210-230 | So for whatever a recording worker composed in any reachable state, from the creation of the session on. |
| InterviewSafety.LateFallbackChangesNothing | backend/internal/interview/processor.go:83-110 | A fallback job that is still around after linking changes no turn. |
| InterviewSafety.LinkedAnswers | backend/internal/recording/processing_repository.go:198-234 | Writing composed answers back only collapses what is there. |
| InterviewRecording.Saver.SaveInterviewTranscript | backend/internal/recording/processing_repository.go:198-234 | The transcript of the recording and the answers of the session are written together, behind the fence, or neither is. |
| InterviewRecording.Saver.VerifyInterviewDuration | backend/internal/recording/processing_repository.go:86-123 | Under a live lease, for the linked recording and within the limit of the session, the duration and the end of the last answered turn are written together; otherwise neither is. |
| InterviewRecording.SaveIsTogether | backend/internal/recording/processing.go:187-188 | A worker's save of a composed transcript in the combined machine is that transaction. |
| InterviewRecording.RunKeeps | backend/internal/recording/processing.go:150-230 | In every state of both machines together, past the first stage the transcript of the interview's recording is what its timeline composes to; duration, transcript and answers are written by the transactions that write both halves. |
| InterviewRecording.NoDanglingLink | backend/internal/recording/delete_repository.go:103-112 | In every reachable state the recording of a linked session exists, because deleting it deletes the session. |
| InterviewRecording.ResumedWorkerAgrees | backend/internal/recording/processing.go:210-230 | In every reachable state a worker that goes on with the interview's recording composes the timeline without an error and to exactly the transcript it works from. |
| Uploads.Backend.ClaimCompleting | backend/internal/media/repository.go:170-182 | Moves exactly a pending or uploading upload to completing. |
| Uploads.Backend.ClaimAborting | backend/internal/media/repository.go:184-200 | Moves exactly a pending, uploading or failed upload, or for the sweeper a stale completing one, to aborting. |
| Uploads.Backend.MarkCompleted | backend/internal/media/repository.go:202-237 | Upload and asset are completed together exactly when the upload is completing or completed and the asset pending, uploading, uploaded, verifying or ready; otherwise neither changes. |
| Uploads.Backend.MarkAborted | backend/internal/media/repository.go:239-267 | Upload and asset are aborted together, only from aborting or aborted; a ready asset stays ready. |
| Uploads.Backend.CompleteMultipart | backend/internal/storage/local.go:306-394 | The call is the sequence of its interleavable steps: reading the parts, publishing, describing and clearing in the local store, one request and its check in the remote one; whatever it returns is the declared object. |
| Uploads.Backend.CompleteUpload | backend/internal/media/service.go:189-250 | The call is the sequence of its interleavable steps, run without interruption. Without faults, an upload that has not expired, with a live asset, valid parts and an assembly equal to the declared object, is completed, with the declared object reported and verified; repeating that changes nothing; an expired, aborted or failed one, or a bad list, is refused without a change. |
| Uploads.Backend.Recover | backend/internal/media/service.go:238-249 | After an unrecorded completion, a completed upload is success and only an upload in abort loses its object. |
| Uploads.Backend.AbortUpload | backend/internal/media/service.go:252-285 | The abort call is the sequence of its interleavable steps. Without faults a pending, uploading, failed, aborting or stale completing upload ends aborted; a completed one is a conflict, an aborted one success. |
| Uploads.UploadAgreement | backend/internal/media/service.go:189-285 | For any number of concurrent completers, aborters, sweepers and cleanup jobs, with crashes between any two file operations and with objects published after an abort: reported successes agree with the state, a completed upload never saw a compensating delete, and while its asset is ready the object is there and described with the declared size and checksum. |
| Uploads.OutcomesAreFinal | backend/internal/media/repository.go:170-267 | Completed and aborted are absorbing. |
| Uploads.CompensationNeverHitsCompletion | backend/internal/media/service.go:239-249 | A run in which a compensating delete ran or is about to run never completes. |
| Uploads.HopelessNeverCompletes | backend/internal/storage/local.go:378-391 | Once an object is published that nobody is going to describe, no continuation ever completes the upload. |
| Uploads.CrashedCallOnlyAborts | backend/internal/storage/local.go:378-391 | A concrete run gets there: the only call crashes between publishing and describing. |
| Parts.PartsAddUp | backend/internal/media/upload_policy.go:121-131 | The sizes demanded of the parts add up to the declared size, and each is positive and at most the part size. |
| Parts.CheckParts | backend/internal/media/service.go:197-210 | Accepts exactly a list of the planned length with distinct planned numbers, tags, and well-formed checksums where there are any. |
| Parts.ValidateCompletedParts | backend/internal/storage/storage.go:206-224 | Accepts exactly 1 to 10000 parts with distinct allowed numbers, tags, and well-formed checksums where there are any, and returns the same parts in strictly increasing order. |
| Parts.SortedListIsComplete | backend/internal/media/service.go:200-211 | An accepted list, sorted, names exactly the parts 1, 2, ..., count. |
| Parts.Assemble | backend/internal/storage/local.go:328-372 | Succeeds exactly when each stored part matches its listed one and the bytes in order have the declared size and checksum; the object is those bytes. |
| Parts.FullSetFits | backend/internal/storage/local.go:367-369 | A full set of accepted parts never runs into the size mismatch. |
| Parts.BytesInNumberOrder | backend/internal/storage/local.go:328-360 | Byte k of part n+1 stands n part sizes further on in the object. |
| LocalStore.Directory.PublishExclusive | backend/internal/storage/local.go:523-528 | Publishing never replaces an object that is there. |
| LocalStore.Directory.Put | backend/internal/storage/local.go:70-125 | The call is the sequence of its file operations, run without interruption. |
| LocalStore.PutSucceedsIff | backend/internal/storage/local.go:70-125 | A fault-free Put of matching bytes succeeds exactly when there is no object yet or it is described with the same size and checksum; success is then visible and a conflict changes nothing. |
| LocalStore.CrashBreaksRetry | backend/internal/storage/local.go:100-123 | After a crash between publishing and describing, storing the same bytes again is a conflict for ever. |
| LocalStore.StatIsTruthful | backend/internal/storage/local.go:70-175 | At every point of every interleaving of Puts and multipart completions, crashes included, Stat reports nothing or the truth, and what it has reported never changes. |
| LocalStore.StatIsTruthfulFromEmpty | backend/internal/storage/local.go:70-175 | In particular from the empty store on. |
| LocalStore.TruthfulIff | backend/internal/storage/local.go:149-192 | Whatever writers, crashes and Deletes interleave, Stat is truthful in every state of a run if and only if no writer in it publishes beside the metadata of other bytes of the same size or describes beside other bytes of the same size. |
| LocalStore.StatIsTruthfulUnderDelete | backend/internal/storage/local.go:177-192 | Writers that agree on what they store keep Stat truthful even while Deletes interleave. |
| LocalStore.DeleteCanMislead | backend/internal/storage/local.go:177-192 | A concrete run: other bytes of the same size, published between the two removals of a Delete, are reported under the old checksum. |
| UploadStore.OperationIsStep | backend/internal/storage/local.go:378-391 | Each file operation of a completing writer is the step of the upload's call at that point, whatever is in the store. |
| UploadStore.UploadRunIsStoreRun | backend/internal/media/service.go:227-248 | Every run of an upload, with its completions, aborts, crashes, compensating deletes and cleanup jobs, is in its two files a run of the local store; so what the store reports is always the object that is there. |
| Activity.Uncovered | backend/internal/activity/service.go:135-161 | The cursor loop computes the gaps left between the earlier credits in order of their start. |
| Activity.LeftIsUncovered | backend/internal/activity/service.go:135-161 | Whatever the order and overlaps of the earlier credits: the pieces are non-empty, disjoint, and exactly the part of the interval that no credit covers. |
| Activity.Account.Append | backend/internal/activity/repository.go:16-79 | A batch is applied whole or not at all: known equal events are skipped, a reused id with other content is a conflict. |
| Activity.Account.Record | backend/internal/activity/service.go:63-80 | Intervals are cut to milliseconds and validated before anything is stored. |
| ActivityLaws.CreditsAreDisjoint | backend/internal/activity/repository.go:33-77 | After any accepted batches the earned credits are non-empty and pairwise disjoint, and are exactly the time of the accepted intervals that history does not cover. |
| ActivityLaws.DisjointIffHistoryIs | backend/internal/activity/repository.go:33-77 | The whole ledger is free of overlaps if and only if the historical credits are. |
| ActivityLaws.LedgerCountsOnceIff | backend/migrations/0023_user_activity.sql:24-33 | In every ledger that grew out of the migration the total counts every moment once if and only if no two old recordings overlapped. |
| ActivityLaws.HistoryMayOverlap | backend/migrations/0023_user_activity.sql:24-33 | Two ten-minute recordings saved five minutes apart leave a ledger that counts five minutes twice, whatever is recorded later. |
| ActivityLaws.AcceptedIff | backend/internal/activity/repository.go:33-77 | A batch is accepted exactly when it is consistent with itself and the ledger, and then exactly its new intervals are added. |
| ActivityLaws.RecordedIff | backend/internal/activity/service.go:63-80 | A call is recorded exactly when it has 1 to 100 intervals and each, cut to the greatest whole millisecond not after it, is valid, agrees with what its identifier stands for and begins no earlier than the account; each is stored that way. |
| ActivityLaws.BatchingIsFree | backend/internal/activity/repository.go:33-77 | Splitting a batch changes nothing. |
| ActivityLaws.OrderIsFree | backend/internal/activity/repository.go:33-77 | The same intervals in any order and with any repetitions are accepted together or not at all and earn the same time, all kinds together. |
| ActivityKinds.SummaryCountsOnceIff | backend/internal/activity/repository.go:94-116 | The sum of a kind, in all and in a day, counts each of its moments once if and only if the historical credits of that kind do not overlap there, and never less. |
| ActivityKinds.CreditedToFirst | backend/internal/activity/repository.go:48-77 | A moment outside the history is credited to the kind of the first interval that covers it, and to no other. |
| ActivityKinds.UnmixedIsFree | backend/internal/activity/repository.go:94-116 | When no two intervals of different kinds overlap outside the history, the sums of every kind, in all and in every day, do not depend on the order of arrival. |
| ActivityKinds.KindTotalIsFreeIff | backend/internal/activity/repository.go:94-98 | The spoken total does not depend on the order of arrival if and only if no two intervals of different kinds overlap outside the history. |
| ActivityKinds.OrderDecidesTheKind | backend/internal/activity/repository.go:94-98 | A concrete pair of overlapping intervals: ten milliseconds are spoken in one order and five in the other. |
| ActivityLaws.ReplayIsFree | backend/internal/activity/repository.go:33-77 | Sending a batch again, after anything else was accepted, changes nothing. |
| SqlScanner.RejectTransactionControl | backend/migrations/migrations.go:66-158 | The index-driven loop decides what the item-by-item reading of the text decides, and terminates. |
| SqlItems.ScannerIsExact | backend/migrations/migrations.go:66-158 | For every sequence of spaces, line comments, nested block comments, quoted, escape and dollar-quoted strings, words and characters rendered without running together: transaction control is reported exactly when some statement begins with one of the seven keywords, and nothing is reported unterminated. |
| SqlItems.EverySequenceIsDecided | backend/migrations/migrations.go:66-158 | Written on separate lines, every sequence of well-formed items is decided that way. |
| SqlItems.ControlsIff | backend/migrations/migrations.go:66-158 | The item-by-item decision is the one about the first item of each statement. |
| SqlItems.CommentReads | backend/migrations/migrations.go:77-94 | A block comment nested to any depth is read to its own end and no further. |
| SqlItems.KeywordsAre | backend/migrations/migrations.go:144-149 | The seven words, in every mixture of cases, and no others are transaction control. |
| SqlItems.OpenQuoteIsReported | backend/migrations/migrations.go:95-119 | A quote that is never closed is reported as unterminated. |
| SqlItems.OpenCommentIsReported | backend/migrations/migrations.go:77-94 | So is a block comment that is never closed. |
| SqlItems.OpenDollarIsReported | backend/migrations/migrations.go:120-135 | So is a dollar quote that is never closed. |
| FeedbackSpan.PhrasePositions | backend/internal/recording/feedback_span.go:23-53 | The search loop finds the whole-word occurrences, each of them once. |
| FeedbackSpan.PositionsAreExact | backend/internal/recording/feedback_span.go:23-53 | Exactly the whole-word occurrences, overlapping ones included, in increasing order. |
| FeedbackSpan.Utf16Length | backend/internal/recording/feedback_span.go:55-64 | The length is the number of UTF-16 code units. |
| FeedbackSpan.SpanQuotes | backend/internal/recording/feedback_span.go:66-92 | The span of an occurrence slices the text's UTF-16 units back to exactly the phrase. |
| FeedbackSpan.ResolveFeedbackSpan | backend/internal/recording/feedback_span.go:66-92 | A span is given exactly when one match remains under the given turn and occurrence. |
| FeedbackSpan.PositionsStand | backend/internal/recording/feedback_span.go:23-53 | A position is one where the phrase stands and no word goes on over an end of it. |
| FeedbackSpan.ResolvedIff | backend/internal/recording/feedback_span.go:66-92 | A quotation resolves exactly if there is one occurrence that it may mean, under the given turn and occurrence number, and no other. |
| FeedbackSpan.UnitsRead | backend/internal/recording/feedback_span.go:55-64 | A character above U+FFFF is a high and a low surrogate from which it can be computed back; any other is one unit. |
| FeedbackSpan.ResolvedQuotes | backend/internal/recording/feedback_span.go:66-92 | A resolved span quotes the phrase from an answer it was allowed to come from. |
| FeedbackSpan.ResolvedOccurrence | backend/internal/recording/feedback_span.go:66-92 | With an occurrence number and one answer, the span is that of the k-th occurrence, and none beyond the last. |
| FeedbackPractice.PracticeSentenceBoundary | backend/internal/recording/feedback_practice.go:116-144 | A line break ends a sentence, and so does an exclamation or question mark with nothing but closing quotes before white space or the end of the text; a full stop there does unless one of the ten abbreviations, in any case, or a single capital letter stands before it; nothing else does. |
| FeedbackPractice.BoundaryEndsSentence | backend/internal/recording/feedback_practice.go:116-144 | The same of the decision itself, for every text and position. |
| FeedbackPractice.FindLeft | backend/internal/recording/feedback_practice.go:64-67 | The nearest sentence start before the fragment. |
| FeedbackPractice.FindRight | backend/internal/recording/feedback_practice.go:68-78 | The nearest sentence end behind the fragment, with the closing quotes attached to it. |
| FeedbackPractice.Clip | backend/internal/recording/feedback_practice.go:79-97 | The whole sentence when it fits; otherwise the centred window with each edge moved just past the word it would cut, never into the fragment and never over the budget. |
| FeedbackPractice.RawWindowIsCentred | backend/internal/recording/feedback_practice.go:79-90 | Before words are spared, a window smaller than its sentence uses its whole budget and has the fragment in its middle unless it reaches an end of the sentence. |
| FeedbackPractice.FeedbackPracticeContext | backend/internal/recording/feedback_practice.go:47-114 | A context is given exactly for a located item with room; both texts are at most 800 characters, ellipses included, and show that one window with the fragment whole and with the correction in its place; the item's own audio is played exactly when it says the shown correction. |
| FeedbackPractice.ShownReads | backend/internal/recording/feedback_practice.go:98-113 | The original is a stretch of the text, the other the same stretch with the corrected words in place of the quoted ones, with an ellipsis on each side where the sentence goes on; the own recording is played exactly for the own corrected text. |
| FeedbackPractice.HasContextIff | backend/internal/recording/feedback_practice.go:47-82 | A context is given exactly for a correction of at most 796 characters on either side whose occurrence stands at the offsets of its span. |
| FocusedFeedback.ParseAnswer | backend/internal/recording/focused_feedback.go:149-207 | One answer is accepted when every item is and the counts allow it; the selection is ranked, apart and in text order. |
| FocusedFeedback.AcceptItem | backend/internal/recording/focused_feedback.go:150-185 | An item is accepted exactly when it is well formed and anchored in this very answer. |
| FocusedFeedback.AcceptedIff | backend/internal/recording/focused_feedback.go:150-185 | An item is accepted exactly if its texts, limits, scripts and lesson are right for its kind and its quotation occurs often enough; it then says what was sent. |
| FocusedFeedback.ParsedAnswerIff | backend/internal/recording/focused_feedback.go:149-207 | An answer is parsed exactly if each item is accepted and there is at most one praise and one native tip. |
| FocusedFeedback.ParseResponse | backend/internal/recording/focused_feedback.go:139-207 | Every answer of a response is parsed, or the response is refused. |
| FocusedFeedback.ParseFocusedFeedback | backend/internal/recording/focused_feedback.go:120-214 | The first response that parses is used, in turn order. |
| FocusedFeedback.FirstUsable | backend/internal/recording/focused_feedback.go:120-214 | The feedback is that of the first response that answers each text once with answers that parse, in the order of the turns; there is none exactly if no response does. |
| FocusedFeedback.AcceptedIsSound | backend/internal/recording/focused_feedback.go:171-185 | An accepted span slices the answer's UTF-16 back to the quoted fragment, and an accepted blocker or native tip always gets a practice context from the same answer. |
| FocusedFeedback.AnswerIsSound | backend/internal/recording/focused_feedback.go:186-207 | The items shown are sound, share no place and follow the text; an accepted item that is left out overlaps a shown one that may displace it: a blocker only gives way to a blocker, and praise to no native tip. |
| FocusedFeedback.ParsedEach | backend/internal/recording/focused_feedback.go:139-207 | The accepted feedback is, answer by answer, what that answer was parsed to. |
| FocusedFeedback.EveryTextIsAnswered | backend/internal/recording/focused_feedback.go:139-147 | An accepted response answers every text exactly once. |
| FocusedFeedback.DecodeForAnswers | backend/internal/recording/feedback_practice.go:29-45 | Reading back over the stored answers, an item gets a context exactly when its answer is there, its span is in that answer and its quotation is found where the span says. |
| FocusedFeedback.AcceptedReadsBack | backend/internal/recording/feedback_practice.go:29-45 | Accepted feedback read back against the same answers: every blocker and native tip of every answer gets its context, and praise gets none. |
| Greedy.SelectLoop | backend/internal/recording/analysis_review.go:181-193 | The nested loops keep an item exactly when no kept one overlaps it. |
| Greedy.DroppedOverlaps | backend/internal/recording/analysis_review.go:181-193 | A dropped item overlaps a kept one that came no later. |
| Sorting.SortIsStable | backend/internal/recording/analysis_review.go:167-201 | Sorting keeps elements that tie in their order. |
| Review.DeduplicateReviewedSuggestions | backend/internal/recording/analysis_review.go:152-202 | Anchoring, first of each key, stable sort, greedy selection, stable sort by position. |
| Review.ResultIsApart | backend/internal/recording/analysis_review.go:152-202 | The result is pairwise non-overlapping and in text order. |
| Review.ResultSpansAre | backend/internal/recording/analysis_review.go:181-201 | Kept items have spans that share no place and stand in the order of turns and starts. |
| Review.FirstsSpeakOnce | backend/internal/recording/analysis_review.go:152-166 | Of the anchored items that say the same about the same place, the first enters the selection and no other. |
| Review.DroppedForBetter | backend/internal/recording/analysis_review.go:167-193 | A dropped first item overlaps a kept one that may displace it: a language switch before any other item, then the more severe by name, then one that is not about naturalness, then one at least as long. |
| Review.SwitchIsRepresented | backend/internal/recording/analysis_review.go:152-202 | In the order the passes are merged in, every anchored language switch overlaps a kept language switch: no other category displaces one. |
| Review.SelectionIsIdempotent | backend/internal/recording/analysis_review.go:152-202 | Deduplicating the result again changes nothing. |
| ReviewDecisions.SuggestionFromCandidate | backend/internal/recording/analysis_review.go:101-135 | A candidate becomes a suggestion exactly when it is presentable, occurs in the transcript and can be anchored; its rule is kept only when the catalogue has it for the category. |
| ReviewDecisions.ReviewedRussianCovered | backend/internal/recording/analysis_review.go:137-150 | Each required phrase has a language switch with a Latin correction. |
| ReviewDecisions.CheckIds | backend/internal/recording/analysis_review.go:38-47 | Candidates need distinct, non-empty ids. |
| ReviewDecisions.Decide | backend/internal/recording/analysis_review.go:60-87 | The decisions give a suggestion per accepted candidate, or nothing when one is missing, malformed or a rejected language switch. |
| ReviewDecisions.VerdictIs | backend/internal/recording/analysis_review.go:60-87 | The word "reject" drops a candidate unless it is a language switch, each of the three severities gives a suggestion of that severity, and anything else refuses the response. |
| ReviewDecisions.FromCandidateIff | backend/internal/recording/analysis_review.go:101-135 | A candidate becomes a suggestion exactly if its texts are there, differ, fit and occur, a switch is corrected in Latin letters only, and it has or finds a place. |
| ReviewDecisions.YieldIff | backend/internal/recording/analysis_review.go:48-99 | A response is acceptable exactly if it has one decision per candidate, none is refused and the selection corrects every required phrase. |
| ReviewDecisions.ParseReviewedSuggestions | backend/internal/recording/analysis_review.go:37-99 | The first acceptable response decides. |
| ReviewDecisions.EveryCandidateIsDecided | backend/internal/recording/analysis_review.go:57-76 | An accepted response decides exactly the candidates and rejects no language switch. |
| ReviewDecisions.AcceptedReview | backend/internal/recording/analysis_review.go:60-99 | What it yields is apart, in text order, traceable to candidates with the severity they were given, and still contains every required phrase. |
| ReviewDecisions.FirstAcceptable | backend/internal/recording/analysis_review.go:48-99 | Nothing is returned exactly when no response is acceptable; otherwise the earliest acceptable one is used. |
| Phrases.FoundAre | backend/internal/recording/analysis_support.go:10-10 | The matches of the phrase pattern follow one another without overlap, each is a longest run of letters and joining characters between letters, and every Cyrillic letter is in one. |
| Phrases.PlacesApart | backend/internal/recording/analysis_prompts.go:124-130 | The places of two phrases do not overlap. |
| Phrases.ExtractRussianPhrases | backend/internal/recording/analysis_support.go:34-44 | Each phrase once, in the order of its first occurrence. |
| Phrases.AnalysisRussianPhrases | backend/internal/recording/analysis_support.go:83-98 | The phrases of all answers, each once, in order. |
| Phrases.RussianAre | backend/internal/recording/analysis_support.go:83-98 | The required phrases are exactly the phrases that stand somewhere in the answers. |
| Phrases.RussianInOrder | backend/internal/recording/analysis_support.go:83-98 | They stand in the order in which they first occur in the answers. |
| Detectors.DetectCandidate | backend/internal/recording/analysis_prompts.go:58-91 | A candidate is accepted exactly when it is well formed, occurs in the transcript and is anchored; it gets the category of the pass. |
| Detectors.DetectedIff | backend/internal/recording/analysis_prompts.go:58-91 | A candidate is accepted exactly if its trimmed texts are there, differ and fit, the quoted one occurs and resolves, and the rule is not oversized; it says what was sent, in the category of the pass. |
| Detectors.LanguageCandidatesCover | backend/internal/recording/analysis_prompts.go:102-117 | Each required phrase has a candidate with a Latin correction. |
| Detectors.LanguageCandidateSpansCovered | backend/internal/recording/analysis_prompts.go:119-142 | Accepts exactly candidates that stand at distinct expected places, as many as there are. |
| Detectors.CoveredPlaces | backend/internal/recording/analysis_prompts.go:119-142 | Then every expected place is found. |
| Detectors.ParseDetectorCandidates | backend/internal/recording/analysis_prompts.go:39-100 | The first acceptable response decides; for the language pass it also has to cover the phrases and their places. |
| Detectors.AnswerIff | backend/internal/recording/analysis_prompts.go:39-100 | A response is used exactly if each of its candidates is accepted and, in the language pass, they cover the phrases and their places. |
| Detectors.FirstUsable | backend/internal/recording/analysis_prompts.go:39-100 | The first such response is used; there is none exactly if no response is usable. |
| Detectors.AnswerIsGuaranteed | backend/internal/recording/analysis_prompts.go:85-94 | Whatever the model answers, accepted candidates carry the category of the pass and a span with a width, and those of the language pass are the Cyrillic phrases, each once. |
| Detectors.SkippedIsGuaranteed | backend/internal/recording/analysis_service.go:145-146 | Skipping the language pass when no phrase is required loses nothing. |
| LanguagePass.AcceptableIff | backend/internal/recording/analysis_prompts.go:39-142 | Some response of the language pass is acceptable if and only if every Cyrillic phrase stands as a whole word, has at most 500 characters and occurs in the transcript. |
| LanguagePass.AttachedPhraseIsRefused | backend/internal/recording/feedback_span.go:23-53 | A concrete transcript: a Russian noun attached to a Latin word is expected and can never be anchored, so every response is refused. |
| Detectors.DetectorPass | backend/internal/recording/analysis_service.go:206-236 | A pass is skipped, or answered by the first of two requests that is acceptable; its outcome is guaranteed and marked with the pass. |
| AnalysisFlow.MergedLeads | backend/internal/recording/analysis_service.go:176-197 | Merged in pass order, the language switches precede every other candidate, however each pass is sorted. |
| AnalysisFlow.EverySwitchIsRepresented | backend/internal/recording/analysis_review.go:37-99 | In an accepted review of such candidates each language switch is represented by an overlapping language switch. |
| AnalysisFlow.EveryPhraseIsCorrected | backend/internal/recording/analysis_service.go:79-110 | Whatever the detectors answer, however the pool is scheduled and whatever the review decides: in an accepted review every Cyrillic phrase of the answers is corrected, in Latin letters, by a language switch of its own at its place. |
| AnalysisFlow.ComposedTurnsAreDistinct | backend/internal/recording/interview_timeline.go:22-73 | The dialogue of a composed interview numbers its answers apart. |
| DetectorPool.PoolIsSequential | backend/internal/recording/analysis_service.go:121-170 | For any number of workers and any interleaving, every pass runs exactly once and the recorded results are those of running the passes one after another. |
| DetectorPool.NeverStuck | backend/internal/recording/analysis_service.go:121-171 | Until the workers are done, some step is possible. |
| DetectorPool.MergeResults | backend/internal/recording/analysis_service.go:176-203 | The candidates in pass order, or the error of the first failed pass. |
| DetectorPool.MergedErrorIs | backend/internal/recording/analysis_service.go:176-197 | The error of a merge is that of the first failed pass, and without one every pass succeeded. |
| DetectorPool.AssignIds | backend/internal/recording/analysis_service.go:198-202 | Each candidate is numbered within its category, in order. |
| DetectorPool.IdIsNumbered | backend/internal/recording/analysis_service.go:198-202 | The candidates of a category are numbered from 1 in their order. |
| DetectorPool.PaddedIs | backend/internal/recording/analysis_service.go:198-202 | A number is written with three digits or more and can be read back. |
| DetectorPool.IdsAreDistinct | backend/internal/recording/analysis_service.go:198-202 | All identifiers of a merge are different. |
| DetectorPool.MergeIsSequential | backend/internal/recording/analysis_service.go:121-204 | However the workers were scheduled, the merged and identified candidates are those of running the passes one after another, with distinct identifiers. |
| JsonExtract.ExtractJsonObjects | backend/internal/aiparse/content.go:56-97 | The scanning loop with its depth and string flags computes the recursive reading of the text. |
| JsonExtract.ExtractionUndoesPrinting | backend/internal/aiparse/content.go:56-97 | Objects printed as sections 4 and 7 of RFC 8259 say, between texts without quotes and opening braces, come back exactly and in order, whatever escapes and nesting they contain. |
| JsonExtract.FoundAreBraced | backend/internal/aiparse/content.go:56-97 | Whatever the text is, what is found begins with an opening and ends with a closing brace. |
| JsonExtract.StripBlocks | backend/internal/aiparse/content.go:26-40 | The loop removes one block at a time, from the first opening to the first closing tag, until there is none, and terminates. |
| JsonExtract.StripThinkingBlocks | backend/internal/aiparse/content.go:26-40 | Both tag pairs are stripped, one after the other. |
| JsonExtract.StrippedIsSettled | backend/internal/aiparse/content.go:26-40 | Nothing removable is left, and a text with nothing removable is left alone. |
| JsonExtract.StrippingUndoesMarking | backend/internal/aiparse/content.go:26-40 | From text with any number of marked blocks exactly the blocks go, each replaced by a space, whatever the case of the tags. |
| RefreshTokens.Database.CreateDeviceGrant | backend/internal/auth/identity.go:169-193 | A new session with one token that expires with it. |
| RefreshTokens.Database.RotateRefreshToken | backend/internal/auth/refresh.go:15-137 | Exactly a token that is neither consumed nor revoked, whose session is live, whose principal is neither merged nor without its user, and none of whose three expiries has come, is consumed and replaced by one of the same session that expires with it; a spent or revoked one is a reuse and a late one has expired, and both revoke the session with all its tokens; any other changes nothing. |
| RefreshTokens.GrantRotates | backend/internal/auth/refresh.go:73-130 | The token of a new grant rotates as long as neither the grant nor its principal has expired. |
| RefreshTokens.RotationRotates | backend/internal/auth/refresh.go:73-130 | A replacement rotates in its turn, as long as its session and principal have not expired. |
| RefreshTokens.Database.RevokeSession | backend/internal/auth/sessions.go:81-90 | The session and all its tokens are revoked, earlier revocations keep their time. |
| RefreshTokens.Database.RevokeDeviceSession | backend/internal/auth/sessions.go:32-52 | Only the owner's live session is revoked. |
| RefreshTokens.PrincipalEnds | backend/internal/auth/sessions.go:54-79 | Revoking a principal ends each of its sessions with all their tokens, and no other. |
| RefreshTokens.RotateCases | backend/internal/auth/refresh.go:73-130 | Presenting a token rotates it, revokes its session, or changes nothing. |
| RefreshTokens.OneUsableToken | backend/internal/auth/refresh.go:73-130 | In every reachable state a session has at most one token that is neither consumed nor revoked, a revoked session has only revoked tokens, and a consumed token points to its replacement in the same session. |
| RefreshTokens.RotatesOnce | backend/internal/auth/refresh.go:73-130 | Each token yields at most one rotation, however the run goes on. |
| RefreshTokens.ReuseEndsTheSession | backend/internal/auth/refresh.go:73-81 | After a reuse no token of that session is ever rotated again, whenever it was issued. |

## Left out

- WorkQueue.Store.Claim: any claimable row may be picked; priorities and skipped locked rows are not modelled.
- WorkQueue.Store.PruneTerminal: which of the eligible rows go first is not modelled.
- Recordings.Repository.CompleteRecording: the comparison of the corrected answers with the saved turns is an input.
- Recordings.Repository.Create: the quota, media and interview-link checks are one input `admitted`, and the texts of the request are one number.
- Recordings.Repository.Remove: the jobs and assets of feedback audio and of the interview are not modelled.
- Recordings.Repository.Promote: the expiry of previews and the ownership of their assets are not modelled.
- Interview.Repository.AttachAudio: whether the asset is usable is an input.
- Interview.Repository.SaveAdaptive: whether the question is new is an input.
- Interview.Repository.SaveRefill: whether the question is new is an input.
- Interview.Repository.Cancel: the guest link and question artifacts are not modelled.
- Interview.Repository.VerifyInterviewDuration: the session half; InterviewRecording.Saver.VerifyInterviewDuration is the whole.
- Interview.Repository.SaveInterviewAnswers: the session half; InterviewRecording.Saver.SaveInterviewTranscript is the whole.
- ReviewDecisions.SuggestionFromCandidate: the hashed identifier of a suggestion is not modelled.
- LocalStore.StatIsTruthful: runs without Delete; LocalStore.TruthfulIff covers all runs.
- Review.SelectionIsIdempotent: items that come with a span must have a non-empty one, as all resolved spans do.
- Jobs of kinds that never touch a recording or an interview turn (media deletion, feedback audio), queue statistics and the retry delay.
- Learning references and strengths columns, and shadowing's own processing.
- Interview: the guest composing path, answer attempts, and deletion by the sweep; refill jobs may appear at any time.
- Uploads: object keys, presigning, idempotent CreateUpload and the checks on a single part request.
- Local store: paths, links, permissions, the publishing of single parts, and clearing the parts one by one.
- Remote store: that its check of an object and the removal of a wrong one are two requests.
- Activity: how the summary finds the local midnights of its days, and its intensities.
- Texts are sequences of code points, and lower-casing is ASCII only.
- Detectors: cancellation, checkpoints, and the order within one pass, which is a parameter.
- Decoding JSON into decisions, candidates and feedback items, and the removal of Markdown fences; hashes of feedback are as distinct as what they are hashed from.
- Refresh tokens: secrets and their hashes, access tokens, and merging principals beyond its effect on sessions.
- HTTP, configuration, metrics, the web client and all foreign services.
