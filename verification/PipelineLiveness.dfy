/** What the recording pipeline achieves when nobody interferes: safety alone would be kept by a
    worker that never saves anything. */
module PipelineLiveness {
  import opened Prelude
  import opened Text
  import opened WorkQueue
  import opened Recordings
  import opened Processing
  import opened Pipeline

  /** Worker `i` works on the recording under a live lease; `row` is what is stored. */
  predicate Working(w: World, i: nat, job: Id, id: Id, row: Recording, phase: Phase) {
    && i in w.workers && w.workers[i].phase == phase
    && var held := w.workers[i].held;
    && held.id == job && held.resource == id && held.kind == RecordingProcess && LeaseActive(w.t.jobs, held, w.now)
    && id in w.t.recordings && w.t.recordings[id] == row && row.status == Processing && row.job == job
  }

  /** A recording whose job can be claimed. */
  predicate Waiting(w: World, id: Id) {
    && id in w.t.recordings && w.t.recordings[id].status == Processing && w.t.recordings[id].job in w.t.jobs
    && var job := w.t.jobs[w.t.recordings[id].job];
    job.kind == RecordingProcess && job.resource == id && Claimable(job, w.now)
  }

  lemma ClaimWorks(p: Ports, w: World, i: nat, id: Id, lease: nat)
    requires Waiting(w, id) && i !in w.workers && lease > 0
    ensures
      var row := w.t.recordings[id];
      Working(Step(p, w, Claim(i, row.job, lease)), i, row.job, id, row, Started)
    ensures Step(p, w, Claim(i, w.t.recordings[id].job, lease)).t.jobs.Keys == w.t.jobs.Keys
  {
    ClaimIs(w, i, w.t.recordings[id].job, lease);
  }

  lemma LoadWorks(p: Ports, w: World, i: nat, job: Id, id: Id, row: Recording)
    requires Working(w, i, job, id, row, Started)
    ensures Working(Step(p, w, Load(i)), i, job, id, row, Resumed(row)) && Step(p, w, Load(i)).t == w.t
  {
  }

  lemma VerifyWorks(p: Ports, w: World, i: nat, job: Id, id: Id, row: Recording, seconds: int)
    requires Working(w, i, job, id, row, AtTranscribing) && 1 <= seconds <= 600
    ensures Working(Step(p, w, VerifyDuration(i, seconds)), i, job, id, row.(duration := seconds), DurationVerified)
    ensures Step(p, w, VerifyDuration(i, seconds)).t.jobs == w.t.jobs
  {
    VerifyIs(p, w, i, seconds);
  }

  lemma TranscribeWorks(p: Ports, w: World, i: nat, job: Id, id: Id, row: Recording, text: string)
    requires Working(w, i, job, id, row, DurationVerified) && !Blank(text)
    ensures
      var transcript := NormalizeTranscript(text);
      Working(Step(p, w, Transcribe(i, text)), i, job, id, row.(transcript := transcript, stage := Some(SuggestionsStage)), AtSuggestions(transcript))
    ensures Step(p, w, Transcribe(i, text)).t.jobs == w.t.jobs
  {
    NormalizeBlank(text);
    TranscribeIs(p, w, i, text);
  }

  lemma AnalyzeWorks(p: Ports, w: World, i: nat, job: Id, id: Id, row: Recording, transcript: string, suggestions: seq<string>, pending: bool)
    requires Working(w, i, job, id, row, AtSuggestions(transcript)) && p.analysis(transcript, suggestions)
    requires StrengthsOf(job) !in w.t.jobs
    ensures Working(Step(p, w, Analyze(i, suggestions, pending)), i, job, id,
                    row.(suggestions := suggestions, stage := Some(RewritingStage)), AtRewriting(transcript, suggestions))
  {
    var held := w.workers[i].held;
    assert Enqueued(w.t.jobs, StrengthsOf(job), NewJob(RecordingStrengths, id, StrengthsKey(StrengthsOf(job)), 3, w.now)).Ok?;
    AnalyzeIs(p, w, i, suggestions, pending);
  }

  /** Worker `i` has saved the result and returns. */
  predicate Saved(w: World, i: nat, job: Id, id: Id, row: Recording) {
    && i in w.workers && w.workers[i].phase == Returned(true) && w.workers[i].held.id == job && Holds(w.t.jobs, w.workers[i].held)
    && id in w.t.recordings && w.t.recordings[id] == row
  }

  lemma CompletionAdvances(p: Ports, w: World, held: Claimed, corrected: string, dialogue: Option<bool>)
    requires Inv(p, w) && LeaseActive(w.t.jobs, held, w.now) && ActiveUnder(w.t, held.resource, held.id)
    requires dialogue == Some(true) || (dialogue == None && !Blank(corrected))
    ensures CompletedRecording(w.t, held, corrected, Uuid(w.next), dialogue, w.now).1 == Advanced
  {
    FreshJobIsFree(p, w);
    TrimBlank(corrected);
  }

  lemma RewriteWorks(p: Ports, w: World, i: nat, job: Id, id: Id, row: Recording, transcript: string, suggestions: seq<string>,
                     corrected: string, dialogue: Option<bool>)
    requires Inv(p, w) && Working(w, i, job, id, row, AtRewriting(transcript, suggestions)) && p.rewrite(transcript, suggestions, corrected)
    requires dialogue == Some(true) || (dialogue == None && !Blank(corrected))
    ensures Saved(Step(p, w, Rewrite(i, corrected, dialogue)), i, job, id,
                  row.(status := Ready, stage := None, corrected := corrected, shadowing := Some(Uuid(w.next))))
  {
    CompletionAdvances(p, w, w.workers[i].held, corrected, dialogue);
    RewriteIs(p, w, i, corrected, dialogue);
    RewrittenIs(w.(next := w.next + 1), i, corrected, Uuid(w.next), dialogue);
  }

  lemma FinishWorks(p: Ports, w: World, i: nat, job: Id, id: Id, row: Recording, delay: nat)
    requires Saved(w, i, job, id, row)
    ensures
      var t := Step(p, w, Finish(i, delay)).t;
      && id in t.recordings && t.recordings[id] == row && job in t.jobs && t.jobs[job].state == Succeeded
  {
  }

  function Steps(i: nat, job: Id, lease: nat, seconds: int, text: string, suggestions: seq<string>, pending: bool,
                 corrected: string, dialogue: Option<bool>, delay: nat): seq<Action> {
    [Claim(i, job, lease), Load(i), VerifyDuration(i, seconds), Transcribe(i, text), Analyze(i, suggestions, pending),
     Rewrite(i, corrected, dialogue), Finish(i, delay)]
  }

  lemma {:induction false} RunSnoc(p: Ports, w: World, actions: seq<Action>, last: Action)
    ensures Run(p, w, actions + [last]) == Step(p, Run(p, w, actions), last)
    decreases |actions|
  {
    if actions == [] {
      assert actions + [last] == [last] && [last][1..] == [];
    } else {
      assert (actions + [last])[1..] == actions[1..] + [last];
      RunSnoc(p, Step(p, w, actions[0]), actions[1..], last);
    }
  }

  lemma StepsAre(p: Ports, w: World, a: seq<Action>)
    requires |a| == 7
    ensures Run(p, w, a) == Step(p, Run(p, w, a[..6]), a[6])
    ensures Run(p, w, a[..6]) == Step(p, Step(p, Step(p, Step(p, Step(p, Step(p, w, a[0]), a[1]), a[2]), a[3]), a[4]), a[5])
  {
    assert a == a[..6] + [a[6]];
    RunSnoc(p, w, a[..6], a[6]);
    forall k | 1 <= k <= 6 ensures Run(p, w, a[..k]) == Step(p, Run(p, w, a[..k - 1]), a[k - 1]) {
      assert a[..k] == a[..k - 1] + [a[k - 1]];
      RunSnoc(p, w, a[..k - 1], a[k - 1]);
    }
    assert Run(p, w, a[..0]) == w;
  }

  /** A recording that waits at its first stage: one worker whom nobody disturbs, with an analyser and
      a rewriter that answer, leaves it ready with the results of this very run and its job
      succeeded. */
  lemma UndisturbedRunSucceeds(p: Ports, w: World, i: nat, id: Id, lease: nat, seconds: int, text: string, suggestions: seq<string>, pending: bool,
                               corrected: string, dialogue: Option<bool>, delay: nat)
    requires Inv(p, w) && Waiting(w, id) && w.t.recordings[id].stage == Some(TranscribingStage) && i !in w.workers
    requires lease > 0 && 1 <= seconds <= 600 && !Blank(text) && StrengthsOf(w.t.recordings[id].job) !in w.t.jobs
    requires p.analysis(NormalizeTranscript(text), suggestions) && p.rewrite(NormalizeTranscript(text), suggestions, corrected)
    requires dialogue == Some(true) || (dialogue == None && !Blank(corrected))
    ensures
      var was := w.t.recordings[id];
      var t := Run(p, w, Steps(i, was.job, lease, seconds, text, suggestions, pending, corrected, dialogue, delay)).t;
      && id in t.recordings && was.job in t.jobs && t.jobs[was.job].state == Succeeded
      && var row := t.recordings[id];
      && row.status == Ready && row.stage == None && row.user == was.user && row.request == was.request && row.duration == seconds
      && row.transcript == NormalizeTranscript(text) && row.suggestions == suggestions && row.corrected == corrected && row.shadowing.Some?
  {
    var row := w.t.recordings[id];
    var a := Steps(i, row.job, lease, seconds, text, suggestions, pending, corrected, dialogue, delay);
    StepsAre(p, w, a);
    var w1 := Step(p, w, a[0]);
    ClaimWorks(p, w, i, id, lease);
    StepKeeps(p, w, a[0]);
    var w2 := Step(p, w1, a[1]);
    LoadWorks(p, w1, i, row.job, id, row);
    StepKeeps(p, w1, a[1]);
    var w3, measured := Step(p, w2, a[2]), row.(duration := seconds);
    VerifyWorks(p, w2, i, row.job, id, row, seconds);
    StepKeeps(p, w2, a[2]);
    var transcript := NormalizeTranscript(text);
    var w4, transcribed := Step(p, w3, a[3]), measured.(transcript := transcript, stage := Some(SuggestionsStage));
    TranscribeWorks(p, w3, i, row.job, id, measured, text);
    StepKeeps(p, w3, a[3]);
    AnalysedRunSucceeds(p, w4, i, row.job, id, transcribed, transcript, suggestions, pending, corrected, dialogue, delay);
  }

  /** The second half of it, from the stored transcript on. */
  lemma AnalysedRunSucceeds(p: Ports, w: World, i: nat, job: Id, id: Id, row: Recording, transcript: string, suggestions: seq<string>, pending: bool,
                            corrected: string, dialogue: Option<bool>, delay: nat)
    requires Inv(p, w) && Working(w, i, job, id, row, AtSuggestions(transcript)) && StrengthsOf(job) !in w.t.jobs
    requires p.analysis(transcript, suggestions) && p.rewrite(transcript, suggestions, corrected)
    requires dialogue == Some(true) || (dialogue == None && !Blank(corrected))
    ensures
      var t := Step(p, Step(p, Step(p, w, Analyze(i, suggestions, pending)), Rewrite(i, corrected, dialogue)), Finish(i, delay)).t;
      && id in t.recordings && job in t.jobs && t.jobs[job].state == Succeeded && t.recordings[id].shadowing.Some?
      && t.recordings[id] == row.(suggestions := suggestions, corrected := corrected, status := Ready, stage := None,
                                  shadowing := t.recordings[id].shadowing)
  {
    var w1, analysed := Step(p, w, Analyze(i, suggestions, pending)), row.(suggestions := suggestions, stage := Some(RewritingStage));
    AnalyzeWorks(p, w, i, job, id, row, transcript, suggestions, pending);
    StepKeeps(p, w, Analyze(i, suggestions, pending));
    var ready := analysed.(status := Ready, stage := None, corrected := corrected, shadowing := Some(Uuid(w1.next)));
    RewriteWorks(p, w1, i, job, id, analysed, transcript, suggestions, corrected, dialogue);
    FinishWorks(p, Step(p, w1, Rewrite(i, corrected, dialogue)), i, job, id, ready, delay);
  }

  /** A recording that was just created waits for its first attempt, unless an old job has its key. */
  lemma CreatedWaits(p: Ports, w: World, principal: nat, user: nat, key: nat, request: nat, duration: int)
    requires CreatedRecording(w.t, principal, user, key, request, duration, true, w.now).1 == Created
    requires !KeyTaken(w.t.jobs, CreateKey(principal, key))
    ensures
      var w', id := Step(p, w, Create(principal, user, key, request, duration, true)), CreateRecordingId(principal, key);
      Waiting(w', id) && w'.t.recordings[id].stage == Some(TranscribingStage)
  {
    CreateIs(w, Create(principal, user, key, request, duration, true));
  }
}
