/** What every run of the recording pipeline guarantees. */
module PipelineSafety {
  import opened Prelude
  import opened Text
  import opened WorkQueue
  import opened Recordings
  import opened Processing
  import opened Pipeline
  import opened PipelineRows

  lemma EmptyIsSafe(p: Ports)
    ensures Inv(p, EMPTY)
  {
  }

  // ---- No torn results ----------------------------------------------------------------

  /** Whatever interleaving of workers, crashes, retries, reanalyses, promotions and
      deletions led here, a ready recording's suggestions answer its stored transcript and
      its corrected transcript answers that transcript and those suggestions. */
  lemma NoTornResults(p: Ports, actions: seq<Action>, r: Id)
    requires r in Run(p, EMPTY, actions).t.recordings && Run(p, EMPTY, actions).t.recordings[r].status == Ready
    ensures
      var row := Run(p, EMPTY, actions).t.recordings[r];
      p.analysis(row.transcript, row.suggestions) && p.rewrite(row.transcript, row.suggestions, row.corrected)
  {
    EmptyIsSafe(p);
    RunKeeps(p, EMPTY, actions);
    assert RecordingOk(p, Run(p, EMPTY, actions).t.recordings[r]);
  }

  predicate PresentThroughout(p: Ports, w: World, actions: seq<Action>, r: Id)
    decreases |actions|
  {
    r in w.t.recordings && (actions != [] ==> PresentThroughout(p, Step(p, w, actions[0]), actions[1..], r))
  }

  /** Over any stretch of a run that does not delete the recording: if it is under the same
      job at both ends, its stage did not go back.  A job a recording has left never returns. */
  lemma StagesNeverGoBack(p: Ports, w: World, actions: seq<Action>, r: Id)
    requires Inv(p, w) && PresentThroughout(p, w, actions, r)
    ensures
      var end := Run(p, w, actions);
      r in end.t.recordings && (end.t.recordings[r].job == w.t.recordings[r].job ==> NoRegress(w.t.recordings[r], end.t.recordings[r]))
  {
    StagesNeverGoBackFrom(p, w, actions, r, w.t.recordings[r]);
  }

  lemma {:induction false} StagesNeverGoBackFrom(p: Ports, w: World, actions: seq<Action>, r: Id, origin: Recording)
    requires Inv(p, w) && PresentThroughout(p, w, actions, r)
    requires Known(origin.job, w.next)
    requires w.t.recordings[r].job == origin.job ==> NoRegress(origin, w.t.recordings[r])
    ensures
      var end := Run(p, w, actions);
      r in end.t.recordings && (end.t.recordings[r].job == origin.job ==> NoRegress(origin, end.t.recordings[r]))
    decreases |actions|
  {
    if actions != [] {
      var w' := Step(p, w, actions[0]);
      StepMovesRecording(p, w, actions[0], r);
      StepKeeps(p, w, actions[0]);
      NextGrows(p, w, actions[0]);
      KnownMonotone(origin.job, w.next, w'.next);
      StagesNeverGoBackFrom(p, w', actions[1..], r, origin);
    }
  }

  lemma NextGrows(p: Ports, w: World, a: Action)
    ensures w.next <= Step(p, w, a).next
  {
  }

  // ---- Idempotent creation ------------------------------------------------------------

  lemma {:induction false} RequestIsFrozen(p: Ports, w: World, actions: seq<Action>, r: Id)
    requires Inv(p, w) && PresentThroughout(p, w, actions, r)
    ensures
      var end := Run(p, w, actions);
      && r in end.t.recordings
      && end.t.recordings[r].user == w.t.recordings[r].user && end.t.recordings[r].request == w.t.recordings[r].request
    decreases |actions|
  {
    if actions != [] {
      StepMovesRecording(p, w, actions[0], r);
      StepKeeps(p, w, actions[0]);
      RequestIsFrozen(p, Step(p, w, actions[0]), actions[1..], r);
    }
  }

  /** Repeating a successful Create any time later, while the recording exists, never creates
      anything; it is recognised as a replay exactly when the measured duration still equals
      the declared one. */
  lemma CreateReplay(p: Ports, w: World, a: Action, actions: seq<Action>)
    requires Inv(p, w) && a.Create?
    requires CreatedRecording(w.t, a.principal, a.user, a.key, a.request, a.duration, a.admitted, w.now).1 == Created
    requires PresentThroughout(p, Step(p, w, a), actions, CreateRecordingId(a.principal, a.key))
    ensures
      var end := Run(p, Step(p, w, a), actions);
      var id := CreateRecordingId(a.principal, a.key);
      var (t, outcome) := CreatedRecording(end.t, a.principal, a.user, a.key, a.request, a.duration, a.admitted, end.now);
      && t == end.t
      && id in end.t.recordings
      && (outcome == Replayed <==> end.t.recordings[id].duration == a.duration)
      && (outcome == CreateConflict <==> end.t.recordings[id].duration != a.duration)
  {
    StepKeeps(p, w, a);
    RequestIsFrozen(p, Step(p, w, a), actions, CreateRecordingId(a.principal, a.key));
  }

  /** A verified duration that differs from the declared one turns the replay into a conflict. */
  lemma VerifiedDurationConflicts(p: Ports, w: World, i: nat, seconds: int, principal: nat, key: nat)
    requires i in w.workers && w.workers[i].phase == AtTranscribing && w.workers[i].held.resource == CreateRecordingId(principal, key)
    requires VerifiedDuration(w.t, w.workers[i].held, seconds, w.now).1
    requires seconds != w.t.recordings[CreateRecordingId(principal, key)].duration
    ensures
      var row, w' := w.t.recordings[CreateRecordingId(principal, key)], Step(p, w, VerifyDuration(i, seconds));
      CreatedRecording(w'.t, principal, row.user, key, row.request, row.duration, true, w'.now).1 == CreateConflict
  {
  }

  /** A client that declared ten seconds and uploaded twelve is told its own key conflicts. */
  lemma VerifiedDurationBreaksReplay(p: Ports)
    ensures
      var create := Create(1, 1, 1, 7, 10, true);
      var end := Run(p, EMPTY, [create, Claim(0, CreateJobId(1, 1), 5), Load(0), VerifyDuration(0, 12)]);
      CreatedRecording(end.t, 1, 1, 1, 7, 10, true, end.now).1 == CreateConflict
  {
    var create := Create(1, 1, 1, 7, 10, true);
    var w1 := Step(p, EMPTY, create);
    var w2 := Step(p, w1, Claim(0, CreateJobId(1, 1), 5));
    var w3 := Step(p, w2, Load(0));
    FirstCreate();
    FirstClaim(p, w1);
    VerifiedDurationConflicts(p, w3, 0, 12, 1, 1);
    RunFour(p, EMPTY, create, Claim(0, CreateJobId(1, 1), 5), Load(0), VerifyDuration(0, 12));
  }

  lemma FirstClaim(p: Ports, w: World)
    requires w == Step(p, EMPTY, Create(1, 1, 1, 7, 10, true))
    ensures
      var id, job := CreateRecordingId(1, 1), CreateJobId(1, 1);
      var w' := Step(p, Step(p, w, Claim(0, job, 5)), Load(0));
      && 0 in w'.workers && w'.workers[0].phase == AtTranscribing && w'.workers[0].held.resource == id
      && id in w'.t.recordings && w'.t.recordings[id] == FreshRecording(1, 7, 10, TranscribingStage, job, "")
      && LeaseActive(w'.t.jobs, w'.workers[0].held, w'.now) && w'.workers[0].held.id == job
  {
    FirstCreate();
    ClaimIs(w, 0, CreateJobId(1, 1), 5);
  }

  lemma RunCons(p: Ports, w: World, a: Action, rest: seq<Action>)
    ensures Run(p, w, [a] + rest) == Run(p, Step(p, w, a), rest)
  {
    assert ([a] + rest)[1..] == rest;
  }

  lemma RunFour(p: Ports, w: World, a: Action, b: Action, c: Action, d: Action)
    ensures Run(p, w, [a, b, c, d]) == Step(p, Step(p, Step(p, Step(p, w, a), b), c), d)
  {
    var w1 := Step(p, w, a);
    var w2 := Step(p, w1, b);
    var w3 := Step(p, w2, c);
    assert [a, b, c, d] == [a] + [b, c, d] && [b, c, d] == [b] + [c, d] && [c, d] == [c] + [d];
    RunCons(p, w, a, [b, c, d]);
    RunCons(p, w1, b, [c, d]);
    RunCons(p, w2, c, [d]);
    RunCons(p, w3, d, []);
  }

  // ---- No stranded recording ----------------------------------------------------------

  predicate Stranded(t: Tables, r: Id) {
    && r in t.recordings && t.recordings[r].status == Processing
    && var job := t.recordings[r].job;
       !(job in t.jobs && Live(t.jobs[job]) && t.jobs[job].kind == RecordingProcess && t.jobs[job].resource == r)
  }

  predicate NoneStranded(t: Tables) { forall r :: r in t.recordings ==> !Stranded(t, r) }

  /** A Create that inserts a recording although an earlier job still occupies its key. */
  predicate ReusesKey(w: World, a: Action) {
    && a.Create? && a.admitted
    && CreateRecordingId(a.principal, a.key) !in w.t.recordings
    && KeyTaken(w.t.jobs, CreateKey(a.principal, a.key))
  }

  lemma ReuseStrands(p: Ports, w: World, a: Action)
    requires Inv(p, w) && ReusesKey(w, a)
    ensures Stranded(Step(p, w, a).t, CreateRecordingId(a.principal, a.key))
  {
    var job, key := CreateJobId(a.principal, a.key), CreateKey(a.principal, a.key);
    var taken :| taken in w.t.jobs && w.t.jobs[taken].key == key;
    assert taken == job;
  }

  /** Exactly the Creates that reuse an occupied key strand the recording they insert. */
  lemma CreateStrandsIff(p: Ports, w: World, a: Action)
    requires Inv(p, w) && NoneStranded(w.t) && a.Create?
    ensures NoneStranded(Step(p, w, a).t) <==> !ReusesKey(w, a)
  {
    if ReusesKey(w, a) {
      ReuseStrands(p, w, a);
    } else {
      CreateAttaches(w, a);
    }
  }

  /** A recording inserted together with its job. */
  lemma CreateAttaches(w: World, a: Action)
    requires NoneStranded(w.t) && a.Create? && !ReusesKey(w, a)
    ensures NoneStranded(ClientStep(w, a).t)
  {
    var id, w' := CreateRecordingId(a.principal, a.key), ClientStep(w, a);
    CreateIs(w, a);
    forall r | r in w'.t.recordings ensures !Stranded(w'.t, r) {
      if r != id { assert !Stranded(w.t, r); }
    }
  }

  lemma PromotionKeepsOthers(w: World, preview: Id)
    requires NoneStranded(w.t) && Promotable(w, preview)
    ensures OthersAttached(PromotionStarted(w, preview).t, preview)
  {
    forall r | r in w.t.recordings && r != preview ensures !Stranded(PromotionStarted(w, preview).t, r) { assert !Stranded(w.t, r); }
  }

  lemma PromotableNeverStrands(p: Ports, w: World, preview: Id, user: nat)
    requires Inv(p, w) && NoneStranded(w.t) && Promotable(w, preview)
    ensures NoneStranded(ClientStep(w, Promote(preview, user)).t)
  {
    FreshJobIsFree(p, w);
    PromotionStartKeeps(p, w, preview);
    PromotionIsRearm(w, preview, user);
    PromotionKeepsOthers(w, preview);
    var row := ClientStep(w, Promote(preview, user)).t.recordings[preview];
    RearmAttaches(PromotionStarted(w, preview), preview, row, PromotePreviewKey(preview));
  }

  lemma PromoteNeverStrands(p: Ports, w: World, preview: Id, user: nat)
    requires Inv(p, w) && NoneStranded(w.t)
    ensures NoneStranded(ClientStep(w, Promote(preview, user)).t)
  {
    if Promotable(w, preview) {
      PromotableNeverStrands(p, w, preview, user);
    } else {
      PromotionRefused(w, preview, user);
    }
  }

  lemma RemoveNeverStrands(w: World, user: nat, id: Id)
    requires NoneStranded(w.t)
    ensures NoneStranded(ClientStep(w, Remove(user, id)).t)
  {
    var w' := ClientStep(w, Remove(user, id));
    forall r | r in w'.t.recordings ensures !Stranded(w'.t, r) { assert !Stranded(w.t, r); }
  }

  lemma AddPreviewNeverStrands(w: World, request: nat)
    requires NoneStranded(w.t)
    ensures NoneStranded(AddedPreview(w, request).t)
  {
    var id, job := Uuid(w.next + 1), NewJob(GuestPreview, Uuid(w.next), PreviewKey(Uuid(w.next)), 3, w.now);
    AddedPreviewIs(w, request);
    if Enqueued(w.t.jobs, id, job).Ok? {
      EnqueueStays(w.t.jobs, id, job);
      AttachedStays(w.t, AddedPreview(w, request).t);
    }
  }

  lemma ClaimNeverStrands(w: World, a: Action)
    requires NoneStranded(w.t) && a.Claim?
    ensures NoneStranded(ClientStep(w, a).t)
  {
    if a.worker !in w.workers && a.job in w.t.jobs && Claimable(w.t.jobs[a.job], w.now) {
      ClaimIs(w, a.worker, a.job, a.lease);
      AttachedStays(w.t, ClientStep(w, a).t);
    }
  }

  lemma QueueNeverStrands(w: World, a: Action)
    requires NoneStranded(w.t) && (a.Tick? || a.AddPreview? || a.TranscribePreview? || a.Prune? || a.Claim?)
    ensures NoneStranded(ClientStep(w, a).t)
  {
    if a.AddPreview? {
      AddPreviewNeverStrands(w, a.request);
    } else if a.Claim? {
      ClaimNeverStrands(w, a);
    } else {
      AttachedStays(w.t, ClientStep(w, a).t);
    }
  }

  /** No other action strands a recording: in particular not the paths on which a handler
      returns nil without having advanced the recording. */
  lemma ClientNeverStrands(p: Ports, w: World, a: Action)
    requires Inv(p, w) && NoneStranded(w.t) && !IsWorkerStep(a) && !a.Create?
    ensures NoneStranded(ClientStep(w, a).t)
  {
    match a
    case Promote(preview, user) => PromoteNeverStrands(p, w, preview, user);
    case Retry(user, id) => RetryNeverStrands(p, w, user, id);
    case Reanalyze(user, id, key) => ReanalyzeNeverStrands(p, w, user, id, key);
    case Remove(user, id) => RemoveNeverStrands(w, user, id);
    case _ => QueueNeverStrands(w, a);
  }

  predicate OthersAttached(t: Tables, id: Id) { forall r :: r in t.recordings && r != id ==> !Stranded(t, r) }

  lemma CancelKeepsOthers(w: World, id: Id, kinds: set<Kind>)
    requires NoneStranded(w.t)
    ensures OthersAttached(WithCancelled(w, id, kinds).t, id)
  {
    forall r | r in w.t.recordings && r != id ensures !Stranded(WithCancelled(w, id, kinds).t, r) { assert !Stranded(w.t, r); }
  }

  lemma RearmAttaches(w: World, id: Id, row: Recording, key: IdempotencyKey)
    requires OthersAttached(w.t, id) && Uuid(w.next) !in w.t.jobs && row.job == Uuid(w.next)
    ensures NoneStranded(Rearmed(w, id, row, key).t)
  {
    var w' := Rearmed(w, id, row, key);
    forall r | r in w'.t.recordings ensures !Stranded(w'.t, r) {
      if r != id { assert !Stranded(w.t, r); }
    }
  }

  lemma RetryNeverStrands(p: Ports, w: World, user: nat, id: Id)
    requires Inv(p, w) && NoneStranded(w.t)
    ensures NoneStranded(ClientStep(w, Retry(user, id)).t)
  {
    if Retryable(w, user, id) {
      CancelKeepsOthers(w, id, {RecordingStrengths});
      CancelKeeps(p, w, id, {RecordingStrengths});
      FreshJobIsFree(p, RetryStarted(w, id));
      RetryIsRearm(w, user, id);
      RearmAttaches(RetryStarted(w, id), id, RearmedRow(w.t.recordings[id], Uuid(w.next)), RecordingKey(Uuid(w.next)));
    }
  }

  lemma ReanalyzeNeverStrands(p: Ports, w: World, user: nat, id: Id, key: nat)
    requires Inv(p, w) && NoneStranded(w.t)
    ensures NoneStranded(ClientStep(w, Reanalyze(user, id, key)).t)
  {
    if Reanalyzable(w, user, id, key) {
      var mid, row := WithCancelled(w, id, RECORDING_KINDS), ReanalysisRow(w.t.recordings[id], Uuid(w.next));
      CancelKeepsOthers(w, id, RECORDING_KINDS);
      CancelKeeps(p, w, id, RECORDING_KINDS);
      FreshJobIsFree(p, mid);
      ReanalysisIsRearm(w, user, id, key);
      RearmAttaches(mid, id, row, RecordingKey(Uuid(w.next)));
      SameRowsAttached(Rearmed(mid, id, row, RecordingKey(Uuid(w.next))).t, ClientStep(w, Reanalyze(user, id, key)).t);
    }
  }

  lemma SameRowsAttached(t: Tables, t': Tables)
    requires NoneStranded(t) && t'.recordings == t.recordings && t'.jobs == t.jobs
    ensures NoneStranded(t')
  {
    forall r | r in t'.recordings ensures !Stranded(t', r) { assert !Stranded(t, r); }
  }

  /** Recordings stay under their jobs and jobs stay live. */
  ghost predicate StaysAttached(t: Tables, t': Tables) {
    && (forall r :: r in t'.recordings ==> r in t.recordings)
    && (forall r :: r in t'.recordings && t'.recordings[r].status == Processing ==>
          t.recordings[r].status == Processing && t'.recordings[r].job == t.recordings[r].job)
    && (forall id :: id in t.jobs && Live(t.jobs[id]) ==> id in t'.jobs && Live(t'.jobs[id]) && SameJob(t.jobs[id], t'.jobs[id]))
  }

  lemma AttachedStays(t: Tables, t': Tables)
    requires NoneStranded(t) && StaysAttached(t, t')
    ensures NoneStranded(t')
  {
    forall r | r in t'.recordings ensures !Stranded(t', r) { assert !Stranded(t, r); }
  }

  lemma DurationStays(t: Tables, held: Claimed, seconds: int, now: int)
    ensures StaysAttached(t, VerifiedDuration(t, held, seconds, now).0)
  {
  }

  lemma TranscriptStays(t: Tables, held: Claimed, transcript: string)
    ensures StaysAttached(t, SavedTranscript(t, held, transcript).0)
  {
  }

  lemma AnalysisStays(t: Tables, held: Claimed, suggestions: seq<string>, pending: bool, now: int)
    ensures StaysAttached(t, SavedAnalysis(t, held, suggestions, pending, now).0)
  {
  }

  lemma CompletionStays(t: Tables, held: Claimed, corrected: string, shadowing: Id, dialogue: Option<bool>, now: int)
    ensures StaysAttached(t, CompletedRecording(t, held, corrected, shadowing, dialogue, now).0)
  {
    var t', job := CompletedRecording(t, held, corrected, shadowing, dialogue, now).0, NewJob(ShadowingSynthesize, held.resource, ShadowingKey(shadowing), 4, now);
    if t' != t {
      EnqueueStays(t.jobs, shadowing, job);
      assert t'.jobs == Enqueued(t.jobs, shadowing, job).value;
    }
  }

  lemma EnqueueStays(jobs: Jobs, id: Id, job: Job)
    requires Enqueued(jobs, id, job).Ok?
    ensures forall i :: i in jobs ==> i in Enqueued(jobs, id, job).value && Enqueued(jobs, id, job).value[i] == jobs[i]
  {
  }

  lemma WritingNeverStrands(p: Ports, w: World, i: nat, a: Action)
    requires NoneStranded(w.t) && IsWorkerStep(a) && !a.Finish? && i in w.workers
    ensures NoneStranded(WorkerStep(p, w, i, a).t)
  {
    var held := w.workers[i].held;
    if a.VerifyDuration? {
      DurationStays(w.t, held, a.seconds, w.now);
      AttachedStays(w.t, VerifiedDuration(w.t, held, a.seconds, w.now).0);
    } else if a.Transcribe? {
      TranscriptStays(w.t, held, NormalizeTranscript(a.text));
      AttachedStays(w.t, SavedTranscript(w.t, held, NormalizeTranscript(a.text)).0);
    } else if a.Analyze? {
      AnalysisStays(w.t, held, a.suggestions, a.strengthsPending, w.now);
      AttachedStays(w.t, SavedAnalysis(w.t, held, a.suggestions, a.strengthsPending, w.now).0);
    } else if a.Rewrite? {
      CompletionStays(w.t, held, a.corrected, Uuid(w.next), a.dialogue, w.now);
      AttachedStays(w.t, CompletedRecording(w.t, held, a.corrected, Uuid(w.next), a.dialogue, w.now).0);
    } else if a.Heartbeat? {
      AttachedStays(w.t, w.t.(jobs := Heartbeaten(w.t.jobs, held, a.lease, w.now)));
    }
  }

  /** A worker that returned nil no longer fences an active recording, so completing its job
      strands nothing; a worker that failed for good marks the recording failed. */
  lemma FinishNeverStrands(w: World, worker: Worker, delay: int)
    requires NoneStranded(w.t) && WorkerOk(w, worker) && worker.phase.Returned?
    ensures NoneStranded(Finished(w.t, worker, delay, w.now))
  {
    if worker.phase.ok {
      CompletionNeverStrands(w, worker);
    } else {
      FailureNeverStrands(w, worker, delay);
    }
  }

  lemma CompletionNeverStrands(w: World, worker: Worker)
    requires NoneStranded(w.t) && WorkerOk(w, worker) && worker.phase == Returned(true)
    ensures NoneStranded(Finished(w.t, worker, 0, w.now))
  {
    var t' := Finished(w.t, worker, 0, w.now);
    forall r | r in t'.recordings ensures !Stranded(t', r) { assert !Stranded(w.t, r); }
  }

  lemma FailureNeverStrands(w: World, worker: Worker, delay: int)
    requires NoneStranded(w.t) && WorkerOk(w, worker) && worker.phase == Returned(false)
    ensures NoneStranded(Finished(w.t, worker, delay, w.now))
  {
    var t' := Finished(w.t, worker, delay, w.now);
    forall r | r in t'.recordings ensures !Stranded(t', r) { assert !Stranded(w.t, r); }
  }

  lemma HandlerNeverStrands(p: Ports, w: World, i: nat, a: Action)
    requires Inv(p, w) && NoneStranded(w.t) && IsWorkerStep(a) && i in w.workers
    ensures NoneStranded(WorkerStep(p, w, i, a).t)
  {
    if !a.Finish? {
      WritingNeverStrands(p, w, i, a);
    } else if w.workers[i].phase.Returned? {
      assert WorkerOk(w, w.workers[i]);
      FinishNeverStrands(w, w.workers[i], a.delay);
    }
  }

  predicate CleanRun(p: Ports, w: World, actions: seq<Action>)
    decreases |actions|
  {
    actions != [] ==> !ReusesKey(w, actions[0]) && CleanRun(p, Step(p, w, actions[0]), actions[1..])
  }

  predicate NeverStranded(p: Ports, w: World, actions: seq<Action>)
    decreases |actions|
  {
    NoneStranded(w.t) && (actions != [] ==> NeverStranded(p, Step(p, w, actions[0]), actions[1..]))
  }

  /** A run keeps every processing recording attached to a live job, in all its states, if and
      only if no Create in it reuses a key whose old job row is still there. */
  lemma {:induction false} NoStrandedRecording(p: Ports, w: World, actions: seq<Action>)
    requires Inv(p, w) && NoneStranded(w.t)
    ensures NeverStranded(p, w, actions) <==> CleanRun(p, w, actions)
    decreases |actions|
  {
    if actions != [] {
      var a := actions[0];
      StepKeeps(p, w, a);
      if a.Create? {
        CreateStrandsIff(p, w, a);
      } else if !IsWorkerStep(a) {
        ClientNeverStrands(p, w, a);
      } else if a.worker in w.workers {
        HandlerNeverStrands(p, w, a.worker, a);
      }
      if NoneStranded(Step(p, w, a).t) {
        NoStrandedRecording(p, Step(p, w, a), actions[1..]);
      } else {
        assert !NeverStranded(p, Step(p, w, a), actions[1..]);
      }
    }
  }

  lemma FirstCreate()
    ensures
      var t := CreatedRecording(EMPTY.t, 1, 1, 1, 7, 10, true, 0).0;
      && t.recordings == map[CreateRecordingId(1, 1) := FreshRecording(1, 7, 10, TranscribingStage, CreateJobId(1, 1), "")]
      && t.jobs == map[CreateJobId(1, 1) := NewJob(RecordingProcess, CreateRecordingId(1, 1), CreateKey(1, 1), 3, 0)]
  {
  }

  /** Deleting a recording and creating it again under the same key, while the row of its first
      job is still there, strands it. */
  lemma RemovalKeepsKey(w: World, user: nat, id: Id, job: Id)
    requires id in w.t.recordings && w.t.recordings[id].user == user && job in w.t.jobs
    ensures
      var w' := ClientStep(w, Remove(user, id));
      id !in w'.t.recordings && job in w'.t.jobs && w'.t.jobs[job].key == w.t.jobs[job].key
  {
    RemoveIs(w, user, id);
  }

  lemma DeleteThenCreateStrands(p: Ports, w: World, a: Action)
    requires Inv(p, w) && a.Create? && a.admitted
    requires CreateRecordingId(a.principal, a.key) in w.t.recordings && CreateJobId(a.principal, a.key) in w.t.jobs
    requires w.t.recordings[CreateRecordingId(a.principal, a.key)].user == a.user
    ensures
      var id := CreateRecordingId(a.principal, a.key);
      Stranded(Step(p, Step(p, w, Remove(a.user, id)), a).t, id)
  {
    var id, job := CreateRecordingId(a.principal, a.key), CreateJobId(a.principal, a.key);
    assert CreateRowOk(job, w.t.jobs[job]);
    RemovalKeepsKey(w, a.user, id, job);
    StepKeeps(p, w, Remove(a.user, id));
    ReuseStrands(p, Step(p, w, Remove(a.user, id)), a);
  }

  /** The second Create names another upload, as it must: the first one went with the recording. */
  lemma ReusedKeyStrands(p: Ports)
    ensures
      var create, again := Create(1, 1, 1, 7, 10, true), Create(1, 1, 1, 8, 10, true);
      Stranded(Run(p, EMPTY, [create, Remove(1, CreateRecordingId(1, 1)), again, Tick(0)]).t, CreateRecordingId(1, 1))
  {
    var create, again := Create(1, 1, 1, 7, 10, true), Create(1, 1, 1, 8, 10, true);
    var id := CreateRecordingId(1, 1);
    var w1 := Step(p, EMPTY, create);
    var w3 := Step(p, Step(p, w1, Remove(1, id)), again);
    EmptyIsSafe(p);
    StepKeeps(p, EMPTY, create);
    CreatedFirst(p);
    DeleteThenCreateStrands(p, w1, again);
    RunFour(p, EMPTY, create, Remove(1, id), again, Tick(0));
    TickKeepsTables(p, w3);
  }

  lemma CreatedFirst(p: Ports)
    ensures
      var t := Step(p, EMPTY, Create(1, 1, 1, 7, 10, true)).t;
      CreateRecordingId(1, 1) in t.recordings && CreateJobId(1, 1) in t.jobs && t.recordings[CreateRecordingId(1, 1)].user == 1
  {
    FirstCreate();
  }

  lemma TickKeepsTables(p: Ports, w: World)
    ensures Step(p, w, Tick(0)).t == w.t
  {
  }

  // ---- Lease safety -------------------------------------------------------------------

  /** A finished job's row never changes again until it is pruned. */
  lemma TerminalIsAbsorbing(p: Ports, w: World, a: Action, id: Id)
    requires id in w.t.jobs && Terminal(w.t.jobs[id]) && id in Step(p, w, a).t.jobs
    ensures Step(p, w, a).t.jobs[id] == w.t.jobs[id]
  {
    if !a.Claim? { StepMovesJobs(p, w, a); }
  }

  /** A lease that was lost is lost for good, even if the job row is pruned and created again. */
  lemma {:induction false} LeaseLossIsPermanent(p: Ports, w: World, actions: seq<Action>, held: Claimed)
    requires Inv(p, w) && held.token < w.next && !Holds(w.t.jobs, held)
    ensures !Holds(Run(p, w, actions).t.jobs, held)
    decreases |actions|
  {
    if actions != [] {
      StepKeeps(p, w, actions[0]);
      NextGrows(p, w, actions[0]);
      StepNeverRestoresLease(p, w, actions[0], held);
      LeaseLossIsPermanent(p, Step(p, w, actions[0]), actions[1..], held);
    }
  }

  lemma StepNeverRestoresLease(p: Ports, w: World, a: Action, held: Claimed)
    requires held.token < w.next && !Holds(w.t.jobs, held) && RowsOk(w.t.jobs)
    ensures !Holds(Step(p, w, a).t.jobs, held)
  {
    if !a.Claim? { StepMovesJobs(p, w, a); }
    if held.id in w.t.jobs { assert RowOk(w.t.jobs[held.id]); }
  }

  /** How often a worker is started on the job during the run. */
  function Starts(p: Ports, w: World, actions: seq<Action>, id: Id): nat
    decreases |actions|
  {
    if actions == [] then 0
    else
      (if actions[0].Claim? && actions[0].job == id && Step(p, w, actions[0]) != w then 1 else 0)
      + Starts(p, Step(p, w, actions[0]), actions[1..], id)
  }

  predicate JobPresentThroughout(p: Ports, w: World, actions: seq<Action>, id: Id)
    decreases |actions|
  {
    id in w.t.jobs && (actions != [] ==> JobPresentThroughout(p, Step(p, w, actions[0]), actions[1..], id))
  }

  lemma StepCountsStarts(p: Ports, w: World, a: Action, id: Id)
    requires id in w.t.jobs && id in Step(p, w, a).t.jobs
    ensures
      var before, after := w.t.jobs[id], Step(p, w, a).t.jobs[id];
      && after.maxAttempts == before.maxAttempts
      && after.attempts == before.attempts + if a.Claim? && a.job == id && Step(p, w, a) != w then 1 else 0
  {
    if !a.Claim? { StepMovesJobs(p, w, a); }
  }

  /** As long as its row exists, a job's attempt counter counts the handler starts, so a job
      is started at most `maxAttempts` times, crashes included. */
  lemma {:induction false} StartsAreBounded(p: Ports, w: World, actions: seq<Action>, id: Id)
    requires Inv(p, w) && JobPresentThroughout(p, w, actions, id)
    ensures
      var end := Run(p, w, actions);
      && id in end.t.jobs
      && end.t.jobs[id].attempts == w.t.jobs[id].attempts + Starts(p, w, actions, id)
      && w.t.jobs[id].attempts + Starts(p, w, actions, id) <= w.t.jobs[id].maxAttempts
    decreases |actions|
  {
    if actions == [] {
      assert RowOk(w.t.jobs[id]);
    } else {
      StepCountsStarts(p, w, actions[0], id);
      StepKeeps(p, w, actions[0]);
      StartsAreBounded(p, Step(p, w, actions[0]), actions[1..], id);
    }
  }

  ghost predicate SafeLeases(w: World) {
    && (forall id :: id in w.t.jobs ==> (w.t.jobs[id].state == Running <==> w.t.jobs[id].leaseToken.Some?))
    && (forall id :: id in w.t.jobs && w.t.jobs[id].state in {Queued, RetryWait} ==> w.t.jobs[id].attempts < w.t.jobs[id].maxAttempts)
    && (forall i :: i in w.workers && Holds(w.t.jobs, w.workers[i].held) ==>
          w.workers[i].held.attempts == w.t.jobs[w.workers[i].held.id].attempts)
    && (forall i, j | i in w.workers && j in w.workers && w.workers[i].held.id == w.workers[j].held.id ::
          Holds(w.t.jobs, w.workers[i].held) && Holds(w.t.jobs, w.workers[j].held) ==> i == j)
  }

  /** In every reachable state: a job is running exactly when it has a lease token, a waiting
      job has attempts left, and a worker whose token matches knows the row's attempt count. */
  lemma LeaseSafety(p: Ports, actions: seq<Action>)
    ensures SafeLeases(Run(p, EMPTY, actions))
  {
    EmptyIsSafe(p);
    RunKeeps(p, EMPTY, actions);
    var w := Run(p, EMPTY, actions);
    forall id | id in w.t.jobs ensures RowOk(w.t.jobs[id]) {}
    forall i | i in w.workers ensures WorkerOk(w, w.workers[i]) {}
  }
}
