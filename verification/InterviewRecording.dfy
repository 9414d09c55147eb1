/** The recording of an interview: the transactions that write the recording and the session
    together, and both machines running side by side
    (`internal/recording/processing_repository.go`, `processing.go`, `create.go`, `delete_repository.go`). */
module InterviewRecording {
  import opened Prelude
  import opened Text
  import opened Timeline
  import opened WorkQueue
  import R = Recordings
  import Q = Processing
  import P = Pipeline
  import Rows = PipelineRows
  import Safety = PipelineSafety
  import I = Interview
  import V = InterviewRuns
  import S = InterviewSafety
  import Fence = InterviewFence

  // ---- The transactions ---------------------------------------------------------------

  datatype State = State(t: R.Tables, s: I.Session)

  /** The transcript of the recording and the answers of the session move together or not at all. */
  function SavedTogether(st: State, held: Claimed, transcript: string, answers: map<nat, string>): (State, R.Save) {
    var (t, saved) := R.SavedTranscript(st.t, held, transcript);
    var (s, outcome) := I.SavedAnswers(st.s, held.resource, answers);
    if saved != R.Advanced then (st, R.NotAdvanced)
    else if outcome != I.Done then (st, R.SaveFailed)
    else (State(t, s), R.Advanced)
  }

  /** The measured length goes to the recording in seconds and to the last answered turn in
      milliseconds, within the limit of the session. */
  function DurationTogether(st: State, held: Claimed, seconds: int, actualMs: int, now: int): (State, bool) {
    if !LeaseActive(st.t.jobs, held, now) || !R.ActiveUnder(st.t, held.resource, held.id) || st.s.recording != Some(held.resource)
       || seconds < 1 || seconds > st.s.maxSeconds
    then (st, false)
    else
      (State(R.WithRecording(st.t, held.resource, st.t.recordings[held.resource].(duration := seconds)), I.DurationVerified(st.s, actualMs)), true)
  }

  class Saver {
    const recordings: R.Repository
    const sessions: I.Repository

    constructor (recordings: R.Repository, sessions: I.Repository)
      ensures this.recordings == recordings && this.sessions == sessions
    {
      this.recordings, this.sessions := recordings, sessions;
    }

    function View(): State
      reads this, recordings, recordings.queue, sessions
    {
      State(recordings.View(), sessions.session)
    }

    method SaveInterviewTranscript(held: Claimed, transcript: string, answers: map<nat, string>) returns (saved: R.Save)
      modifies recordings, sessions
      ensures (View(), saved) == SavedTogether(old(View()), held, transcript, answers)
      ensures saved == R.NotAdvanced <==> !R.Fenced(old(recordings.View()), held)
      ensures saved == R.Advanced ==>
        && recordings.recordings == old(recordings.recordings)[held.resource :=
             old(recordings.recordings)[held.resource].(transcript := transcript, stage := Some(R.SuggestionsStage))]
        && I.AnswersReach(old(sessions.session), sessions.session, I.Done, held.resource, answers)
      ensures saved == R.SaveFailed ==> !I.AnswersReach(old(sessions.session), old(sessions.session), I.Done, held.resource, answers)
      ensures saved != R.Advanced ==> View() == old(View())
    {
      var before := recordings.recordings;
      saved := recordings.SaveTranscript(held, transcript);
      if saved != R.Advanced {
        return R.NotAdvanced;
      }
      var outcome := sessions.SaveInterviewAnswers(held.resource, answers);
      if outcome != I.Done {
        recordings.recordings := before; // rollback
        return R.SaveFailed;
      }
    }

    method VerifyInterviewDuration(held: Claimed, seconds: int, actualMs: int, now: int) returns (ok: bool)
      modifies recordings, sessions
      ensures (View(), ok) == DurationTogether(old(View()), held, seconds, actualMs, now)
      ensures ok <==>
        && LeaseActive(old(recordings.queue.jobs), held, now) && R.ActiveUnder(old(recordings.View()), held.resource, held.id)
        && old(sessions.session).recording == Some(held.resource) && 1 <= seconds <= old(sessions.session).maxSeconds
      ensures ok ==>
        && recordings.recordings == old(recordings.recordings)[held.resource := old(recordings.recordings)[held.resource].(duration := seconds)]
        && (0 !in old(sessions.session).turns ==> I.EndsLast(old(sessions.session), sessions.session, actualMs))
      ensures !ok ==> View() == old(View())
    {
      if !LeaseActive(recordings.queue.jobs, held, now) {
        return false;
      }
      var matched := recordings.Matches(held);
      if !matched || sessions.session.recording != Some(held.resource) {
        return false;
      }
      if seconds < 1 || seconds > sessions.session.maxSeconds {
        return false;
      }
      recordings.recordings := recordings.recordings[held.resource := recordings.recordings[held.resource].(duration := seconds)];
      sessions.VerifyInterviewDuration(actualMs);
      return true;
    }
  }

  // ---- Both machines ------------------------------------------------------------------

  /** `w` runs the recordings, `v` the session; a worker of `w` that has composed the timeline is
      a composer of `v` under its own number.  The session is deleted with its recording. */
  datatype World = World(w: P.World, v: Option<V.World>)

  datatype Action =
    | Recording(a: P.Action)
    | Session(b: V.Action)
    | CreateLinked(principal: nat, user: nat, key: nat, request: nat, duration: int)
    | VerifyDuration(worker: nat, seconds: int, actualMs: int)
    | SaveTranscript(worker: nat)

  predicate LinkedTo(v: Option<V.World>, r: Id) { v.Some? && v.value.t.session.recording == Some(r) }

  predicate OfSession(j: World, worker: nat) { worker in j.w.workers && LinkedTo(j.v, j.w.workers[worker].held.resource) }

  /** The length and the transcript of the interview's recording are only written together with
      the session, which is only linked by the Create that inserts the recording. */
  predicate Allowed(j: World, a: Action) {
    match a
    case Recording(a) => !((a.Transcribe? || a.VerifyDuration?) && OfSession(j, a.worker))
    case Session(b) => !b.Link? && !b.SaveAnswers? && !b.VerifyDuration?
    case CreateLinked(_, _, _, _, _) => true
    case VerifyDuration(_, _, _) => true
    case SaveTranscript(_) => true
  }

  predicate Deletes(j: World, a: P.Action) {
    a.Remove? && LinkedTo(j.v, a.id) && a.id in j.w.t.recordings && j.w.t.recordings[a.id].user == a.user
  }

  function Recorded(p: P.Ports, j: World, a: P.Action): World {
    World(P.Step(p, j.w, a), if Deletes(j, a) then None else j.v)
  }

  function Measured(j: World, i: nat, seconds: int, actualMs: int): World
    requires OfSession(j, i)
  {
    var v := j.v.value;
    var (st, ok) := DurationTogether(State(j.w.t, v.t.session), j.w.workers[i].held, seconds, actualMs, j.w.now);
    World(P.WithPhase(j.w.(t := st.t), i, if ok then Q.DurationVerified else Q.Returned(false)), Some(V.WithSession(v, st.s)))
  }

  predicate ReadyToSave(j: World, i: nat) {
    OfSession(j, i) && i in j.v.value.composers && j.w.workers[i].phase == Q.DurationVerified
  }

  function Saved(p: P.Ports, j: World, i: nat): World
    requires ReadyToSave(j, i)
  {
    var v, held := j.v.value, j.w.workers[i].held;
    var composed := v.composers[i];
    var (_, saved) := SavedTogether(State(j.w.t, v.t.session), held, NormalizeTranscript(composed.text), composed.answers);
    match saved
    case Advanced => World(P.Step(p, j.w, P.Transcribe(i, composed.text)), Some(V.Step(v, V.SaveAnswers(i))))
    case NotAdvanced => World(P.Step(p, j.w, P.Transcribe(i, composed.text)), j.v)
    case SaveFailed => World(P.Step(p, j.w, P.GiveUp(i)), j.v)
  }

  /** What a Create for the interview has checked when it inserts the recording and links it. */
  predicate Linkable(j: World, create: P.Action) {
    && create.Create? && create.admitted && j.v.Some?
    && R.CreatedRecording(j.w.t, create.principal, create.user, create.key, create.request, create.duration, true, j.w.now).1 == R.Created
    && I.Linked(j.v.value.t.session, R.CreateRecordingId(create.principal, create.key)).1 == I.Done
  }

  function Link(create: P.Action): V.Action
    requires create.Create?
  {
    V.Link(R.CreateRecordingId(create.principal, create.key))
  }

  function Step(p: P.Ports, j: World, a: Action): World {
    if !Allowed(j, a) then j
    else
      match a
      case Recording(a) => Recorded(p, j, a)
      case Session(b) => if j.v.Some? then j.(v := Some(V.Step(j.v.value, b))) else j
      case CreateLinked(principal, user, key, request, duration) =>
        var create := P.Create(principal, user, key, request, duration, true);
        if Linkable(j, create) then World(P.Step(p, j.w, create), Some(V.Step(j.v.value, Link(create)))) else j
      case VerifyDuration(i, seconds, actualMs) =>
        if OfSession(j, i) && j.w.workers[i].phase == Q.AtTranscribing then Measured(j, i, seconds, actualMs) else j
      case SaveTranscript(i) => if ReadyToSave(j, i) then Saved(p, j, i) else j
  }

  function Run(p: P.Ports, j: World, actions: seq<Action>): World
    decreases |actions|
  {
    if actions == [] then j else Run(p, Step(p, j, actions[0]), actions[1..])
  }

  lemma TranscribeIs(p: P.Ports, w: P.World, i: nat, text: string)
    requires i in w.workers && w.workers[i].phase == Q.DurationVerified && NormalizeTranscript(text) != ""
    ensures P.Step(p, w, P.Transcribe(i, text)).t == R.SavedTranscript(w.t, w.workers[i].held, NormalizeTranscript(text)).0
  {
  }

  lemma GiveUpIs(p: P.Ports, w: P.World, i: nat)
    ensures P.Step(p, w, P.GiveUp(i)).t == w.t
  {
  }

  /** SaveTranscript is the transaction: it leaves the tables and the session that SavedTogether
      says. */
  lemma SaveIsTogether(p: P.Ports, j: World, i: nat)
    requires ReadyToSave(j, i) && NormalizeTranscript(j.v.value.composers[i].text) != ""
    ensures
      var composed, after := j.v.value.composers[i], Saved(p, j, i);
      && after.v.Some?
      && State(after.w.t, after.v.value.t.session)
         == SavedTogether(State(j.w.t, j.v.value.t.session), j.w.workers[i].held, NormalizeTranscript(composed.text), composed.answers).0
  {
    var composed := j.v.value.composers[i];
    TranscribeIs(p, j.w, i, composed.text);
    V.AnswersStep(j.v.value, V.SaveAnswers(i));
    GiveUpIs(p, j.w, i);
  }

  // ---- The stored transcript is the composed one --------------------------------------

  predicate PreviewsRandom(t: R.Tables) { forall id :: id in t.previews ==> id.Uuid? }

  /** Past the first stage, the transcript of the interview's recording is what its timeline
      composes to. */
  predicate Matching(t: R.Tables, s: I.Session) {
    s.recording.Some? && s.recording.value in t.recordings && Rows.Rank(t.recordings[s.recording.value]) > 0 ==>
      && Composition(I.LoadedTimeline(s)).Ok?
      && Composition(I.LoadedTimeline(s)).value.text == t.recordings[s.recording.value].transcript
  }

  /** A linked session names a recording that exists and that a Create made. */
  predicate LinkStands(t: R.Tables, s: I.Session) {
    s.recording.Some? ==> s.recording.value.Derived? && s.recording.value in t.recordings
  }

  ghost predicate Tied(t: R.Tables, v: V.World) { S.Inv(v) && LinkStands(t, v.t.session) && Matching(t, v.t.session) }

  ghost predicate Inv(p: P.Ports, j: World) {
    P.Inv(p, j.w) && PreviewsRandom(j.w.t) && (j.v.Some? ==> Tied(j.w.t, j.v.value))
  }

  /** A transcript that left the first stage is never rewritten, by anybody. */
  predicate TranscriptKept(t: R.Tables, t': R.Tables, r: Id) {
    r in t'.recordings ==>
      || Rows.Rank(t'.recordings[r]) == 0
      || (r in t.recordings && Rows.Rank(t.recordings[r]) > 0 && t'.recordings[r].transcript == t.recordings[r].transcript)
  }

  lemma ClientKeepsTranscript(p: P.Ports, w: P.World, a: P.Action, r: Id)
    requires !P.IsWorkerStep(a) && r.Derived? && PreviewsRandom(w.t)
    requires r in w.t.recordings ==> P.RecordingOk(p, w.t.recordings[r])
    ensures TranscriptKept(w.t, P.ClientStep(w, a).t, r)
  {
  }

  /** Only a Remove by its owner takes a recording away. */
  lemma ClientKeepsRow(w: P.World, a: P.Action, r: Id)
    requires !P.IsWorkerStep(a) && r in w.t.recordings
    ensures r in P.ClientStep(w, a).t.recordings || (a.Remove? && a.id == r && w.t.recordings[r].user == a.user)
  {
  }

  lemma WritesKeepTranscript(p: P.Ports, w: P.World, a: P.Action, r: Id)
    requires (a.VerifyDuration? || a.Transcribe?) && a.worker in w.workers
    requires a.Transcribe? ==> w.workers[a.worker].held.resource != r
    ensures TranscriptKept(w.t, P.Step(p, w, a).t, r)
  {
    if a.Transcribe? { P.TranscribeIs(p, w, a.worker, a.text); }
  }

  lemma AnalyzeKeepsTranscript(p: P.Ports, w: P.World, a: P.Action, r: Id)
    requires a.Analyze? && a.worker in w.workers && P.WorkerOk(w, w.workers[a.worker])
    ensures TranscriptKept(w.t, P.Step(p, w, a).t, r)
  {
    P.AnalyzeIs(p, w, a.worker, a.suggestions, a.strengthsPending);
  }

  lemma RewriteKeepsTranscript(p: P.Ports, w: P.World, a: P.Action, r: Id)
    requires a.Rewrite? && a.worker in w.workers && P.WorkerOk(w, w.workers[a.worker])
    ensures TranscriptKept(w.t, P.Step(p, w, a).t, r)
  {
    P.RewriteIs(p, w, a.worker, a.corrected, a.dialogue);
  }

  lemma FinishKeepsTranscript(p: P.Ports, w: P.World, a: P.Action, r: Id)
    requires a.Finish? && a.worker in w.workers
    ensures TranscriptKept(w.t, P.Step(p, w, a).t, r)
  {
    if w.workers[a.worker].phase.Returned? { P.FinishIs(p, w, a.worker, a.delay); }
  }

  lemma QuietKeepsTranscript(p: P.Ports, w: P.World, a: P.Action, r: Id)
    requires a.Heartbeat? || a.Crash? || a.Load? || a.GiveUp?
    ensures TranscriptKept(w.t, P.Step(p, w, a).t, r)
  {
  }

  lemma HandlerKeepsTranscript(p: P.Ports, w: P.World, a: P.Action, r: Id)
    requires P.IsWorkerStep(a) && a.worker in w.workers && P.WorkerOk(w, w.workers[a.worker])
    requires a.Transcribe? ==> w.workers[a.worker].held.resource != r
    ensures TranscriptKept(w.t, P.Step(p, w, a).t, r)
  {
    match a
    case VerifyDuration(_, _) => WritesKeepTranscript(p, w, a, r);
    case Transcribe(_, _) => WritesKeepTranscript(p, w, a, r);
    case Analyze(_, _, _) => AnalyzeKeepsTranscript(p, w, a, r);
    case Rewrite(_, _, _) => RewriteKeepsTranscript(p, w, a, r);
    case Finish(_, _) => FinishKeepsTranscript(p, w, a, r);
    case _ => QuietKeepsTranscript(p, w, a, r);
  }

  lemma ClientPreviewsStayRandom(w: P.World, a: P.Action)
    requires PreviewsRandom(w.t) && !P.IsWorkerStep(a)
    ensures PreviewsRandom(P.ClientStep(w, a).t)
  {
  }

  lemma PreviewsStayRandom(p: P.Ports, w: P.World, a: P.Action)
    requires PreviewsRandom(w.t)
    ensures PreviewsRandom(P.Step(p, w, a).t)
  {
    if !P.IsWorkerStep(a) { ClientPreviewsStayRandom(w, a); }
  }

  /** What a step of the recordings alone leaves of the linked recording. */
  lemma LinkedRowMoves(p: P.Ports, w: P.World, a: P.Action, r: Id)
    requires r.Derived? && r in w.t.recordings && P.RecordingOk(p, w.t.recordings[r]) && PreviewsRandom(w.t)
    requires forall i :: i in w.workers ==> P.WorkerOk(w, w.workers[i])
    requires a.Transcribe? && a.worker in w.workers ==> w.workers[a.worker].held.resource != r
    ensures TranscriptKept(w.t, P.Step(p, w, a).t, r)
    ensures r in P.Step(p, w, a).t.recordings || (a.Remove? && a.id == r && w.t.recordings[r].user == a.user)
  {
    if !P.IsWorkerStep(a) {
      ClientKeepsTranscript(p, w, a, r);
      ClientKeepsRow(w, a, r);
    } else if a.worker in w.workers {
      HandlerKeepsTranscript(p, w, a, r);
      Rows.HandlerMovesRecording(p, w, a, r);
    }
  }

  lemma KeptMatches(t: R.Tables, t': R.Tables, s: I.Session)
    requires LinkStands(t, s) && Matching(t, s)
    requires s.recording.Some? ==> s.recording.value in t'.recordings && TranscriptKept(t, t', s.recording.value)
    ensures LinkStands(t', s) && Matching(t', s)
  {
  }

  lemma RowOk(p: P.Ports, w: P.World, r: Id)
    requires P.Inv(p, w) && r in w.t.recordings
    ensures P.RecordingOk(p, w.t.recordings[r])
    ensures forall i :: i in w.workers ==> P.WorkerOk(w, w.workers[i])
  {
  }

  lemma RecordedKeepsTied(p: P.Ports, j: World, a: P.Action)
    requires Inv(p, j) && Allowed(j, Recording(a)) && j.v.Some? && !Deletes(j, a)
    ensures Tied(P.Step(p, j.w, a).t, j.v.value)
  {
    var s := j.v.value.t.session;
    if s.recording.Some? {
      RowOk(p, j.w, s.recording.value);
      LinkedRowMoves(p, j.w, a, s.recording.value);
    }
    KeptMatches(j.w.t, P.Step(p, j.w, a).t, s);
  }

  lemma RecordedKeeps(p: P.Ports, j: World, a: P.Action)
    requires Inv(p, j) && Allowed(j, Recording(a))
    ensures Inv(p, Recorded(p, j, a))
  {
    P.StepKeeps(p, j.w, a);
    PreviewsStayRandom(p, j.w, a);
    if j.v.Some? && !Deletes(j, a) { RecordedKeepsTied(p, j, a); }
  }

  // ---- The session's steps ------------------------------------------------------------

  lemma UnlinkedHandler(v: V.World, i: nat, b: V.Action)
    requires v.t.session.recording.None? && V.IsWorkerStep(b) && i in v.workers
    ensures V.WorkerStep(v, i, b).t.session.recording.None?
  {
  }

  lemma UnlinkedClient(v: V.World, b: V.Action)
    requires v.t.session.recording.None? && !V.IsWorkerStep(b) && !b.Link?
    ensures V.ClientStep(v, b).t.session.recording.None?
  {
  }

  /** Only Link links a session. */
  lemma UnlinkedStays(v: V.World, b: V.Action)
    requires v.t.session.recording.None? && !b.Link?
    ensures V.Step(v, b).t.session.recording.None?
  {
    if !V.IsWorkerStep(b) {
      UnlinkedClient(v, b);
    } else if b.worker in v.workers {
      UnlinkedHandler(v, b.worker, b);
    }
  }

  lemma LinkedStep(v: V.World, b: V.Action)
    requires S.Inv(v) && v.t.session.recording.Some?
    ensures V.Step(v, b).t.session.recording == v.t.session.recording
    ensures Composition(I.LoadedTimeline(V.Step(v, b).t.session)) == Composition(I.LoadedTimeline(v.t.session))
  {
    S.LinkedComposesForever(v, [b]);
    RunOne(v, b);
  }

  lemma RunOne(v: V.World, b: V.Action)
    ensures V.Run(v, [b]) == V.Step(v, b)
  {
    assert [b][1..] == [];
  }

  lemma SessionKeepsTied(t: R.Tables, v: V.World, b: V.Action)
    requires Tied(t, v) && !b.Link?
    ensures Tied(t, V.Step(v, b))
  {
    S.StepKeepsInv(v, b);
    if v.t.session.recording.Some? { LinkedStep(v, b); } else { UnlinkedStays(v, b); }
  }

  // ---- Create, measure, save ----------------------------------------------------------

  lemma CreatedRow(p: P.Ports, w: P.World, create: P.Action)
    requires create.Create? && create.admitted
    requires R.CreatedRecording(w.t, create.principal, create.user, create.key, create.request, create.duration, true, w.now).1 == R.Created
    ensures
      var t, id := P.Step(p, w, create).t, R.CreateRecordingId(create.principal, create.key);
      id.Derived? && id in t.recordings && Rows.Rank(t.recordings[id]) == 0
  {
  }

  lemma LinkLinks(v: V.World, id: Id)
    requires I.Linked(v.t.session, id).1 == I.Done
    ensures V.Step(v, V.Link(id)).t.session.recording == Some(id)
  {
    V.LinkStep(v, V.Link(id));
  }

  lemma CreateLinkedKeeps(p: P.Ports, j: World, create: P.Action)
    requires Inv(p, j) && Linkable(j, create)
    ensures Inv(p, World(P.Step(p, j.w, create), Some(V.Step(j.v.value, Link(create)))))
  {
    P.StepKeeps(p, j.w, create);
    S.StepKeepsInv(j.v.value, Link(create));
    PreviewsStayRandom(p, j.w, create);
    CreatedRow(p, j.w, create);
    LinkLinks(j.v.value, R.CreateRecordingId(create.principal, create.key));
  }

  function WithDuration(w: P.World, i: nat, seconds: int): P.World
    requires i in w.workers && R.Fenced(w.t, w.workers[i].held)
  {
    P.Written(w, i, w.t.recordings[w.workers[i].held.resource].(duration := seconds), Q.DurationVerified)
  }

  lemma MeasuredIs(j: World, i: nat, seconds: int, actualMs: int)
    requires OfSession(j, i)
    ensures
      var v, w := j.v.value, j.w;
      || Measured(j, i, seconds, actualMs) == World(P.WithPhase(w, i, Q.Returned(false)), j.v)
      || (&& R.Fenced(w.t, w.workers[i].held)
          && Measured(j, i, seconds, actualMs)
             == World(WithDuration(w, i, seconds), Some(V.Step(v, V.VerifyDuration(actualMs)))))
  {
    V.DurationStep(j.v.value, V.VerifyDuration(actualMs));
  }

  lemma DurationKeepsRecordings(p: P.Ports, w: P.World, i: nat, seconds: int)
    requires P.Inv(p, w) && i in w.workers && w.workers[i].phase == Q.AtTranscribing && R.Fenced(w.t, w.workers[i].held)
    ensures P.Inv(p, WithDuration(w, i, seconds))
  {
    assert P.WorkerOk(w, w.workers[i]);
    var row := w.t.recordings[w.workers[i].held.resource];
    assert P.RecordingOk(p, row);
    P.WriteKeeps(p, w, i, row.(duration := seconds), Q.DurationVerified);
  }

  lemma UnmeasuredKeeps(p: P.Ports, w: P.World, i: nat)
    requires P.Inv(p, w) && i in w.workers
    ensures P.Inv(p, P.WithPhase(w, i, Q.Returned(false)))
  {
    assert P.WorkerOk(w, w.workers[i]);
    P.PhaseKeeps(p, w, i, Q.Returned(false));
  }

  lemma DurationKeepsTied(w: P.World, v: V.World, i: nat, seconds: int)
    requires i in w.workers && R.Fenced(w.t, w.workers[i].held) && Tied(w.t, v)
    ensures Tied(WithDuration(w, i, seconds).t, v)
  {
    KeptMatches(w.t, WithDuration(w, i, seconds).t, v.t.session);
  }

  lemma MeasuredKeeps(p: P.Ports, j: World, i: nat, seconds: int, actualMs: int)
    requires Inv(p, j) && OfSession(j, i) && j.w.workers[i].phase == Q.AtTranscribing
    ensures Inv(p, Measured(j, i, seconds, actualMs))
  {
    MeasuredIs(j, i, seconds, actualMs);
    UnmeasuredKeeps(p, j.w, i);
    if R.Fenced(j.w.t, j.w.workers[i].held) {
      DurationKeepsRecordings(p, j.w, i, seconds);
      SessionKeepsTied(j.w.t, j.v.value, V.VerifyDuration(actualMs));
      DurationKeepsTied(j.w, V.Step(j.v.value, V.VerifyDuration(actualMs)), i, seconds);
    }
  }

  /** The saved answers compose to what was composed before. */
  lemma SavedAnswersCompose(v: V.World, i: nat)
    requires S.Inv(v) && i in v.composers
    ensures
      var s := V.Step(v, V.SaveAnswers(i)).t.session;
      s.recording == v.t.session.recording && Composition(I.LoadedTimeline(s)) == Ok(v.composers[i])
  {
    LinkedStep(v, V.SaveAnswers(i));
  }

  lemma ComposedIsNormal(turns: seq<InterviewTurn>, composed: Composed)
    requires Composition(turns) == Ok(composed)
    ensures NormalizeTranscript(composed.text) == composed.text && composed.text != ""
  {
    ComposeSucceedsIff(turns);
  }

  lemma TranscribedRow(p: P.Ports, w: P.World, i: nat, text: string)
    requires i in w.workers && w.workers[i].phase == Q.DurationVerified && R.Fenced(w.t, w.workers[i].held)
    requires NormalizeTranscript(text) != ""
    ensures
      var t, r := P.Step(p, w, P.Transcribe(i, text)).t, w.workers[i].held.resource;
      r in t.recordings && t.recordings[r].transcript == NormalizeTranscript(text)
  {
  }

  lemma AdvancedKeeps(p: P.Ports, j: World, i: nat)
    requires Inv(p, j) && ReadyToSave(j, i) && R.Fenced(j.w.t, j.w.workers[i].held)
    ensures Inv(p, World(P.Step(p, j.w, P.Transcribe(i, j.v.value.composers[i].text)), Some(V.Step(j.v.value, V.SaveAnswers(i)))))
  {
    var text := j.v.value.composers[i].text;
    P.StepKeeps(p, j.w, P.Transcribe(i, text));
    S.StepKeepsInv(j.v.value, V.SaveAnswers(i));
    PreviewsStayRandom(p, j.w, P.Transcribe(i, text));
    SavedAnswersCompose(j.v.value, i);
    ComposedIsNormal(I.LoadedTimeline(j.v.value.t.session), j.v.value.composers[i]);
    TranscribedRow(p, j.w, i, text);
  }

  lemma NotTranscribed(p: P.Ports, w: P.World, i: nat, text: string)
    requires i in w.workers && !R.Fenced(w.t, w.workers[i].held)
    ensures P.Step(p, w, P.Transcribe(i, text)).t == w.t
  {
  }

  lemma RefusedKeeps(p: P.Ports, j: World, i: nat)
    requires Inv(p, j) && ReadyToSave(j, i) && !R.Fenced(j.w.t, j.w.workers[i].held)
    ensures Inv(p, j.(w := P.Step(p, j.w, P.Transcribe(i, j.v.value.composers[i].text))))
  {
    P.StepKeeps(p, j.w, P.Transcribe(i, j.v.value.composers[i].text));
    NotTranscribed(p, j.w, i, j.v.value.composers[i].text);
  }

  lemma GivenUpKeeps(p: P.Ports, j: World, i: nat)
    requires Inv(p, j)
    ensures Inv(p, j.(w := P.Step(p, j.w, P.GiveUp(i))))
  {
    P.StepKeeps(p, j.w, P.GiveUp(i));
    GiveUpIs(p, j.w, i);
  }

  lemma SavedCases(p: P.Ports, j: World, i: nat)
    requires ReadyToSave(j, i)
    ensures
      var transcribed := P.Step(p, j.w, P.Transcribe(i, j.v.value.composers[i].text));
      if R.Fenced(j.w.t, j.w.workers[i].held)
      then Saved(p, j, i) in {World(transcribed, Some(V.Step(j.v.value, V.SaveAnswers(i)))), j.(w := P.Step(p, j.w, P.GiveUp(i)))}
      else Saved(p, j, i) == j.(w := transcribed)
  {
  }

  lemma SaveTranscriptKeeps(p: P.Ports, j: World, i: nat)
    requires Inv(p, j) && ReadyToSave(j, i)
    ensures Inv(p, Saved(p, j, i))
  {
    SavedCases(p, j, i);
    if R.Fenced(j.w.t, j.w.workers[i].held) {
      AdvancedKeeps(p, j, i);
      GivenUpKeeps(p, j, i);
    } else {
      RefusedKeeps(p, j, i);
    }
  }

  // ---- Every step and every run -------------------------------------------------------

  lemma CreateLinkedStep(p: P.Ports, j: World, a: Action)
    requires Inv(p, j) && a.CreateLinked?
    ensures Inv(p, Step(p, j, a))
  {
    var create := P.Create(a.principal, a.user, a.key, a.request, a.duration, true);
    if Linkable(j, create) { CreateLinkedKeeps(p, j, create); }
  }

  lemma VerifyDurationStep(p: P.Ports, j: World, a: Action)
    requires Inv(p, j) && a.VerifyDuration?
    ensures Inv(p, Step(p, j, a))
  {
    if OfSession(j, a.worker) && j.w.workers[a.worker].phase == Q.AtTranscribing {
      MeasuredKeeps(p, j, a.worker, a.seconds, a.actualMs);
    }
  }

  lemma SessionStep(p: P.Ports, j: World, a: Action)
    requires Inv(p, j) && a.Session? && Allowed(j, a)
    ensures Inv(p, Step(p, j, a))
  {
    if j.v.Some? { SessionKeepsTied(j.w.t, j.v.value, a.b); }
  }

  lemma StepKeeps(p: P.Ports, j: World, a: Action)
    requires Inv(p, j)
    ensures Inv(p, Step(p, j, a))
  {
    if Allowed(j, a) {
      match a
      case Recording(b) => RecordedKeeps(p, j, b);
      case Session(_) => SessionStep(p, j, a);
      case CreateLinked(_, _, _, _, _) => CreateLinkedStep(p, j, a);
      case VerifyDuration(_, _, _) => VerifyDurationStep(p, j, a);
      case SaveTranscript(i) => if ReadyToSave(j, i) { SaveTranscriptKeeps(p, j, i); }
    }
  }

  lemma {:induction false} RunKeeps(p: P.Ports, j: World, actions: seq<Action>)
    requires Inv(p, j)
    ensures Inv(p, Run(p, j, actions))
    decreases |actions|
  {
    if actions != [] {
      StepKeeps(p, j, actions[0]);
      RunKeeps(p, Step(p, j, actions[0]), actions[1..]);
    }
  }

  function Start(openingQuestion: string, maxSeconds: int, expiresAt: int): World {
    World(P.EMPTY, Some(V.Created(openingQuestion, maxSeconds, expiresAt)))
  }

  lemma StartIsSafe(p: P.Ports, openingQuestion: string, maxSeconds: int, expiresAt: int)
    requires 1 <= maxSeconds <= 600
    ensures Inv(p, Start(openingQuestion, maxSeconds, expiresAt))
  {
    Safety.EmptyIsSafe(p);
    Fence.CreatedIsFenced(openingQuestion, maxSeconds, expiresAt);
  }

  lemma ReachableIsSafe(p: P.Ports, openingQuestion: string, maxSeconds: int, expiresAt: int, actions: seq<Action>)
    requires 1 <= maxSeconds <= 600
    ensures Inv(p, Run(p, Start(openingQuestion, maxSeconds, expiresAt), actions))
  {
    StartIsSafe(p, openingQuestion, maxSeconds, expiresAt);
    RunKeeps(p, Start(openingQuestion, maxSeconds, expiresAt), actions);
  }

  /** In every reachable state of both machines: the recording of a linked session exists, because
      the session goes when its recording is deleted. */
  lemma NoDanglingLink(p: P.Ports, openingQuestion: string, maxSeconds: int, expiresAt: int, actions: seq<Action>)
    requires 1 <= maxSeconds <= 600
    ensures
      var j := Run(p, Start(openingQuestion, maxSeconds, expiresAt), actions);
      j.v.Some? && j.v.value.t.session.recording.Some? ==> j.v.value.t.session.recording.value in j.w.t.recordings
  {
    ReachableIsSafe(p, openingQuestion, maxSeconds, expiresAt, actions);
  }

  /** What a worker past the first stage remembers is what the row says. */
  lemma FencedRow(w: P.World, i: nat)
    requires i in w.workers && P.WorkerOk(w, w.workers[i]) && R.Fenced(w.t, w.workers[i].held) && w.workers[i].held.kind == RecordingProcess
    requires w.workers[i].phase.AtSuggestions? || w.workers[i].phase.AtRewriting?
    ensures
      var row := w.t.recordings[w.workers[i].held.resource];
      Rows.Rank(row) > 0 && row.transcript == w.workers[i].phase.transcript
  {
  }

  lemma MatchingText(t: R.Tables, s: I.Session)
    requires Matching(t, s) && s.recording.Some? && s.recording.value in t.recordings && Rows.Rank(t.recordings[s.recording.value]) > 0
    ensures
      var composed := Composition(I.LoadedTimeline(s));
      composed.Ok? && composed.value.text == NormalizeTranscript(t.recordings[s.recording.value].transcript)
  {
    ComposeSucceedsIff(I.LoadedTimeline(s));
  }

  lemma WorkerAgrees(p: P.Ports, j: World, i: nat)
    requires Inv(p, j) && OfSession(j, i) && R.Fenced(j.w.t, j.w.workers[i].held) && j.w.workers[i].held.kind == RecordingProcess
    requires j.w.workers[i].phase.AtSuggestions? || j.w.workers[i].phase.AtRewriting?
    ensures
      var composed := Composition(I.LoadedTimeline(j.v.value.t.session));
      composed.Ok? && composed.value.text == NormalizeTranscript(j.w.workers[i].phase.transcript)
  {
    assert P.WorkerOk(j.w, j.w.workers[i]);
    FencedRow(j.w, i);
    MatchingText(j.w.t, j.v.value.t.session);
  }

  /** In every reachable state of both machines: a worker that resumes the interview's recording,
      or goes on with it, and still passes the fence, composes the timeline without an error and
      to exactly the transcript it works from. */
  lemma ResumedWorkerAgrees(p: P.Ports, openingQuestion: string, maxSeconds: int, expiresAt: int, actions: seq<Action>, i: nat)
    requires 1 <= maxSeconds <= 600
    requires
      var j := Run(p, Start(openingQuestion, maxSeconds, expiresAt), actions);
      && OfSession(j, i) && R.Fenced(j.w.t, j.w.workers[i].held) && j.w.workers[i].held.kind == RecordingProcess
      && (j.w.workers[i].phase.AtSuggestions? || j.w.workers[i].phase.AtRewriting?)
    ensures
      var j := Run(p, Start(openingQuestion, maxSeconds, expiresAt), actions);
      var composed := Composition(I.LoadedTimeline(j.v.value.t.session));
      composed.Ok? && composed.value.text == NormalizeTranscript(j.w.workers[i].phase.transcript)
  {
    ReachableIsSafe(p, openingQuestion, maxSeconds, expiresAt, actions);
    WorkerAgrees(p, Run(p, Start(openingQuestion, maxSeconds, expiresAt), actions), i);
  }
}
