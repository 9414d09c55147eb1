/** A stranded recording stays stranded until it is removed. */
module PipelineStranding {
  import opened Prelude
  import opened WorkQueue
  import opened Recordings
  import opened Processing
  import opened Pipeline
  import opened PipelineRows
  import opened PipelineSafety

  predicate Works(jobs: Jobs, job: Id, r: Id) {
    job in jobs && Live(jobs[job]) && jobs[job].kind == RecordingProcess && jobs[job].resource == r
  }

  // ---- No job comes back --------------------------------------------------------------

  /** Moving rows revives none of them. */
  lemma MovesReviveNothing(before: Jobs, after: Jobs, job: Id, r: Id)
    requires JobsMove(before, after) && job in before && Works(after, job, r)
    ensures Works(before, job, r)
  {
  }

  lemma ClaimRevivesNothing(w: World, a: Action, job: Id, r: Id)
    requires a.Claim? && Works(ClientStep(w, a).t.jobs, job, r)
    ensures Works(w.t.jobs, job, r)
  {
  }

  /** The job rows that a step adds: none of them works for a recording that exists, except
      under an identifier drawn in this very step. */
  lemma RearmingAdds(w: World, a: Action, job: Id)
    requires (a.Promote? || a.Retry? || a.Reanalyze?) && job !in w.t.jobs && job in ClientStep(w, a).t.jobs
    ensures job == Uuid(w.next)
  {
  }

  lemma CreateAdds(w: World, a: Action, job: Id, r: Id)
    requires a.Create? && r in w.t.recordings && job !in w.t.jobs
    ensures !Works(ClientStep(w, a).t.jobs, job, r)
  {
    CreateIs(w, a);
  }

  lemma ClientAdds(w: World, a: Action, job: Id, r: Id)
    requires !IsWorkerStep(a) && r in w.t.recordings && job !in w.t.jobs && Works(ClientStep(w, a).t.jobs, job, r)
    ensures job == Uuid(w.next)
  {
    if a.Create? {
      CreateAdds(w, a, job, r);
    } else if a.Promote? || a.Retry? || a.Reanalyze? {
      RearmingAdds(w, a, job);
    }
  }

  lemma HandlerAdds(p: Ports, w: World, i: nat, a: Action, job: Id, r: Id)
    requires IsWorkerStep(a) && i in w.workers && job !in w.t.jobs
    ensures !Works(WorkerStep(p, w, i, a).t.jobs, job, r)
  {
    if a.Analyze? {
      AnalyzeAdds(p, w, i, a, job, r);
    } else if a.Rewrite? {
      RewriteAdds(p, w, i, a, job, r);
    }
  }

  lemma AnalyzeAdds(p: Ports, w: World, i: nat, a: Action, job: Id, r: Id)
    requires a.Analyze? && i in w.workers && job !in w.t.jobs
    ensures !Works(WorkerStep(p, w, i, a).t.jobs, job, r)
  {
  }

  lemma RewriteAdds(p: Ports, w: World, i: nat, a: Action, job: Id, r: Id)
    requires a.Rewrite? && i in w.workers && job !in w.t.jobs
    ensures !Works(WorkerStep(p, w, i, a).t.jobs, job, r)
  {
  }

  lemma JobStaysGone(p: Ports, w: World, a: Action, job: Id, r: Id)
    requires r in w.t.recordings && Known(job, w.next) && !Works(w.t.jobs, job, r)
    ensures !Works(Step(p, w, a).t.jobs, job, r)
  {
    var jobs := Step(p, w, a).t.jobs;
    if Works(jobs, job, r) {
      if a.Claim? {
        ClaimRevivesNothing(w, a, job, r);
      } else if job in w.t.jobs {
        StepMovesJobs(p, w, a);
        MovesReviveNothing(w.t.jobs, jobs, job, r);
      } else if !IsWorkerStep(a) {
        ClientAdds(w, a, job, r);
      } else if a.worker in w.workers {
        HandlerAdds(p, w, a.worker, a, job, r);
      }
      assert false;
    }
  }

  // ---- Nobody touches the recording ---------------------------------------------------

  predicate RowStays(t: Tables, t': Tables, r: Id) {
    r in t.recordings && (r in t'.recordings ==> t'.recordings[r].job == t.recordings[r].job && t'.recordings[r].status == t.recordings[r].status)
  }

  lemma ClientLeavesRow(w: World, a: Action, r: Id)
    requires !IsWorkerStep(a) && r in w.t.recordings && w.t.recordings[r].status == Processing
    ensures RowStays(w.t, ClientStep(w, a).t, r)
  {
  }

  /** A worker that passes the fence of a recording has the job that works for it. */
  lemma FenceWorks(w: World, worker: Worker)
    requires WorkerOk(w, worker) && worker.held.kind == RecordingProcess && Fenced(w.t, worker.held)
    ensures Works(w.t.jobs, w.t.recordings[worker.held.resource].job, worker.held.resource)
  {
  }

  predicate Passes(t: Tables, held: Claimed, r: Id) { held.resource == r && Fenced(t, held) }

  /** A handler changes only the recording whose fence it passes. */
  lemma WriteTouches(p: Ports, w: World, i: nat, a: Action, r: Id)
    requires IsWorkerStep(a) && !a.Finish? && i in w.workers && r in w.t.recordings
    requires w.workers[i].held.kind == RecordingProcess || w.workers[i].phase.Started? || w.workers[i].phase.Returned?
    requires w.workers[i].held.kind == RecordingProcess ==> !Passes(w.t, w.workers[i].held, r)
    ensures RowStays(w.t, WorkerStep(p, w, i, a).t, r)
  {
    if a.Analyze? || a.Rewrite? { ResultTouches(p, w, i, a, r); }
  }

  lemma ResultTouches(p: Ports, w: World, i: nat, a: Action, r: Id)
    requires (a.Analyze? || a.Rewrite?) && i in w.workers && r in w.t.recordings
    requires w.workers[i].held.kind == RecordingProcess || w.workers[i].phase.Started? || w.workers[i].phase.Returned?
    requires w.workers[i].held.kind == RecordingProcess ==> !Passes(w.t, w.workers[i].held, r)
    ensures RowStays(w.t, WorkerStep(p, w, i, a).t, r)
  {
  }

  lemma FinishTouches(p: Ports, w: World, i: nat, a: Action, r: Id)
    requires a.Finish? && i in w.workers && r in w.t.recordings
    requires w.workers[i].held.kind == RecordingProcess ==> !Passes(w.t, w.workers[i].held, r)
    ensures RowStays(w.t, WorkerStep(p, w, i, a).t, r)
  {
  }

  lemma HandlerLeavesRow(p: Ports, w: World, i: nat, a: Action, r: Id)
    requires IsWorkerStep(a) && i in w.workers && WorkerOk(w, w.workers[i]) && Stranded(w.t, r)
    ensures RowStays(w.t, WorkerStep(p, w, i, a).t, r)
  {
    var worker := w.workers[i];
    if worker.held.kind == RecordingProcess && Fenced(w.t, worker.held) { FenceWorks(w, worker); }
    if a.Finish? {
      FinishTouches(p, w, i, a, r);
    } else {
      WriteTouches(p, w, i, a, r);
    }
  }

  lemma StrandedStays(p: Ports, w: World, a: Action, r: Id)
    requires Inv(p, w) && Stranded(w.t, r) && r in Step(p, w, a).t.recordings
    ensures Stranded(Step(p, w, a).t, r)
  {
    JobStaysGone(p, w, a, w.t.recordings[r].job, r);
    if !IsWorkerStep(a) {
      ClientLeavesRow(w, a, r);
    } else if a.worker in w.workers {
      HandlerLeavesRow(p, w, a.worker, a, r);
    }
  }

  /** A stranded recording is processing for ever: in every later state of every run, for as long
      as it is not removed. */
  lemma {:induction false} StrandedForever(p: Ports, w: World, actions: seq<Action>, r: Id)
    requires Inv(p, w) && Stranded(w.t, r) && PresentThroughout(p, w, actions, r)
    ensures Stranded(Run(p, w, actions).t, r)
    decreases |actions|
  {
    if actions != [] {
      StepKeeps(p, w, actions[0]);
      StrandedStays(p, w, actions[0], r);
      StrandedForever(p, Step(p, w, actions[0]), actions[1..], r);
    }
  }
}
