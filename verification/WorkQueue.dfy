/** The leased job queue (`internal/workqueue/queue.go`).

    The functions say what each SQL statement does to the table; class `Store` performs the
    statements one by one on its own field and is proved equal to them. */
module WorkQueue {
  import opened Prelude

  datatype InterviewStep = PrepareStep | TurnStep | RefillStep

  datatype Kind =
    | RecordingProcess
    | RecordingStrengths
    | ShadowingSynthesize
    | GuestPreview
    | InterviewProcess(step: InterviewStep)

  datatype State = Queued | Running | RetryWait | Succeeded | Failed | Cancelled

  /** The distinct prefixes the services put before an idempotency key are constructors. */
  datatype IdempotencyKey =
    | RecordingCreateKey(digest: Id)
    | RecordingKey(job: Id)
    | PromotePreviewKey(preview: Id)
    | StrengthsKey(job: Id)
    | ShadowingKey(job: Id)
    | PreviewKey(preview: Id)
    | InterviewPrepareKey(session: Id)
    | InterviewTurnKey(turn: Id)
    | InterviewRefillKey(session: Id, suffix: nat)

  datatype Job = Job(
    kind: Kind, resource: Id, key: IdempotencyKey, state: State,
    attempts: nat, maxAttempts: nat, availableAt: int,
    leaseToken: Option<nat>, leaseExpires: Option<int>, completedAt: Option<int>)

  type Jobs = map<Id, Job>

  /** What `Claim` returns to a worker; the worker keeps it while the row moves on. */
  datatype Claimed = Claimed(id: Id, kind: Kind, resource: Id, attempts: nat, maxAttempts: nat, token: nat)

  datatype Error = LeaseLost | DuplicateId

  predicate Live(job: Job) { job.state in {Queued, Running, RetryWait} }

  predicate Terminal(job: Job) { job.state in {Succeeded, Failed, Cancelled} }

  /** The fence every job update and every fenced write uses: the row is running under this very token. */
  predicate Holds(jobs: Jobs, held: Claimed) {
    held.id in jobs && jobs[held.id].state == Running && jobs[held.id].leaseToken == Some(held.token)
  }

  /** `requireRecordingLease` and `requireInterviewLease`: the fence plus an unexpired lease. */
  predicate LeaseActive(jobs: Jobs, held: Claimed, now: int) {
    Holds(jobs, held) && jobs[held.id].leaseExpires.Some? && jobs[held.id].leaseExpires.value > now
  }

  predicate KeyTaken(jobs: Jobs, key: IdempotencyKey) { exists id :: id in jobs && jobs[id].key == key }

  function NewJob(kind: Kind, resource: Id, key: IdempotencyKey, maxAttempts: int, now: int): Job {
    Job(kind, resource, key, Queued, 0, if maxAttempts <= 0 then 3 else maxAttempts, now, None, None, None)
  }

  /** A taken key is silently ignored; a taken id with a free key violates the primary key. */
  function Enqueued(jobs: Jobs, id: Id, job: Job): Result<Jobs, Error> {
    if KeyTaken(jobs, job.key) then Ok(jobs)
    else if id in jobs then Err(DuplicateId)
    else Ok(jobs[id := job])
  }

  predicate Claimable(job: Job, now: int) {
    && job.attempts < job.maxAttempts
    && (|| (job.state in {Queued, RetryWait} && job.availableAt <= now)
        || (job.state == Running && job.leaseExpires.Some? && job.leaseExpires.value <= now))
  }

  function ClaimRow(job: Job, token: nat, lease: int, now: int): Job {
    job.(state := Running, attempts := job.attempts + 1, leaseToken := Some(token), leaseExpires := Some(now + lease))
  }

  function Snapshot(id: Id, job: Job, token: nat): Claimed {
    Claimed(id, job.kind, job.resource, job.attempts, job.maxAttempts, token)
  }

  function Heartbeaten(jobs: Jobs, held: Claimed, lease: int, now: int): Jobs {
    if Holds(jobs, held) then jobs[held.id := jobs[held.id].(leaseExpires := Some(now + lease))] else jobs
  }

  function Released(job: Job, state: State): Job {
    job.(state := state, leaseToken := None, leaseExpires := None)
  }

  function Completed(jobs: Jobs, held: Claimed, now: int): Jobs {
    if Holds(jobs, held)
    then jobs[held.id := Released(jobs[held.id], Succeeded).(completedAt := Some(now))]
    else jobs
  }

  predicate IsTerminalFailure(held: Claimed) { held.attempts >= held.maxAttempts }

  function FailRow(job: Job, terminal: bool, delay: int, now: int): Job {
    if terminal then Released(job, Failed).(completedAt := Some(now))
    else Released(job, RetryWait).(availableAt := now + delay, completedAt := None)
  }

  /** Whether the failure is terminal is decided by the worker's snapshot, not by the row. */
  function FailedJobs(jobs: Jobs, held: Claimed, delay: int, now: int): Jobs {
    if Holds(jobs, held)
    then jobs[held.id := FailRow(jobs[held.id], IsTerminalFailure(held), delay, now)]
    else jobs
  }

  function CancelRow(job: Job, now: int): Job { Released(job, Cancelled).(completedAt := Some(now)) }

  function CancelledJobs(jobs: Jobs, resource: Id, kinds: set<Kind>, now: int): Jobs {
    map id | id in jobs ::
      if Live(jobs[id]) && jobs[id].resource == resource && jobs[id].kind in kinds
      then CancelRow(jobs[id], now) else jobs[id]
  }

  /** Exactly the live jobs of the kinds for the resource change. */
  lemma CancelledAre(jobs: Jobs, resource: Id, kinds: set<Kind>, now: int)
    ensures
      var after := CancelledJobs(jobs, resource, kinds, now);
      && after.Keys == jobs.Keys
      && forall id :: id in jobs ==>
        after[id] == if jobs[id].state in {Queued, Running, RetryWait} && jobs[id].resource == resource && jobs[id].kind in kinds
                     then jobs[id].(state := Cancelled, completedAt := Some(now), leaseToken := None, leaseExpires := None)
                     else jobs[id]
  {
  }

  predicate Prunable(jobs: Jobs, victims: set<Id>, before: int) {
    forall id :: id in victims ==>
      id in jobs && Terminal(jobs[id]) && jobs[id].completedAt.Some? && jobs[id].completedAt.value < before
  }

  // ---- What every row satisfies -------------------------------------------------------

  predicate RowOk(job: Job) {
    && 0 < job.maxAttempts
    && job.attempts <= job.maxAttempts
    && (job.state == Running <==> job.leaseToken.Some?)
    && (job.state == Running <==> job.leaseExpires.Some?)
    && (job.state in {Queued, RetryWait} ==> job.attempts < job.maxAttempts)
    && (job.state == Running ==> 0 < job.attempts)
    && (Terminal(job) <==> job.completedAt.Some?)
  }

  predicate RowsOk(jobs: Jobs) { forall id :: id in jobs ==> RowOk(jobs[id]) }

  predicate KeysUnique(jobs: Jobs) {
    forall i, j :: i in jobs && j in jobs && jobs[i].key == jobs[j].key ==> i == j
  }

  /** A snapshot that still holds its row agrees with it. */
  predicate SnapshotAgrees(jobs: Jobs, held: Claimed) {
    Holds(jobs, held) ==>
      && jobs[held.id].attempts == held.attempts && jobs[held.id].maxAttempts == held.maxAttempts
      && jobs[held.id].kind == held.kind && jobs[held.id].resource == held.resource
  }

  lemma ClaimKeepsRows(jobs: Jobs, id: Id, token: nat, lease: int, now: int)
    requires RowsOk(jobs) && id in jobs && Claimable(jobs[id], now)
    ensures RowsOk(jobs[id := ClaimRow(jobs[id], token, lease, now)])
  {
    assert RowOk(jobs[id]);
  }

  /** `Fail` keeps the rows well-formed because it is only effective for a snapshot that
      agrees with the row: the row goes back to waiting exactly when attempts remain. */
  lemma FailKeepsRows(jobs: Jobs, held: Claimed, delay: int, now: int)
    requires RowsOk(jobs) && SnapshotAgrees(jobs, held)
    ensures RowsOk(FailedJobs(jobs, held, delay, now))
    ensures Holds(jobs, held) ==>
      (FailedJobs(jobs, held, delay, now)[held.id].state == RetryWait <==> jobs[held.id].attempts < jobs[held.id].maxAttempts)
  {
    if Holds(jobs, held) { assert RowOk(jobs[held.id]); }
  }

  // ---- When a job can be claimed ------------------------------------------------------

  /** A new job can be claimed at once. */
  lemma NewJobIsClaimable(kind: Kind, resource: Id, key: IdempotencyKey, maxAttempts: int, now: int, later: int)
    ensures Claimable(NewJob(kind, resource, key, maxAttempts, now), later) <==> now <= later
  {
  }

  /** A claim holds its row, and its lease runs for exactly the time asked for; after that the job
      can be claimed again as long as attempts are left. */
  lemma ClaimLasts(jobs: Jobs, id: Id, token: nat, lease: int, now: int, later: int)
    requires id in jobs && Claimable(jobs[id], now)
    ensures
      var after, held := jobs[id := ClaimRow(jobs[id], token, lease, now)], Snapshot(id, ClaimRow(jobs[id], token, lease, now), token);
      && Holds(after, held) && held.attempts == jobs[id].attempts + 1 <= jobs[id].maxAttempts
      && (LeaseActive(after, held, later) <==> later < now + lease)
      && (Claimable(after[id], later) <==> now + lease <= later && jobs[id].attempts + 1 < jobs[id].maxAttempts)
  {
  }

  lemma HeartbeatLasts(jobs: Jobs, held: Claimed, lease: int, now: int, later: int)
    requires Holds(jobs, held)
    ensures
      var after := Heartbeaten(jobs, held, lease, now);
      && (LeaseActive(after, held, later) <==> later < now + lease)
      && (Claimable(after[held.id], later) <==> now + lease <= later && jobs[held.id].attempts < jobs[held.id].maxAttempts)
  {
  }

  /** A job that failed with attempts left cannot be claimed before its delay is over, and can from
      then on; one that failed for good, completed or was cancelled never can. */
  lemma FailureDelays(jobs: Jobs, held: Claimed, delay: int, now: int, later: int)
    requires RowsOk(jobs) && SnapshotAgrees(jobs, held) && Holds(jobs, held)
    ensures
      var after := FailedJobs(jobs, held, delay, now);
      && !Holds(after, held)
      && (Claimable(after[held.id], later) <==> jobs[held.id].attempts < jobs[held.id].maxAttempts && now + delay <= later)
  {
    assert RowOk(jobs[held.id]);
  }

  lemma FinishedIsNotClaimable(jobs: Jobs, held: Claimed, now: int, later: int)
    requires Holds(jobs, held)
    ensures !Holds(Completed(jobs, held, now), held) && !Claimable(Completed(jobs, held, now)[held.id], later)
    ensures !Claimable(CancelRow(jobs[held.id], now), later)
  {
  }

  // ---- How rows move ------------------------------------------------------------------

  predicate SameJob(before: Job, after: Job) {
    after.kind == before.kind && after.resource == before.resource && after.key == before.key
  }

  /** Without a claim, a row is left alone, has its lease extended, or is released. */
  predicate RowMoves(before: Job, after: Job) {
    || after == before
    || (before.state == Running && after.leaseExpires.Some? && after == before.(leaseExpires := after.leaseExpires))
    || (&& Live(before) && after.state != Running && after.leaseToken.None?
        && after.attempts == before.attempts && after.maxAttempts == before.maxAttempts && SameJob(before, after))
  }

  /** Rows that appear have never been claimed. */
  ghost predicate JobsMove(before: Jobs, after: Jobs) {
    forall id :: id in after ==> if id in before then RowMoves(before[id], after[id]) else after[id].leaseToken.None?
  }

  lemma EnqueueAfterMoves(before: Jobs, mid: Jobs, id: Id, job: Job)
    requires JobsMove(before, mid) && before.Keys == mid.Keys && job.leaseToken.None?
    requires Enqueued(mid, id, job).Ok?
    ensures JobsMove(before, Enqueued(mid, id, job).value)
  {
  }

  lemma CancelMoves(jobs: Jobs, resource: Id, kinds: set<Kind>, now: int)
    ensures JobsMove(jobs, CancelledJobs(jobs, resource, kinds, now))
    ensures CancelledJobs(jobs, resource, kinds, now).Keys == jobs.Keys
  {
  }

  lemma HeartbeatMoves(jobs: Jobs, held: Claimed, lease: int, now: int)
    ensures JobsMove(jobs, Heartbeaten(jobs, held, lease, now))
  {
  }

  lemma ReleaseMoves(jobs: Jobs, held: Claimed, delay: int, now: int)
    ensures JobsMove(jobs, Completed(jobs, held, now))
    ensures JobsMove(jobs, FailedJobs(jobs, held, delay, now))
  {
  }

  lemma ClaimKeepsHolders(jobs: Jobs, id: Id, token: nat, lease: int, now: int, held: Claimed)
    requires id in jobs && Claimable(jobs[id], now) && held.token != token && SnapshotAgrees(jobs, held)
    ensures
      var after := jobs[id := ClaimRow(jobs[id], token, lease, now)];
      (Holds(after, held) ==> Holds(jobs, held)) && SnapshotAgrees(after, held)
  {
  }

  /** Moves never give a lease back, and a snapshot that agreed goes on agreeing. */
  lemma MovesKeepHolders(before: Jobs, after: Jobs, held: Claimed)
    requires JobsMove(before, after) && SnapshotAgrees(before, held)
    ensures Holds(after, held) ==> Holds(before, held)
    ensures SnapshotAgrees(after, held)
  {
  }

  // ---- The store ----------------------------------------------------------------------

  class Store {
    var jobs: Jobs

    constructor ()
      ensures jobs == map[]
    {
      jobs := map[];
    }

    method Enqueue(id: Id, kind: Kind, resource: Id, key: IdempotencyKey, maxAttempts: int, now: int)
      returns (error: Option<Error>)
      modifies this
      ensures
        match Enqueued(old(jobs), id, NewJob(kind, resource, key, maxAttempts, now))
        case Ok(after) => error == None && jobs == after
        case Err(e) => error == Some(e) && jobs == old(jobs)
      ensures (exists other :: other in old(jobs) && old(jobs)[other].key == key) ==> error == None && jobs == old(jobs)
      ensures (forall other :: other in old(jobs) ==> old(jobs)[other].key != key) ==>
        if id in old(jobs) then error == Some(DuplicateId) && jobs == old(jobs)
        else
          && error == None
          && jobs == old(jobs)[id := Job(kind, resource, key, Queued, 0, if maxAttempts <= 0 then 3 else maxAttempts, now, None, None, None)]
    {
      var limit := maxAttempts;
      if limit <= 0 {
        limit := 3;
      }
      if exists other :: other in jobs && jobs[other].key == key {
        return None;
      }
      if id in jobs {
        return Some(DuplicateId);
      }
      jobs := jobs[id := Job(kind, resource, key, Queued, 0, limit, now, None, None, None)];
      return None;
    }

    /** One matching row, chosen by the database, moves to `token`; nothing moves when there is none. */
    method Claim(kinds: set<Kind>, token: nat, lease: int, now: int) returns (claimed: Option<Claimed>)
      modifies this
      ensures claimed.None? ==>
        && jobs == old(jobs)
        && forall id :: id in jobs && jobs[id].kind in kinds ==> !Claimable(jobs[id], now)
      ensures claimed.Some? ==>
        && var id := claimed.value.id;
        && id in old(jobs) && old(jobs)[id].kind in kinds && Claimable(old(jobs)[id], now)
        && jobs == old(jobs)[id := ClaimRow(old(jobs)[id], token, lease, now)]
        && claimed.value == Snapshot(id, jobs[id], token)
      ensures claimed.Some? ==>
        var id, was := claimed.value.id, old(jobs)[claimed.value.id];
        && was.attempts < was.maxAttempts && was.state in {Queued, Running, RetryWait}
        && jobs == old(jobs)[id := was.(state := Running, attempts := was.attempts + 1, leaseToken := Some(token), leaseExpires := Some(now + lease))]
        && claimed.value == Claimed(id, was.kind, was.resource, was.attempts + 1, was.maxAttempts, token)
    {
      if candidate :| candidate in jobs && jobs[candidate].kind in kinds && Claimable(jobs[candidate], now) {
        var row := jobs[candidate];
        row := row.(state := Running, attempts := row.attempts + 1);
        row := row.(leaseToken := Some(token), leaseExpires := Some(now + lease));
        jobs := jobs[candidate := row];
        return Some(Claimed(candidate, row.kind, row.resource, row.attempts, row.maxAttempts, token));
      }
      return None;
    }

    method Heartbeat(held: Claimed, lease: int, now: int) returns (error: Option<Error>)
      modifies this
      ensures jobs == Heartbeaten(old(jobs), held, lease, now)
      ensures error == if Holds(old(jobs), held) then None else Some(LeaseLost)
      ensures error == None <==> held.id in old(jobs) && old(jobs)[held.id].state == Running && old(jobs)[held.id].leaseToken == Some(held.token)
      ensures jobs == if error == None then old(jobs)[held.id := old(jobs)[held.id].(leaseExpires := Some(now + lease))] else old(jobs)
    {
      if held.id !in jobs || jobs[held.id].state != Running || jobs[held.id].leaseToken != Some(held.token) {
        return Some(LeaseLost);
      }
      jobs := jobs[held.id := jobs[held.id].(leaseExpires := Some(now + lease))];
      return None;
    }

    method Complete(held: Claimed, now: int) returns (error: Option<Error>)
      modifies this
      ensures jobs == Completed(old(jobs), held, now)
      ensures error == if Holds(old(jobs), held) then None else Some(LeaseLost)
      ensures error == None <==> held.id in old(jobs) && old(jobs)[held.id].state == Running && old(jobs)[held.id].leaseToken == Some(held.token)
      ensures jobs ==
        if error == None
        then old(jobs)[held.id := old(jobs)[held.id].(state := Succeeded, completedAt := Some(now), leaseToken := None, leaseExpires := None)]
        else old(jobs)
    {
      if held.id !in jobs || jobs[held.id].state != Running || jobs[held.id].leaseToken != Some(held.token) {
        return Some(LeaseLost);
      }
      var row := jobs[held.id].(state := Succeeded, completedAt := Some(now));
      row := row.(leaseToken := None, leaseExpires := None);
      jobs := jobs[held.id := row];
      return None;
    }

    /** The queue's half of `Fail`; the caller finalizes the resource in the same transaction
        when `terminal` comes back true. */
    method Fail(held: Claimed, delay: int, now: int) returns (terminal: bool, error: Option<Error>)
      modifies this
      ensures jobs == FailedJobs(old(jobs), held, delay, now)
      ensures error == if Holds(old(jobs), held) then None else Some(LeaseLost)
      ensures terminal <==> error.None? && IsTerminalFailure(held)
      ensures error == None <==> held.id in old(jobs) && old(jobs)[held.id].state == Running && old(jobs)[held.id].leaseToken == Some(held.token)
      ensures terminal <==> error == None && held.attempts >= held.maxAttempts
      ensures terminal ==>
        jobs == old(jobs)[held.id := old(jobs)[held.id].(state := Failed, completedAt := Some(now), leaseToken := None, leaseExpires := None)]
      ensures error == None && !terminal ==>
        jobs == old(jobs)[held.id := old(jobs)[held.id].(state := RetryWait, availableAt := now + delay, completedAt := None,
                                                         leaseToken := None, leaseExpires := None)]
      ensures error != None ==> jobs == old(jobs)
    {
      var exhausted := held.attempts >= held.maxAttempts;
      if held.id !in jobs || jobs[held.id].state != Running || jobs[held.id].leaseToken != Some(held.token) {
        return false, Some(LeaseLost);
      }
      var row := jobs[held.id].(state := if exhausted then Failed else RetryWait);
      if exhausted {
        row := row.(completedAt := Some(now));
      } else {
        row := row.(availableAt := now + delay, completedAt := None);
      }
      row := row.(leaseToken := None, leaseExpires := None);
      jobs := jobs[held.id := row];
      return exhausted, None;
    }

    method Cancel(resource: Id, kinds: set<Kind>, now: int)
      modifies this
      ensures jobs == CancelledJobs(old(jobs), resource, kinds, now)
    {
      jobs := map id | id in jobs ::
        if jobs[id].state in {Queued, Running, RetryWait} && jobs[id].resource == resource && jobs[id].kind in kinds
        then jobs[id].(state := Cancelled, completedAt := Some(now), leaseToken := None, leaseExpires := None)
        else jobs[id];
    }

    /** At most `limit` terminal rows that completed before the boundary disappear; every other row stays. */
    method PruneTerminal(before: int, limit: nat) returns (removed: set<Id>)
      modifies this
      ensures |removed| <= limit && forall id :: id in removed ==>
        id in old(jobs) && old(jobs)[id].state in {Succeeded, Failed, Cancelled}
        && old(jobs)[id].completedAt.Some? && old(jobs)[id].completedAt.value < before
      ensures Prunable(old(jobs), removed, before)
      ensures jobs == old(jobs) - removed
      ensures |removed| < limit ==>
        forall id :: id in jobs && jobs[id].state in {Succeeded, Failed, Cancelled} && jobs[id].completedAt.Some? ==>
          jobs[id].completedAt.value >= before
    {
      removed := {};
      ghost var initial := jobs;
      while |removed| < limit
        invariant |removed| <= limit
        invariant Prunable(initial, removed, before)
        invariant jobs == initial - removed
        decreases limit - |removed|
      {
        if id :| id in jobs && Terminal(jobs[id]) && jobs[id].completedAt.Some? && jobs[id].completedAt.value < before {
          jobs := jobs - {id};
          removed := removed + {id};
        } else {
          break;
        }
      }
    }
  }
}
