/**
 The preview-job protocol as a transition system over one preview: its row, its live RQ jobs, its
 advisory lock, and every session that is doing something with it. Previews share nothing, so a system
 of many is a family of these (see `ProtocolLaws.PreviewsAreIndependent`).

 What is taken from PostgreSQL and RQ: a commit is atomic; a session's lock goes when the session ends;
 scanning for live RQ jobs sees one moment; taking a job from the queue and marking it started is one
 step; a started job stays live until its execution has ended, and only then can its failure callback
 run or RQ retry it; a job that is not executing can be dropped or lost at any time; no job timeout is delivered
 after a completing commit. Lock attempts may fail at any time, which covers waiting too long and two ids that
 share a lock key.
 */
module Protocol {
  import opened Wrappers
  import opened JobRow

  datatype Config = Config(maxRetries: nat, staleAfter: nat)

  type SessionId = nat
  type RqId = nat

  /** Where a live RQ job is: queued, scheduled or deferred; executing; or ended and not yet settled. */
  datatype Phase = Waiting | Started(session: SessionId) | Ended | CalledBack

  datatype RqJob = RqJob(retriesLeft: Option<nat>, phase: Phase)
  {
    function Retries(): nat {
      if retriesLeft.Some? then retriesLeft.value else 0
    }
  }

  /** What a session is in the middle of. */
  datatype Activity =
    // submitting
    | Submitting | Persisted | EnqueueFailed(delivered: bool) | Submitted
    // executing RQ job `rq`
    | AwaitLock(rq: RqId) | Locked(rq: RqId) | Claimed(rq: RqId, k: nat)
    | Unlocking(rq: RqId, raised: bool) | Finished(rq: RqId, raised: bool)
    // reconciling
    | RecLocked | RecRefreshed(seen: Row) | RecScanned(seen: Row) | RecRequeued(seen: Row)
    | RecReady(attempts: nat) | RecReleasing
  {
    predicate Executes() {
      AwaitLock? || Locked? || Claimed? || Unlocking? || Finished?
    }

    predicate HoldsLock() {
      !AwaitLock? && !Finished?
    }

    predicate BeforeClaim() {
      AwaitLock? || Locked?
    }

    predicate Submits() {
      Submitting? || Persisted? || EnqueueFailed? || Submitted?
    }

    predicate Reconciles() {
      RecLocked? || RecRefreshed? || RecScanned? || RecRequeued? || RecReady? || RecReleasing?
    }
  }

  datatype Preview = Preview(
    issued: bool,
    row: Option<Row>,
    live: map<RqId, RqJob>,
    lock: Option<SessionId>,
    sessions: map<SessionId, Activity>)

  /** Before anything has happened. */
  const NO_PREVIEW := Preview(false, None, map[], None, map[])

  datatype Step =
    | SubmitLock(s: SessionId)
    | SubmitPersist(s: SessionId, now: int, ttl: nat)
    | SubmitEnqueue(s: SessionId, rq: RqId)
    | SubmitEnqueueFails(s: SessionId, delivered: bool, rq: RqId)
    | SubmitFail(s: SessionId, now: int)
    | SubmitRelease(s: SessionId)
    | Dequeue(s: SessionId, rq: RqId)
    | LockAcquire(s: SessionId)
    | LockTimeout(s: SessionId)
    | StopBeforeLock(s: SessionId, raised: bool)
    | FailWithoutLock(s: SessionId, now: int, raised: bool)
    | ClaimJob(s: SessionId, now: int)
    | StopBeforeClaim(s: SessionId, raised: bool)
    | FailBeforeClaim(s: SessionId, now: int, raised: bool)
    | UpdateProgress(s: SessionId)
    | CompleteJob(s: SessionId, result: int, now: int, raised: bool)
    | FailJob(s: SessionId, error: string, now: int, raised: bool)
    | StopWorking(s: SessionId, raised: bool)
    | Unlock(s: SessionId)
    | Finish(s: SessionId)
    | Callback(rq: RqId, now: int)
    | Retry(rq: RqId)
    | Drop(rq: RqId)
    | Crash(s: SessionId)
    | RecLock(s: SessionId)
    | RecRefresh(s: SessionId)
    | RecScan(s: SessionId)
    | RecFail(s: SessionId, now: int, clock: int)
    | RecRequeue(s: SessionId, now: int)
    | RecRefreshAgain(s: SessionId)
    | RecKeepQueued(s: SessionId, now: int)
    | RecEnqueue(s: SessionId, rq: RqId)
    | RecAbandon(s: SessionId)
    | RecRelease(s: SessionId)
    | DeleteExpired
  {
    predicate BySubmitter() {
      SubmitLock? || SubmitPersist? || SubmitEnqueue? || SubmitEnqueueFails? || SubmitFail?
    }

    predicate BeforeClaim() {
      || LockAcquire? || LockTimeout? || StopBeforeLock? || FailWithoutLock?
      || ClaimJob? || StopBeforeClaim? || FailBeforeClaim?
    }

    predicate AfterClaim() {
      UpdateProgress? || CompleteJob? || FailJob? || StopWorking?
    }

    predicate Leaving() {
      SubmitRelease? || RecRelease? || Unlock? || Finish? || Crash?
    }

    predicate ByRq() {
      Dequeue? || Callback? || Retry? || Drop? || DeleteExpired?
    }

    predicate ReconcilerLooks() {
      RecLock? || RecRefresh? || RecScan? || RecRefreshAgain? || RecKeepQueued? || RecAbandon?
    }

    predicate ReconcilerActs() {
      RecFail? || RecRequeue? || RecEnqueue?
    }
  }

  // ----- pieces of the steps -----

  /** `RqPreviewQueue.enqueue`: a retry policy only for a positive retry count. */
  function NewRqJob(retries: nat): RqJob {
    RqJob(if retries > 0 then Some(retries) else None, Waiting)
  }

  predicate AllowRunning(cfg: Config, job: RqJob) {
    job.retriesLeft.Some? && job.retriesLeft.value < cfg.maxRetries
  }

  predicate Exhausted(cfg: Config, row: Row) {
    row.attempts >= cfg.maxRetries + 1
  }

  predicate Expired(row: Row, now: int) {
    now >= row.expiresAt
  }

  predicate Stale(cfg: Config, row: Row, now: int) {
    row.status.Running? && (row.startedAt.None? || now - row.startedAt.value >= cfg.staleAfter)
  }

  // Writes addressed to a row that has been deleted find nothing to change.
  function Failing(row: Option<Row>, error: string, now: int): Option<Row> {
    if row.Some? then Some(Fail(row.value, error, now)) else None
  }

  function Synchronised(row: Option<Row>, willRetry: bool, error: string, now: int): Option<Row> {
    if row.Some? then Some(AfterFailure(row.value, willRetry, error, now)) else None
  }

  function Completing(row: Option<Row>, result: int, now: int): Option<Row> {
    if row.Some? then Some(Complete(row.value, result, now)) else None
  }

  function Become(p: Preview, s: SessionId, activity: Activity): Preview {
    p.(sessions := p.sessions[s := activity])
  }

  function Leave(p: Preview, s: SessionId): Preview {
    p.(sessions := p.sessions - {s})
  }

  function EndExecution(live: map<RqId, RqJob>, rq: RqId): map<RqId, RqJob> {
    if rq in live then live[rq := live[rq].(phase := Ended)] else live
  }

  predicate Doing(p: Preview, s: SessionId) {
    s in p.sessions
  }

  // ----- when a step can happen -----

  predicate SubmitterEnabled(cfg: Config, p: Preview, step: Step)
    requires step.BySubmitter()
  {
    match step
    case SubmitLock(s) => !p.issued && s !in p.sessions
    case SubmitPersist(s, _, _) => Doing(p, s) && p.sessions[s].Submitting?
    case SubmitEnqueue(s, rq) => Doing(p, s) && p.sessions[s].Persisted? && rq !in p.live
    case SubmitEnqueueFails(s, _, rq) => Doing(p, s) && p.sessions[s].Persisted? && rq !in p.live
    case SubmitFail(s, _) => Doing(p, s) && p.sessions[s].EnqueueFailed?
  }

  predicate StartingEnabled(cfg: Config, p: Preview, step: Step)
    requires step.BeforeClaim()
  {
    match step
    case LockAcquire(s) => Doing(p, s) && p.sessions[s].AwaitLock? && p.lock.None?
    case LockTimeout(s) => Doing(p, s) && p.sessions[s].AwaitLock?
    case StopBeforeLock(s, _) => Doing(p, s) && p.sessions[s].AwaitLock?
    case FailWithoutLock(s, _, _) => Doing(p, s) && p.sessions[s].AwaitLock?
    case ClaimJob(s, _) => Doing(p, s) && p.sessions[s].Locked? && p.sessions[s].rq in p.live
    case StopBeforeClaim(s, _) => Doing(p, s) && p.sessions[s].Locked?
    case FailBeforeClaim(s, _, _) => Doing(p, s) && p.sessions[s].Locked?
  }

  predicate WorkingEnabled(cfg: Config, p: Preview, step: Step)
    requires step.AfterClaim()
  {
    match step
    case UpdateProgress(s) => Doing(p, s) && p.sessions[s].Claimed? && p.sessions[s].k < LAST_STAGE
    case CompleteJob(s, _, _, _) => Doing(p, s) && p.sessions[s].Claimed? && p.sessions[s].k == LAST_STAGE
    case FailJob(s, _, _, _) => Doing(p, s) && p.sessions[s].Claimed?
    case StopWorking(s, _) => Doing(p, s) && p.sessions[s].Claimed?
  }

  predicate LeavingEnabled(cfg: Config, p: Preview, step: Step)
    requires step.Leaving()
  {
    match step
    case SubmitRelease(s) => Doing(p, s) && p.sessions[s].Submits()
    case RecRelease(s) => Doing(p, s) && p.sessions[s].RecReleasing?
    case Unlock(s) => Doing(p, s) && p.sessions[s].Unlocking?
    case Finish(s) => Doing(p, s) && p.sessions[s].Finished?
    case Crash(s) => Doing(p, s)
  }

  predicate LooksEnabled(cfg: Config, p: Preview, step: Step)
    requires step.ReconcilerLooks()
  {
    match step
    case RecLock(s) => p.issued && p.lock.None? && s !in p.sessions
    case RecRefresh(s) => Doing(p, s) && p.sessions[s].RecLocked?
    case RecScan(s) => Doing(p, s) && p.sessions[s].RecRefreshed?
    case RecRefreshAgain(s) => Doing(p, s) && p.sessions[s].RecRequeued?
    case RecKeepQueued(s, now) =>
      Doing(p, s) && p.sessions[s].RecScanned? && p.sessions[s].seen.status.Queued?
      && !Exhausted(cfg, p.sessions[s].seen) && !Expired(p.sessions[s].seen, now)
    case RecAbandon(s) => Doing(p, s) && p.sessions[s].Reconciles()
  }

  predicate ActsEnabled(cfg: Config, p: Preview, step: Step)
    requires step.ReconcilerActs()
  {
    match step
    case RecFail(s, now, _) =>
      Doing(p, s) && p.sessions[s].RecScanned?
      && (Exhausted(cfg, p.sessions[s].seen) || Expired(p.sessions[s].seen, now))
    case RecRequeue(s, now) =>
      Doing(p, s) && p.sessions[s].RecScanned? && Stale(cfg, p.sessions[s].seen, now)
      && !Exhausted(cfg, p.sessions[s].seen) && !Expired(p.sessions[s].seen, now)
    case RecEnqueue(s, rq) => Doing(p, s) && p.sessions[s].RecReady? && rq !in p.live
  }

  predicate RqEnabled(cfg: Config, p: Preview, step: Step)
    requires step.ByRq()
  {
    match step
    case Dequeue(s, rq) => s !in p.sessions && rq in p.live && p.live[rq].phase.Waiting?
    case Callback(rq, _) => rq in p.live && p.live[rq].phase.Ended?
    case Retry(rq) => rq in p.live && (p.live[rq].phase.Ended? || p.live[rq].phase.CalledBack?)
        && p.live[rq].Retries() > 0
    case Drop(rq) => rq in p.live && !p.live[rq].phase.Started?
    case DeleteExpired => true
  }

  predicate Enabled(cfg: Config, p: Preview, step: Step) {
    if step.BySubmitter() then SubmitterEnabled(cfg, p, step)
    else if step.BeforeClaim() then StartingEnabled(cfg, p, step)
    else if step.AfterClaim() then WorkingEnabled(cfg, p, step)
    else if step.Leaving() then LeavingEnabled(cfg, p, step)
    else if step.ReconcilerLooks() then LooksEnabled(cfg, p, step)
    else if step.ReconcilerActs() then ActsEnabled(cfg, p, step)
    else RqEnabled(cfg, p, step)
  }

  // ----- what a step does -----

  /** A claim that finds the row eligible. */
  predicate ClaimSucceeds(cfg: Config, p: Preview, step: Step)
    requires Enabled(cfg, p, step)
  {
    && step.ClaimJob?
    && p.row.Some?
    && Claimable(p.row.value, AllowRunning(cfg, p.live[p.sessions[step.s].rq]))
  }

  /** What `submit_preview_job` does while it holds the lock. */
  function ApplySubmitter(cfg: Config, p: Preview, step: Step): Preview
    requires step.BySubmitter() && SubmitterEnabled(cfg, p, step)
  {
    match step
    case SubmitLock(s) => Become(p, s, Submitting).(issued := true, lock := Some(s))
    case SubmitPersist(s, now, ttl) => Become(p, s, Persisted).(row := Some(NewRow(now, ttl)))
    case SubmitEnqueue(s, rq) => Become(p, s, Submitted).(live := p.live[rq := NewRqJob(cfg.maxRetries)])
    case SubmitEnqueueFails(s, delivered, rq) =>
      Become(p, s, EnqueueFailed(delivered))
        .(live := if delivered then p.live[rq := NewRqJob(cfg.maxRetries)] else p.live)
    case SubmitFail(s, now) => Become(p, s, Submitted).(row := Failing(p.row, QUEUE_FAILURE, now))
  }

  /** What an execution does up to its claim. */
  function ApplyStarting(cfg: Config, p: Preview, step: Step): Preview
    requires step.BeforeClaim() && StartingEnabled(cfg, p, step)
  {
    match step
    case LockAcquire(s) => Become(p, s, Locked(p.sessions[s].rq)).(lock := Some(s))
    case LockTimeout(s) => Become(p, s, Finished(p.sessions[s].rq, false))
    case StopBeforeLock(s, raised) => Become(p, s, Finished(p.sessions[s].rq, raised))
    case FailWithoutLock(s, now, raised) =>
      Become(p, s, Finished(p.sessions[s].rq, raised))
        .(row := Synchronised(p.row, false, OPERATIONAL_FAILURE, now))
    case ClaimJob(s, now) =>
      if ClaimSucceeds(cfg, p, step) then
        Become(p, s, Claimed(p.sessions[s].rq, 0)).(row := Some(Claim(p.row.value, now)))
      else Become(p, s, Unlocking(p.sessions[s].rq, false))
    case StopBeforeClaim(s, raised) => Become(p, s, Unlocking(p.sessions[s].rq, raised))
    case FailBeforeClaim(s, now, raised) =>
      Become(p, s, Unlocking(p.sessions[s].rq, raised))
        .(row := Synchronised(p.row, false, OPERATIONAL_FAILURE, now))
  }

  /** What an execution does with the row that it has claimed. */
  function ApplyWorking(cfg: Config, p: Preview, step: Step): Preview
    requires step.AfterClaim() && WorkingEnabled(cfg, p, step)
  {
    match step
    case UpdateProgress(s) =>
      var next := p.sessions[s].k + 1;
      if p.row.None? then Become(p, s, Unlocking(p.sessions[s].rq, false))
      else Become(p, s, Claimed(p.sessions[s].rq, next)).(row := Some(Advance(p.row.value, next)))
    case CompleteJob(s, result, now, raised) =>
      Become(p, s, Unlocking(p.sessions[s].rq, raised)).(row := Completing(p.row, result, now))
    case FailJob(s, error, now, raised) =>
      Become(p, s, Unlocking(p.sessions[s].rq, raised)).(row := Failing(p.row, error, now))
    case StopWorking(s, raised) => Become(p, s, Unlocking(p.sessions[s].rq, raised))
  }

  /** How a session lets go: by unlocking, by ending, or by dying. */
  function ApplyLeaving(cfg: Config, p: Preview, step: Step): Preview
    requires step.Leaving() && LeavingEnabled(cfg, p, step)
  {
    match step
    case SubmitRelease(s) => Leave(p, s).(lock := None)
    case RecRelease(s) => Leave(p, s).(lock := None)
    case Unlock(s) => Become(p, s, Finished(p.sessions[s].rq, p.sessions[s].raised)).(lock := None)
    case Finish(s) =>
      var rq := p.sessions[s].rq;
      Leave(p, s).(live := if p.sessions[s].raised then EndExecution(p.live, rq) else p.live - {rq})
    case Crash(s) =>
      Leave(p, s).(lock := if p.lock == Some(s) then None else p.lock,
                   live := if p.sessions[s].Executes() then EndExecution(p.live, p.sessions[s].rq) else p.live)
  }

  /** What `reconcile_preview_jobs` finds out about this preview. */
  function ApplyLooks(cfg: Config, p: Preview, step: Step): Preview
    requires step.ReconcilerLooks() && LooksEnabled(cfg, p, step)
  {
    match step
    case RecLock(s) => Become(p, s, RecLocked).(lock := Some(s))
    case RecRefresh(s) =>
      Become(p, s, if p.row.None? || p.row.value.Terminal() then RecReleasing else RecRefreshed(p.row.value))
    case RecScan(s) => Become(p, s, if p.live != map[] then RecReleasing else RecScanned(p.sessions[s].seen))
    case RecRefreshAgain(s) => Become(p, s, if p.row.None? then RecReleasing else RecReady(p.row.value.attempts))
    case RecKeepQueued(s, _) => Become(p, s, RecReady(p.sessions[s].seen.attempts))
    case RecAbandon(s) => Become(p, s, RecReleasing)
  }

  /** What `reconcile_preview_jobs` does about it. */
  function ApplyActs(cfg: Config, p: Preview, step: Step): Preview
    requires step.ReconcilerActs() && ActsEnabled(cfg, p, step)
  {
    match step
    case RecFail(s, _, clock) =>
      Become(p, s, RecReleasing).(row := Synchronised(p.row, false, RECOVERY_FAILURE, clock))
    case RecRequeue(s, now) =>
      Become(p, s, RecRequeued(p.sessions[s].seen))
        .(row := Synchronised(p.row, true, OPERATIONAL_FAILURE, now))
    case RecEnqueue(s, rq) =>
      var budget := cfg.maxRetries - p.sessions[s].attempts;
      Become(p, s, RecReleasing).(live := p.live[rq := NewRqJob(if budget > 0 then budget else 0)])
  }

  /** What RQ does by itself, its failure callback, and the deletion of expired rows. */
  function ApplyRq(cfg: Config, p: Preview, step: Step): Preview
    requires step.ByRq() && RqEnabled(cfg, p, step)
  {
    match step
    case Dequeue(s, rq) => Become(p, s, AwaitLock(rq)).(live := p.live[rq := p.live[rq].(phase := Started(s))])
    case Callback(rq, now) =>
      p.(row := Synchronised(p.row, p.live[rq].Retries() > 0, OPERATIONAL_FAILURE, now),
         live := p.live[rq := p.live[rq].(phase := CalledBack)])
    case Retry(rq) => p.(live := p.live[rq := RqJob(Some(p.live[rq].Retries() - 1), Waiting)])
    case Drop(rq) => p.(live := p.live - {rq})
    case DeleteExpired => p.(row := None)
  }

  function Apply(cfg: Config, p: Preview, step: Step): Preview
    requires Enabled(cfg, p, step)
  {
    if step.BySubmitter() then ApplySubmitter(cfg, p, step)
    else if step.BeforeClaim() then ApplyStarting(cfg, p, step)
    else if step.AfterClaim() then ApplyWorking(cfg, p, step)
    else if step.Leaving() then ApplyLeaving(cfg, p, step)
    else if step.ReconcilerLooks() then ApplyLooks(cfg, p, step)
    else if step.ReconcilerActs() then ApplyActs(cfg, p, step)
    else ApplyRq(cfg, p, step)
  }

  // ----- the invariant -----

  /** A session is past taking the lock if and only if it is the lock's holder. */
  ghost predicate LockOk(p: Preview) {
    && (forall s :: s in p.sessions && p.sessions[s].HoldsLock() ==> p.lock == Some(s))
    && (p.lock.Some? ==> p.lock.value in p.sessions && p.sessions[p.lock.value].HoldsLock())
  }

  /** There is at most one live RQ job, and it and its execution know each other. */
  ghost predicate LiveOk(p: Preview) {
    && (forall r1, r2 :: r1 in p.live && r2 in p.live ==> r1 == r2)
    && (forall s :: s in p.sessions && p.sessions[s].Executes() ==>
          p.sessions[s].rq in p.live && p.live[p.sessions[s].rq].phase == Started(s))
    && (forall r :: r in p.live && p.live[r].phase.Started? ==>
          var s := p.live[r].phase.session; s in p.sessions && p.sessions[s].Executes() && p.sessions[s].rq == r)
  }

  /** Whether the execution of a live job can still claim the row. */
  ghost predicate CanClaim(p: Preview, r: RqId)
    requires r in p.live
  {
    || p.live[r].phase.Waiting?
    || (p.live[r].phase.Started? && p.live[r].phase.session in p.sessions
        && p.sessions[p.live[r].phase.session].BeforeClaim())
  }

  /** Attempts made and retries left stay within the budget. */
  ghost predicate BudgetOk(cfg: Config, p: Preview) {
    p.row.Some? ==>
      && p.row.value.attempts <= cfg.maxRetries + 1
      && (forall r :: r in p.live ==>
            p.row.value.attempts + p.live[r].Retries() <= cfg.maxRetries + (if CanClaim(p, r) then 0 else 1))
  }

  /** A running row is left over from an execution that RQ has retried, so that nobody else may claim it. */
  ghost predicate ReclaimOk(cfg: Config, p: Preview) {
    RowRuns(p) ==>
      forall r :: r in p.live && CanClaim(p, r) ==> AllowRunning(cfg, p.live[r])
  }

  predicate RowRuns(p: Preview) {
    p.row.Some? && p.row.value.status.Running?
  }

  /** What each session in the middle of something still knows about the row and the queue. */
  ghost predicate ActivityOk(cfg: Config, p: Preview, activity: Activity) {
    match activity
    case Submitting => p.row.None? && p.live == map[]
    case Persisted => p.live == map[] && (p.row.Some? ==> p.row.value.status.Queued? && p.row.value.attempts == 0)
    case EnqueueFailed(delivered) =>
      && (!delivered ==> p.live == map[])
      && (p.row.Some? ==>
            && p.row.value.attempts == 0
            && (p.row.value.status.Queued? || (delivered && p.row.value.status.Failed?)))
    case Claimed(_, k) => k <= LAST_STAGE && (p.row.Some? ==> RunningAt(p.row.value, k))
    case RecRefreshed(seen) =>
      && !seen.Terminal() && (p.row.Some? ==> p.row.value.attempts == seen.attempts)
      && (RowRuns(p) ==> seen.status.Running?)
    case RecScanned(seen) =>
      && p.live == map[] && !seen.Terminal() && (p.row.Some? ==> p.row.value.attempts == seen.attempts)
      && (RowRuns(p) ==> seen.status.Running?)
    case RecRequeued(seen) =>
      && p.live == map[] && seen.attempts <= cfg.maxRetries && !RowRuns(p)
      && (p.row.Some? ==> p.row.value.attempts == seen.attempts)
    case RecReady(attempts) =>
      && p.live == map[] && attempts <= cfg.maxRetries && !RowRuns(p)
      && (p.row.Some? ==> p.row.value.attempts == attempts)
    case _ => true
  }

  ghost predicate ActivitiesOk(cfg: Config, p: Preview) {
    forall s :: s in p.sessions ==> ActivityOk(cfg, p, p.sessions[s])
  }

  ghost predicate Inv(cfg: Config, p: Preview) {
    && (!p.issued ==> p == NO_PREVIEW)
    && LockOk(p)
    && LiveOk(p)
    && BudgetOk(cfg, p)
    && ReclaimOk(cfg, p)
    && ActivitiesOk(cfg, p)
    && (p.row.Some? ==> Consistent(p.row.value))
  }

  // ----- the kinds of change that the steps are made of -----

  /** A session goes on to something else and touches nothing. */
  lemma MoveKeeps(cfg: Config, p: Preview, s: SessionId, a: Activity)
    requires Inv(cfg, p) && s in p.sessions && ActivityOk(cfg, p, a)
    requires a.HoldsLock() == p.sessions[s].HoldsLock() && (a.BeforeClaim() ==> p.sessions[s].BeforeClaim())
    requires a.Executes() == p.sessions[s].Executes() && (a.Executes() ==> a.rq == p.sessions[s].rq)
    ensures Inv(cfg, Become(p, s, a))
  {
  }

  /** The lock's holder writes the row, if there is one, without changing the attempts. */
  lemma HolderWriteKeeps(cfg: Config, p: Preview, s: SessionId, a: Activity, row: Option<Row>)
    requires Inv(cfg, p) && s in p.sessions && p.sessions[s].HoldsLock() && row.Some? == p.row.Some?
    requires a.HoldsLock() && (a.BeforeClaim() ==> p.sessions[s].BeforeClaim())
    requires a.Executes() == p.sessions[s].Executes() && (a.Executes() ==> a.rq == p.sessions[s].rq)
    requires row.Some? ==> Consistent(row.value) && row.value.attempts == p.row.value.attempts
    requires row.Some? && row.value.status.Running? ==> RowRuns(p)
    requires ActivityOk(cfg, p.(row := row), a)
    ensures Inv(cfg, Become(p, s, a).(row := row))
  {
  }

  /** A guarded write on behalf of the live job, without the lock: nobody else can be relying on the row. */
  lemma GuardedWriteKeeps(cfg: Config, p: Preview, rq: RqId, willRetry: bool, now: int)
    requires Inv(cfg, p) && rq in p.live
    requires forall s :: s in p.sessions ==> !p.sessions[s].Claimed?
    ensures Inv(cfg, p.(row := Synchronised(p.row, willRetry, OPERATIONAL_FAILURE, now)))
  {
    if p.row.Some? {
      WritesAreConsistent(p.row.value, 0, OPERATIONAL_FAILURE, 0, willRetry, now, 0);
    }
  }

  /** Only the execution of a live job can have claimed the row. */
  lemma NoClaimWithout(cfg: Config, p: Preview, rq: RqId)
    requires Inv(cfg, p) && rq in p.live
    ensures !p.live[rq].phase.Started? ==> forall s :: s in p.sessions ==> !p.sessions[s].Executes()
    ensures p.live[rq].phase.Started? ==>
              forall s :: s in p.sessions && p.sessions[s].Executes() ==> s == p.live[rq].phase.session
  {
  }

  /** The lock's holder adds the one live job, within the budget. */
  lemma EnqueueKeeps(cfg: Config, p: Preview, s: SessionId, a: Activity, rq: RqId, retries: nat)
    requires Inv(cfg, p) && s in p.sessions && p.lock == Some(s) && p.live == map[]
    requires !p.sessions[s].Executes() && !a.Executes() && a.HoldsLock()
    requires !RowRuns(p) && (p.row.Some? ==> p.row.value.attempts + retries <= cfg.maxRetries)
    requires ActivityOk(cfg, p.(live := map[rq := NewRqJob(retries)]), a)
    ensures Inv(cfg, Become(p, s, a).(live := p.live[rq := NewRqJob(retries)]))
  {
    assert p.live[rq := NewRqJob(retries)] == map[rq := NewRqJob(retries)];
  }

  lemma ClaimKeeps(cfg: Config, p: Preview, s: SessionId, now: int)
    requires Inv(cfg, p) && Enabled(cfg, p, ClaimJob(s, now)) && ClaimSucceeds(cfg, p, ClaimJob(s, now))
    ensures Inv(cfg, Become(p, s, Claimed(p.sessions[s].rq, 0)).(row := Some(Claim(p.row.value, now))))
  {
    WritesAreConsistent(p.row.value, 0, "", 0, false, now, 0);
  }

  /** A new or waiting session takes the free lock. */
  lemma AcquireKeeps(cfg: Config, p: Preview, s: SessionId, a: Activity)
    requires Inv(cfg, p) && p.lock.None? && p.issued && a.HoldsLock() && ActivityOk(cfg, p, a)
    requires if s in p.sessions then a.Locked? && p.sessions[s].AwaitLock?
        && a.rq == p.sessions[s].rq else !a.Executes()
    ensures Inv(cfg, Become(p, s, a).(lock := Some(s)))
  {
  }

  lemma ReleaseKeeps(cfg: Config, p: Preview, s: SessionId)
    requires Inv(cfg, p) && s in p.sessions && p.sessions[s].HoldsLock()
    ensures !p.sessions[s].Executes() ==> Inv(cfg, Leave(p, s).(lock := None))
    ensures p.sessions[s].Unlocking? ==>
              Inv(cfg, Become(p, s, Finished(p.sessions[s].rq, p.sessions[s].raised)).(lock := None))
  {
  }

  /** An execution ends, by returning, raising or dying; its job is then waiting to be settled, or gone. */
  lemma EndKeeps(cfg: Config, p: Preview, s: SessionId, live: map<RqId, RqJob>)
    requires Inv(cfg, p) && s in p.sessions && p.sessions[s].Executes()
    requires live == EndExecution(p.live, p.sessions[s].rq) || live == p.live - {p.sessions[s].rq}
    ensures Inv(cfg, Leave(p, s).(lock := if p.lock == Some(s) then None else p.lock, live := live))
  {
  }

  /** RQ marks a waiting job started, on behalf of a new session. */
  lemma DequeueKeeps(cfg: Config, p: Preview, rq: RqId, s: SessionId)
    requires Inv(cfg, p) && s !in p.sessions && rq in p.live && p.live[rq].phase.Waiting?
    ensures Inv(cfg, Become(p, s, AwaitLock(rq)).(live := p.live[rq := p.live[rq].(phase := Started(s))]))
  {
  }

  /** An ended job changes in RQ, its retries only ever counting down. */
  lemma SettleKeeps(cfg: Config, p: Preview, rq: RqId, next: RqJob)
    requires Inv(cfg, p) && rq in p.live && (p.live[rq].phase.Ended? || p.live[rq].phase.CalledBack?)
    requires !next.phase.Started? && (next.phase.Waiting? ==> next.retriesLeft.Some?)
    requires next.Retries() + (if next.phase.Waiting? then 1 else 0) <= p.live[rq].Retries()
    ensures Inv(cfg, p.(live := p.live[rq := next]))
  {
  }

  /** A job that is not executing leaves RQ, after its last failure or by being lost. */
  lemma DropKeeps(cfg: Config, p: Preview, rq: RqId)
    requires Inv(cfg, p) && rq in p.live && !p.live[rq].phase.Started?
    ensures Inv(cfg, p.(live := p.live - {rq}))
  {
  }

  lemma DeleteKeeps(cfg: Config, p: Preview)
    requires Inv(cfg, p)
    ensures Inv(cfg, p.(row := None))
  {
  }

  // ----- every step keeps the invariant -----

  lemma SubmitterKeeps(cfg: Config, p: Preview, step: Step)
    requires Inv(cfg, p) && step.BySubmitter() && SubmitterEnabled(cfg, p, step)
    ensures Inv(cfg, ApplySubmitter(cfg, p, step))
  {
    match step
    case SubmitLock(s) =>
    case SubmitPersist(s, now, ttl) =>
    case SubmitEnqueue(s, rq) => EnqueueKeeps(cfg, p, s, Submitted, rq, cfg.maxRetries);
    case SubmitEnqueueFails(s, delivered, rq) =>
      if delivered {
        EnqueueKeeps(cfg, p, s, EnqueueFailed(true), rq, cfg.maxRetries);
      } else {
        MoveKeeps(cfg, p, s, EnqueueFailed(false));
      }
    case SubmitFail(s, now) => HolderWriteKeeps(cfg, p, s, Submitted, Failing(p.row, QUEUE_FAILURE, now));
  }

  /** Before its claim, an execution takes or misses the lock, fails, or claims the row. */
  lemma StartingKeeps(cfg: Config, p: Preview, step: Step)
    requires Inv(cfg, p) && step.BeforeClaim() && StartingEnabled(cfg, p, step)
    ensures Inv(cfg, ApplyStarting(cfg, p, step))
  {
    var s := step.s;
    var rq := p.sessions[s].rq;
    match step
    case LockAcquire(_) => AcquireKeeps(cfg, p, s, Locked(rq));
    case LockTimeout(_) => MoveKeeps(cfg, p, s, Finished(rq, false));
    case StopBeforeLock(_, raised) => MoveKeeps(cfg, p, s, Finished(rq, raised));
    case FailWithoutLock(_, now, raised) =>
      var moved := Become(p, s, Finished(rq, raised));
      MoveKeeps(cfg, p, s, Finished(rq, raised));
      NoClaimWithout(cfg, moved, rq);
      GuardedWriteKeeps(cfg, moved, rq, false, now);
    case ClaimJob(_, now) =>
      if ClaimSucceeds(cfg, p, step) {
        ClaimKeeps(cfg, p, s, now);
      } else {
        MoveKeeps(cfg, p, s, Unlocking(rq, false));
      }
    case StopBeforeClaim(_, raised) => MoveKeeps(cfg, p, s, Unlocking(rq, raised));
    case FailBeforeClaim(_, now, raised) =>
      HolderWriteKeeps(cfg, p, s, Unlocking(rq, raised), Synchronised(p.row, false, OPERATIONAL_FAILURE, now));
  }

  lemma ProgressKeeps(cfg: Config, p: Preview, s: SessionId)
    requires Inv(cfg, p) && WorkingEnabled(cfg, p, UpdateProgress(s))
    ensures Inv(cfg, ApplyWorking(cfg, p, UpdateProgress(s)))
  {
    var rq := p.sessions[s].rq;
    var next := p.sessions[s].k + 1;
    if p.row.Some? {
      WritesAreConsistent(p.row.value, next, "", 0, false, 0, 0);
      HolderWriteKeeps(cfg, p, s, Claimed(rq, next), Some(Advance(p.row.value, next)));
    } else {
      MoveKeeps(cfg, p, s, Unlocking(rq, false));
    }
  }

  lemma WorkingKeeps(cfg: Config, p: Preview, step: Step)
    requires Inv(cfg, p) && step.AfterClaim() && WorkingEnabled(cfg, p, step)
    ensures Inv(cfg, ApplyWorking(cfg, p, step))
  {
    var s := step.s;
    var rq := p.sessions[s].rq;
    match step
    case UpdateProgress(_) => ProgressKeeps(cfg, p, s);
    case CompleteJob(_, result, now, raised) =>
      HolderWriteKeeps(cfg, p, s, Unlocking(rq, raised), Completing(p.row, result, now));
    case FailJob(_, error, now, raised) =>
      HolderWriteKeeps(cfg, p, s, Unlocking(rq, raised), Failing(p.row, error, now));
    case StopWorking(_, raised) => MoveKeeps(cfg, p, s, Unlocking(rq, raised));
  }

  lemma LeavingKeeps(cfg: Config, p: Preview, step: Step)
    requires Inv(cfg, p) && step.Leaving() && LeavingEnabled(cfg, p, step)
    ensures Inv(cfg, ApplyLeaving(cfg, p, step))
  {
    var s := step.s;
    if p.sessions[s].Executes() && !step.Unlock? {
      EndKeeps(cfg, p, s, ApplyLeaving(cfg, p, step).live);
    } else {
      ReleaseKeeps(cfg, p, s);
    }
  }

  lemma LooksKeep(cfg: Config, p: Preview, step: Step)
    requires Inv(cfg, p) && step.ReconcilerLooks() && LooksEnabled(cfg, p, step)
    ensures Inv(cfg, ApplyLooks(cfg, p, step))
  {
    var s := step.s;
    if step.RecLock? {
      AcquireKeeps(cfg, p, s, RecLocked);
    } else {
      MoveKeeps(cfg, p, s, ApplyLooks(cfg, p, step).sessions[s]);
    }
  }

  lemma ActsKeep(cfg: Config, p: Preview, step: Step)
    requires Inv(cfg, p) && step.ReconcilerActs() && ActsEnabled(cfg, p, step)
    ensures Inv(cfg, ApplyActs(cfg, p, step))
  {
    match step
    case RecFail(s, _, clock) =>
      HolderWriteKeeps(cfg, p, s, RecReleasing, Synchronised(p.row, false, RECOVERY_FAILURE, clock));
    case RecRequeue(s, now) =>
      HolderWriteKeeps(cfg, p, s, RecRequeued(p.sessions[s].seen), Synchronised(p.row, true, OPERATIONAL_FAILURE, now));
    case RecEnqueue(s, rq) => EnqueueKeeps(cfg, p, s, RecReleasing, rq, cfg.maxRetries - p.sessions[s].attempts);
  }

  lemma CallbackKeeps(cfg: Config, p: Preview, rq: RqId, now: int)
    requires Inv(cfg, p) && RqEnabled(cfg, p, Callback(rq, now))
    ensures Inv(cfg, ApplyRq(cfg, p, Callback(rq, now)))
  {
    var willRetry := p.live[rq].Retries() > 0;
    NoClaimWithout(cfg, p, rq);
    GuardedWriteKeeps(cfg, p, rq, willRetry, now);
    SettleKeeps(cfg, p.(row := Synchronised(p.row, willRetry, OPERATIONAL_FAILURE, now)), rq,
                p.live[rq].(phase := CalledBack));
  }

  lemma RqKeeps(cfg: Config, p: Preview, step: Step)
    requires Inv(cfg, p) && step.ByRq() && RqEnabled(cfg, p, step)
    ensures Inv(cfg, ApplyRq(cfg, p, step))
  {
    match step
    case Dequeue(s, rq) => DequeueKeeps(cfg, p, rq, s);
    case Callback(rq, now) => CallbackKeeps(cfg, p, rq, now);
    case Retry(rq) => SettleKeeps(cfg, p, rq, RqJob(Some(p.live[rq].Retries() - 1), Waiting));
    case Drop(rq) => DropKeeps(cfg, p, rq);
    case DeleteExpired => DeleteKeeps(cfg, p);
  }

  lemma StepKeeps(cfg: Config, p: Preview, step: Step)
    requires Inv(cfg, p) && Enabled(cfg, p, step)
    ensures Inv(cfg, Apply(cfg, p, step))
  {
    if step.BySubmitter() {
      SubmitterKeeps(cfg, p, step);
    } else if step.BeforeClaim() {
      StartingKeeps(cfg, p, step);
    } else if step.AfterClaim() {
      WorkingKeeps(cfg, p, step);
    } else if step.Leaving() {
      LeavingKeeps(cfg, p, step);
    } else if step.ReconcilerLooks() {
      LooksKeep(cfg, p, step);
    } else if step.ReconcilerActs() {
      ActsKeep(cfg, p, step);
    } else {
      RqKeeps(cfg, p, step);
    }
  }
}
