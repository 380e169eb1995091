/** What every run of the preview-job protocol keeps: exclusion, budget, forward movement, absorption. */
module ProtocolLaws {
  import opened Wrappers
  import opened JobRow
  import opened Protocol

  /** Where a sequence of steps leads from a state, if each step can happen in its turn. */
  function Continue(cfg: Config, p: Preview, steps: seq<Step>): Option<Preview> {
    if steps == [] then Some(p)
    else
      var before := Continue(cfg, p, steps[..|steps| - 1]);
      var step := steps[|steps| - 1];
      if before.Some? && Enabled(cfg, before.value, step) then Some(Apply(cfg, before.value, step)) else None
  }

  /** A whole run: from before the preview exists. */
  function Replay(cfg: Config, steps: seq<Step>): Option<Preview> {
    Continue(cfg, NO_PREVIEW, steps)
  }

  lemma OneMoreStep(cfg: Config, p: Preview, steps: seq<Step>, step: Step, q: Preview)
    requires Continue(cfg, p, steps) == Some(q) && Enabled(cfg, q, step)
    ensures Continue(cfg, p, steps + [step]) == Some(Apply(cfg, q, step))
  {
    assert (steps + [step])[..|steps|] == steps;
  }

  /** A preview whose row is `row` while a session is doing something with it. */
  function With(p: Preview, row: Row, s: SessionId, activity: Activity): Preview {
    Become(p, s, activity).(row := Some(row))
  }

  lemma WithAgain(p: Preview, row: Row, s: SessionId, a: Activity, row': Row, b: Activity)
    ensures Become(With(p, row, s, a), s, b).(row := Some(row')) == With(p, row', s, b)
  {
    assert p.sessions[s := a][s := b] == p.sessions[s := b];
  }

  lemma {:induction false} RunKeeps(cfg: Config, p: Preview, steps: seq<Step>)
    requires Inv(cfg, p) && Continue(cfg, p, steps).Some?
    ensures Inv(cfg, Continue(cfg, p, steps).value)
  {
    if steps != [] {
      RunKeeps(cfg, p, steps[..|steps| - 1]);
      StepKeeps(cfg, Continue(cfg, p, steps[..|steps| - 1]).value, steps[|steps| - 1]);
    }
  }

  /** One live RQ job, one session with the lock, and at most one between claim and completion. */
  lemma OneAtATime(cfg: Config, steps: seq<Step>)
    requires Replay(cfg, steps).Some?
    ensures var p := Replay(cfg, steps).value;
            && |p.live| <= 1
            && (forall s :: s in p.sessions && p.sessions[s].HoldsLock() ==> p.lock == Some(s))
            && (forall s :: s in p.sessions && p.sessions[s].Claimed? ==>
                  p.lock == Some(s) && p.live.Keys == {p.sessions[s].rq})
            && (forall s :: s in p.sessions && (p.sessions[s].Persisted? || p.sessions[s].RecReady?) ==>
                p.live == map[])
  {
    RunKeeps(cfg, NO_PREVIEW, steps);
    var p := Replay(cfg, steps).value;
    if r :| r in p.live {
      assert p.live.Keys == {r};
    }
  }

  // ----- how one step changes the row -----

  /** How far a row has come: by attempt, then by progress, return to the queue and end. */
  function Rank(row: Row): nat {
    100 * row.attempts + match row.status
                         case Running => row.progress
                         case Queued => 98
                         case _ => 99
  }

  /** The one step that rewrites a failed row. */
  predicate RecordsLateFailure(p: Preview, step: Step, q: Preview) {
    && step.SubmitFail? && p.row.Some? && p.row.value.status.Failed?
    && q.row == Some(Fail(p.row.value, QUEUE_FAILURE, step.now))
  }

  /** A later state of a row: its times are those it was stored with, and that of the claim it still runs under. */
  predicate SameTimes(row: Row, next: Row) {
    && next.createdAt == row.createdAt && next.expiresAt == row.expiresAt
    && (next.status.Running? || next.status.Completed? ==> row.status.Running? && next.startedAt == row.startedAt)
  }

  /** A row is claimed, or moves forward within its attempt, or is rewritten, stored, deleted or left alone. */
  predicate RowMoves(cfg: Config, p: Preview, step: Step, q: Preview)
    requires Enabled(cfg, p, step)
  {
    if ClaimSucceeds(cfg, p, step) then
      !p.row.value.Terminal() && q.row == Some(Claim(p.row.value, step.now))
    else
      || q.row == p.row
      || (p.row.Some? && q.row.Some? && q.row.value.attempts == p.row.value.attempts
          && !p.row.value.Terminal() && Rank(q.row.value) > Rank(p.row.value) && SameTimes(p.row.value, q.row.value))
      || RecordsLateFailure(p, step, q)
      || (step.SubmitPersist? && p.row.None? && q.row == Some(NewRow(step.now, step.ttl)))
      || (step.DeleteExpired? && q.row.None?)
  }

  lemma SubmitterMoves(cfg: Config, p: Preview, step: Step)
    requires Inv(cfg, p) && Enabled(cfg, p, step) && step.BySubmitter()
    ensures RowMoves(cfg, p, step, ApplySubmitter(cfg, p, step))
  {
  }

  lemma StartingMoves(cfg: Config, p: Preview, step: Step)
    requires Inv(cfg, p) && Enabled(cfg, p, step) && step.BeforeClaim()
    ensures RowMoves(cfg, p, step, ApplyStarting(cfg, p, step))
  {
  }

  lemma ProgressMoves(cfg: Config, p: Preview, s: SessionId)
    requires Inv(cfg, p) && Enabled(cfg, p, UpdateProgress(s))
    ensures RowMoves(cfg, p, UpdateProgress(s), ApplyWorking(cfg, p, UpdateProgress(s)))
  {
    assert ActivityOk(cfg, p, p.sessions[s]);
  }

  lemma EndingMoves(cfg: Config, p: Preview, step: Step)
    requires Inv(cfg, p) && Enabled(cfg, p, step) && (step.CompleteJob? || step.FailJob? || step.StopWorking?)
    ensures RowMoves(cfg, p, step, ApplyWorking(cfg, p, step))
  {
    assert ActivityOk(cfg, p, p.sessions[step.s]);
  }

  /** The guarded write leaves a row alone or moves it forward. */
  lemma GuardedWriteMoves(row: Row, willRetry: bool, error: string, now: int)
    requires Consistent(row)
    ensures var next := AfterFailure(row, willRetry, error, now);
            next == row
            || (next.attempts == row.attempts && !row.Terminal() && Rank(next) > Rank(row) && SameTimes(row, next))
  {
  }

  lemma CallbackMoves(cfg: Config, p: Preview, step: Step)
    requires Inv(cfg, p) && Enabled(cfg, p, step) && step.Callback?
    ensures RowMoves(cfg, p, step, ApplyRq(cfg, p, step))
  {
    if p.row.Some? {
      GuardedWriteMoves(p.row.value, p.live[step.rq].Retries() > 0, OPERATIONAL_FAILURE, step.now);
    }
  }

  lemma RecoveryMoves(cfg: Config, p: Preview, step: Step)
    requires Inv(cfg, p) && Enabled(cfg, p, step) && step.ReconcilerActs()
    ensures RowMoves(cfg, p, step, ApplyActs(cfg, p, step))
  {
    if p.row.Some? && !step.RecEnqueue? {
      GuardedWriteMoves(p.row.value, false, RECOVERY_FAILURE, if step.RecFail? then step.clock else step.now);
      GuardedWriteMoves(p.row.value, true, OPERATIONAL_FAILURE, step.now);
    }
  }

  lemma StepMoves(cfg: Config, p: Preview, step: Step)
    requires Inv(cfg, p) && Enabled(cfg, p, step)
    ensures RowMoves(cfg, p, step, Apply(cfg, p, step))
  {
    if step.BySubmitter() {
      SubmitterMoves(cfg, p, step);
    } else if step.BeforeClaim() {
      StartingMoves(cfg, p, step);
    } else if step.AfterClaim() {
      if step.UpdateProgress? {
        ProgressMoves(cfg, p, step.s);
      } else {
        EndingMoves(cfg, p, step);
      }
    } else if step.ReconcilerActs() {
      RecoveryMoves(cfg, p, step);
    } else if step.Callback? {
      CallbackMoves(cfg, p, step);
    } else {
      assert Apply(cfg, p, step).row == p.row || step.DeleteExpired?;
    }
  }

  lemma StartingDoesNotSubmit(cfg: Config, p: Preview, step: Step, s: SessionId)
    requires step.BeforeClaim() && Enabled(cfg, p, step)
    requires s in ApplyStarting(cfg, p, step).sessions && ApplyStarting(cfg, p, step).sessions[s].Submits()
    ensures s in p.sessions && p.sessions[s] == ApplyStarting(cfg, p, step).sessions[s]
  {
  }

  lemma LeavingDoesNotSubmit(cfg: Config, p: Preview, step: Step, s: SessionId)
    requires step.Leaving() && Enabled(cfg, p, step)
    requires s in ApplyLeaving(cfg, p, step).sessions && ApplyLeaving(cfg, p, step).sessions[s].Submits()
    ensures s in p.sessions && p.sessions[s] == ApplyLeaving(cfg, p, step).sessions[s]
  {
  }

  lemma LookingDoesNotSubmit(cfg: Config, p: Preview, step: Step, s: SessionId)
    requires step.ReconcilerLooks() && Enabled(cfg, p, step)
    requires s in ApplyLooks(cfg, p, step).sessions && ApplyLooks(cfg, p, step).sessions[s].Submits()
    ensures s in p.sessions && p.sessions[s] == ApplyLooks(cfg, p, step).sessions[s]
  {
  }

  /** Only submitters submit. */
  lemma OthersDoNotSubmit(cfg: Config, p: Preview, step: Step, s: SessionId)
    requires Enabled(cfg, p, step) && !step.BySubmitter()
    requires s in Apply(cfg, p, step).sessions && Apply(cfg, p, step).sessions[s].Submits()
    ensures s in p.sessions && p.sessions[s] == Apply(cfg, p, step).sessions[s]
  {
    if step.BeforeClaim() {
      StartingDoesNotSubmit(cfg, p, step, s);
    } else if step.Leaving() {
      LeavingDoesNotSubmit(cfg, p, step, s);
    } else if step.ReconcilerLooks() {
      LookingDoesNotSubmit(cfg, p, step, s);
    }
  }

  /** Only the preview's very first step makes a session its submitter. */
  lemma OneSubmitter(cfg: Config, p: Preview, step: Step)
    requires Enabled(cfg, p, step) && !step.SubmitLock?
    ensures var q := Apply(cfg, p, step);
            && q.issued == p.issued
            && forall s :: s in q.sessions && q.sessions[s].Submitting? ==> s in p.sessions && p.sessions[s].Submitting?
  {
    if !step.BySubmitter() {
      var q := Apply(cfg, p, step);
      forall s | s in q.sessions && q.sessions[s].Submitting?
        ensures s in p.sessions && p.sessions[s].Submitting?
      {
        OthersDoNotSubmit(cfg, p, step, s);
      }
    }
  }

  /** Nobody is executing, and only `s` can be holding the lock. */
  ghost predicate Alone(p: Preview, s: SessionId) {
    && p.live == map[]
    && forall t :: t in p.sessions ==> !p.sessions[t].Executes() && (p.sessions[t].HoldsLock() ==> t == s)
  }

  lemma SubmitterWaits(cfg: Config, p: Preview, step: Step, s: SessionId)
    requires step.BySubmitter() && SubmitterEnabled(cfg, p, step)
    requires s in p.sessions && p.sessions[s].Reconciles() && Alone(p, s)
    ensures ApplySubmitter(cfg, p, step).row == p.row
  {
  }

  lemma ExecutesToWork(cfg: Config, p: Preview, step: Step)
    requires (step.BeforeClaim() || step.AfterClaim()) && Enabled(cfg, p, step)
    ensures step.s in p.sessions && p.sessions[step.s].Executes()
  {
  }

  lemma AloneWrites(cfg: Config, p: Preview, step: Step, s: SessionId)
    requires Enabled(cfg, p, step) && s in p.sessions && p.sessions[s].Reconciles() && Alone(p, s)
    ensures || Apply(cfg, p, step).row == p.row
            || step.DeleteExpired?
            || ((step.RecFail? || step.RecRequeue?) && step.s == s)
  {
    if step.BySubmitter() {
      SubmitterWaits(cfg, p, step, s);
    } else if step.BeforeClaim() || step.AfterClaim() {
      ExecutesToWork(cfg, p, step);
    }
  }

  /** While a reconciler acts on what its scan has found, nobody else writes the row; it can only be deleted. */
  lemma NobodyElseWrites(cfg: Config, p: Preview, step: Step, s: SessionId)
    requires Inv(cfg, p) && Enabled(cfg, p, step) && s in p.sessions
    requires p.sessions[s].RecScanned? || p.sessions[s].RecRequeued? || p.sessions[s].RecReady?
    ensures || Apply(cfg, p, step).row == p.row
            || step.DeleteExpired?
            || ((step.RecFail? || step.RecRequeue?) && step.s == s)
  {
    assert ActivityOk(cfg, p, p.sessions[s]);
    AloneWrites(cfg, p, step, s);
  }

  // ----- runs -----

  /** How many claims of a run have succeeded. */
  function Claims(cfg: Config, steps: seq<Step>): nat
    requires Replay(cfg, steps).Some?
  {
    if steps == [] then 0
    else
      var p := Replay(cfg, steps[..|steps| - 1]).value;
      Claims(cfg, steps[..|steps| - 1]) + (if ClaimSucceeds(cfg, p, steps[|steps| - 1]) then 1 else 0)
  }

  /** A row counts its claims; while its submitter has yet to store it, there have been none. */
  ghost predicate Counted(cfg: Config, p: Preview, claims: nat) {
    && claims <= cfg.maxRetries + 1
    && (p.row.Some? ==> p.row.value.attempts == claims)
    && (forall s :: s in p.sessions && p.sessions[s].Submitting? ==> claims == 0)
    && (!p.issued ==> claims == 0)
  }

  lemma StepCounts(cfg: Config, p: Preview, step: Step, claims: nat)
    requires Inv(cfg, p) && Enabled(cfg, p, step) && Counted(cfg, p, claims)
    ensures Counted(cfg, Apply(cfg, p, step), claims + if ClaimSucceeds(cfg, p, step) then 1 else 0)
  {
    StepKeeps(cfg, p, step);
    StepMoves(cfg, p, step);
    if !step.SubmitLock? {
      OneSubmitter(cfg, p, step);
    }
  }

  lemma {:induction false} RunCounts(cfg: Config, steps: seq<Step>)
    requires Replay(cfg, steps).Some?
    ensures Counted(cfg, Replay(cfg, steps).value, Claims(cfg, steps))
  {
    if steps != [] {
      var shorter := steps[..|steps| - 1];
      RunKeeps(cfg, NO_PREVIEW, shorter);
      RunCounts(cfg, shorter);
      StepCounts(cfg, Replay(cfg, shorter).value, steps[|steps| - 1], Claims(cfg, shorter));
    }
  }

  /**
   Over any interleaving of failures, crashes, lost callbacks, retries and recoveries, a preview is
   claimed at most `maxRetries + 1` times; its claims and the retries that its RQ job has left are at
   most `maxRetries` until that job's execution claims, and at most `maxRetries + 1` from then on.
   */
  lemma AttemptBudget(cfg: Config, steps: seq<Step>)
    requires Replay(cfg, steps).Some?
    ensures var p := Replay(cfg, steps).value;
            && Claims(cfg, steps) <= cfg.maxRetries + 1
            && (p.row.Some? ==> p.row.value.attempts == Claims(cfg, steps))
            && (p.row.Some? ==> forall r :: r in p.live ==>
                  Claims(cfg, steps) + p.live[r].Retries() <= cfg.maxRetries + if CanClaim(p, r) then 0 else 1)
  {
    RunKeeps(cfg, NO_PREVIEW, steps);
    RunCounts(cfg, steps);
  }

  /** The retry count of a recovery is never negative, and is exactly what is left of the budget. */
  lemma RecoveryBudget(cfg: Config, steps: seq<Step>, s: SessionId)
    requires Replay(cfg, steps).Some?
    requires s in Replay(cfg, steps).value.sessions && Replay(cfg, steps).value.sessions[s].RecReady?
    ensures var p := Replay(cfg, steps).value;
            var retries := cfg.maxRetries - p.sessions[s].attempts;
            && retries >= 0
            && p.live == map[]
            && (p.row.Some? ==> Claims(cfg, steps) + retries == cfg.maxRetries)
  {
    RunKeeps(cfg, NO_PREVIEW, steps);
    RunCounts(cfg, steps);
  }

  /**
   The claim of an execution succeeds exactly when there is a nonterminal row: that only retried executions
   may take over a running row never refuses an execution that has work to do.
   */
  lemma ClaimsAreNeverRefused(cfg: Config, steps: seq<Step>, s: SessionId, now: int)
    requires Replay(cfg, steps).Some? && Enabled(cfg, Replay(cfg, steps).value, ClaimJob(s, now))
    ensures var p := Replay(cfg, steps).value;
            ClaimSucceeds(cfg, p, ClaimJob(s, now)) <==> p.row.Some? && !p.row.value.Terminal()
  {
    RunKeeps(cfg, NO_PREVIEW, steps);
    var p := Replay(cfg, steps).value;
    assert CanClaim(p, p.sessions[s].rq);
  }

  /** A row that is gone, and that nobody is about to store. */
  ghost predicate Gone(p: Preview) {
    p.issued && p.row.None? && forall s :: s in p.sessions ==> !p.sessions[s].Submitting?
  }

  lemma GoneStaysGone(cfg: Config, p: Preview, step: Step)
    requires Inv(cfg, p) && Enabled(cfg, p, step) && (p.row.Some? || Gone(p))
    ensures Apply(cfg, p, step).row.Some? || Gone(Apply(cfg, p, step))
    ensures Gone(p) ==> Gone(Apply(cfg, p, step))
  {
    StepMoves(cfg, p, step);
    OneSubmitter(cfg, p, step);
  }

  /** Between two moments at which a preview has a row, that row has only moved forward. */
  lemma {:induction false} RowsMoveForward(cfg: Config, p: Preview, steps: seq<Step>)
    requires Inv(cfg, p) && p.row.Some? && Continue(cfg, p, steps).Some?
    ensures var q := Continue(cfg, p, steps).value;
            if q.row.None? then Gone(q)
            else
              || q.row == p.row
              || Rank(q.row.value) > Rank(p.row.value)
              || (p.row.value.status.Failed? && q.row.value.status.Failed?
                  && q.row.value.attempts == p.row.value.attempts)
  {
    if steps != [] {
      var shorter := steps[..|steps| - 1];
      var step := steps[|steps| - 1];
      RowsMoveForward(cfg, p, shorter);
      RunKeeps(cfg, p, shorter);
      var before := Continue(cfg, p, shorter).value;
      GoneStaysGone(cfg, before, step);
      StepMoves(cfg, before, step);
    }
  }

  /** Within one attempt, the progress that a reader sees never falls, and rises whenever the row changes. */
  lemma ProgressRises(cfg: Config, p: Preview, steps: seq<Step>)
    requires Inv(cfg, p) && Continue(cfg, p, steps).Some? && p.row.Some? && Continue(cfg, p, steps).value.row.Some?
    requires p.row.value.status.Running? && Continue(cfg, p, steps).value.row.value.status.Running?
    requires Continue(cfg, p, steps).value.row.value.attempts == p.row.value.attempts
    ensures var q := Continue(cfg, p, steps).value;
            q.row == p.row || q.row.value.progress > p.row.value.progress
  {
    RowsMoveForward(cfg, p, steps);
  }

  // ----- finished rows -----

  /** A submitter whose enqueue raised although the job had arrived, and who has yet to record the failure. */
  ghost predicate LateFailure(p: Preview) {
    exists s :: s in p.sessions && p.sessions[s] == EnqueueFailed(true)
  }

  /** In a finished preview no session turns into a late submitter. */
  lemma NoNewLateFailure(cfg: Config, p: Preview, step: Step)
    requires Inv(cfg, p) && Enabled(cfg, p, step) && p.row.Some? && p.row.value.Terminal()
    ensures LateFailure(Apply(cfg, p, step)) ==> LateFailure(p)
  {
    var q := Apply(cfg, p, step);
    if s :| s in q.sessions && q.sessions[s] == EnqueueFailed(true) {
      if !step.BySubmitter() {
        OthersDoNotSubmit(cfg, p, step, s);
      }
    }
  }

  /** A completed or failed row stays exactly as it is, over any run, until it is deleted. */
  lemma {:induction false} FinishedRowsStay(cfg: Config, p: Preview, steps: seq<Step>)
    requires Inv(cfg, p) && p.row.Some? && p.row.value.Terminal() && !LateFailure(p)
    requires Continue(cfg, p, steps).Some?
    ensures var q := Continue(cfg, p, steps).value; Gone(q) || (q.row == p.row && !LateFailure(q))
  {
    if steps != [] {
      var shorter := steps[..|steps| - 1];
      FinishedRowsStay(cfg, p, shorter);
      RunKeeps(cfg, p, shorter);
      var before := Continue(cfg, p, shorter).value;
      GoneStaysGone(cfg, before, steps[|steps| - 1]);
      StepMoves(cfg, before, steps[|steps| - 1]);
      if before.row.Some? {
        NoNewLateFailure(cfg, before, steps[|steps| - 1]);
      }
    }
  }

  /** The condition is exact: a finished row can still change if and only if a late failure is on its way. */
  lemma FinishedRowsStayIff(cfg: Config, p: Preview)
    requires Inv(cfg, p) && p.row.Some? && p.row.value.Terminal()
    ensures LateFailure(p) <==>
              exists step :: Enabled(cfg, p, step) && Apply(cfg, p, step).row.Some? && Apply(cfg, p, step).row != p.row
    ensures LateFailure(p) ==> p.row.value.status.Failed?
  {
    if s :| s in p.sessions && p.sessions[s] == EnqueueFailed(true) {
      assert ActivityOk(cfg, p, p.sessions[s]);
      var step := SubmitFail(s, p.row.value.completedAt.value + 1);
      assert Apply(cfg, p, step).row.value.completedAt != p.row.value.completedAt;
    } else if step :| Enabled(cfg, p, step) && Apply(cfg, p, step).row.Some? && Apply(cfg, p, step).row != p.row {
      FinishedRowsStay(cfg, p, [step]);
    }
  }

  /** So a completed preview is never lost to a later write. */
  lemma CompletedRowsStay(cfg: Config, p: Preview, steps: seq<Step>)
    requires Inv(cfg, p) && p.row.Some? && p.row.value.status.Completed? && Continue(cfg, p, steps).Some?
    ensures var q := Continue(cfg, p, steps).value; Gone(q) || q.row == p.row
  {
    FinishedRowsStayIff(cfg, p);
    FinishedRowsStay(cfg, p, steps);
  }

  // A preview whose submitter rewrites the failure that the callback has already recorded.
  const NO_RETRIES := Config(0, 300)
  const QUEUED := NewRow(0, 100)
  const FAILED := Fail(QUEUED, OPERATIONAL_FAILURE, 3)
  const ONLY_JOB := RqJob(None, Waiting)

  const OVERWRITING: seq<(Step, Preview)> := [
    (SubmitLock(0), Preview(true, None, map[], Some(0), map[0 := Submitting])),
    (SubmitPersist(0, 0, 100), Preview(true, Some(QUEUED), map[], Some(0), map[0 := Persisted])),
    (SubmitEnqueueFails(0, true, 7), Preview(true, Some(QUEUED), map[7 := ONLY_JOB], Some(0),
        map[0 := EnqueueFailed(true)])),
    (Dequeue(1, 7), Preview(true, Some(QUEUED), map[7 := ONLY_JOB.(phase := Started(1))], Some(0),
        map[0 := EnqueueFailed(true), 1 := AwaitLock(7)])),
    (StopBeforeLock(1, true), Preview(true, Some(QUEUED), map[7 := ONLY_JOB.(phase := Started(1))], Some(0),
        map[0 := EnqueueFailed(true), 1 := Finished(7, true)])),
    (Finish(1), Preview(true, Some(QUEUED), map[7 := ONLY_JOB.(phase := Ended)], Some(0),
        map[0 := EnqueueFailed(true)])),
    (Callback(7, 3), Preview(true, Some(FAILED), map[7 := ONLY_JOB.(phase := CalledBack)], Some(0),
        map[0 := EnqueueFailed(true)])),
    (SubmitFail(0, 4), Preview(true, Some(Fail(FAILED, QUEUE_FAILURE, 4)), map[7 := ONLY_JOB.(phase := CalledBack)],
        Some(0), map[0 := Submitted]))]

  function OverwritingSteps(n: nat): seq<Step>
    requires n <= 8
  {
    seq(n, i requires 0 <= i < n => OVERWRITING[i].0)
  }

  lemma OverwritingStep(n: nat)
    requires n < 8
    ensures var p := if n == 0 then NO_PREVIEW else OVERWRITING[n - 1].1;
            Enabled(NO_RETRIES, p, OVERWRITING[n].0) && Apply(NO_RETRIES, p, OVERWRITING[n].0) == OVERWRITING[n].1
  {
  }

  /** A failed row can be rewritten: the run is possible, and ends with another error than the callback's. */
  lemma {:induction false} FailedRowsCanBeRewritten(n: nat)
    requires n <= 8
    ensures Replay(NO_RETRIES, OverwritingSteps(n)) == Some(if n == 0 then NO_PREVIEW else OVERWRITING[n - 1].1)
    ensures OVERWRITING[6].1.row == Some(FAILED) && FAILED.error == Some(OPERATIONAL_FAILURE)
    ensures OVERWRITING[7].1.row.value.error == Some(QUEUE_FAILURE)
  {
    if n > 0 {
      FailedRowsCanBeRewritten(n - 1);
      OverwritingStep(n - 1);
      OneMoreStep(NO_RETRIES, NO_PREVIEW, OverwritingSteps(n - 1), OVERWRITING[n - 1].0, if n == 1 then NO_PREVIEW
          else OVERWRITING[n - 2].1);
      assert OverwritingSteps(n) == OverwritingSteps(n - 1) + [OVERWRITING[n - 1].0];
    }
  }

  // ----- many previews -----

  type System = map<JobId, Preview>

  function StateOf(system: System, id: JobId): Preview {
    if id in system then system[id] else NO_PREVIEW
  }

  /** Where steps of any previews, in any order, lead from a state, if each step can happen in its turn. */
  function SystemContinue(cfg: Config, system: System, steps: seq<(JobId, Step)>): Option<System> {
    if steps == [] then Some(system)
    else
      var before := SystemContinue(cfg, system, steps[..|steps| - 1]);
      var (id, step) := steps[|steps| - 1];
      if before.Some? && Enabled(cfg, StateOf(before.value, id), step)
      then Some(before.value[id := Apply(cfg, StateOf(before.value, id), step)])
      else None
  }

  /** A whole run: from nothing. */
  function SystemReplay(cfg: Config, steps: seq<(JobId, Step)>): Option<System> {
    SystemContinue(cfg, map[], steps)
  }

  /** The steps of one preview. */
  function Own(steps: seq<(JobId, Step)>, id: JobId): seq<Step> {
    if steps == [] then []
    else
      var (last, step) := steps[|steps| - 1];
      Own(steps[..|steps| - 1], id) + if last == id then [step] else []
  }

  /** Each preview is where its own steps alone would have led it. */
  lemma {:induction false} PreviewsAreIndependent(cfg: Config, system: System, steps: seq<(JobId, Step)>, id: JobId)
    requires SystemContinue(cfg, system, steps).Some?
    ensures Continue(cfg, StateOf(system, id), Own(steps, id))
            == Some(StateOf(SystemContinue(cfg, system, steps).value, id))
  {
    if steps != [] {
      var shorter := steps[..|steps| - 1];
      var (last, step) := steps[|steps| - 1];
      PreviewsAreIndependent(cfg, system, shorter, id);
      if last == id {
        assert Own(steps, id)[..|Own(steps, id)| - 1] == Own(shorter, id);
      } else {
        assert Own(steps, id) == Own(shorter, id);
      }
    }
  }

  /** So every law of a run holds for every preview of a running system. */
  lemma SystemKeeps(cfg: Config, steps: seq<(JobId, Step)>, id: JobId)
    requires SystemReplay(cfg, steps).Some?
    ensures Inv(cfg, StateOf(SystemReplay(cfg, steps).value, id))
    ensures Replay(cfg, Own(steps, id)).Some? && Claims(cfg, Own(steps, id)) <= cfg.maxRetries + 1
  {
    PreviewsAreIndependent(cfg, map[], steps, id);
    RunKeeps(cfg, NO_PREVIEW, Own(steps, id));
    RunCounts(cfg, Own(steps, id));
  }

  // ----- runs of runs -----

  lemma {:induction false} ContinueConcat(cfg: Config, p: Preview, a: seq<Step>, b: seq<Step>)
    requires Continue(cfg, p, a).Some?
    ensures Continue(cfg, p, a + b) == Continue(cfg, Continue(cfg, p, a).value, b)
  {
    if b == [] {
      assert a + b == a;
    } else {
      ContinueConcat(cfg, p, a, b[..|b| - 1]);
      assert (a + b)[..|a + b| - 1] == a + b[..|b| - 1];
    }
  }

  lemma OneMoreOf(cfg: Config, system: System, steps: seq<(JobId, Step)>, id: JobId, step: Step, after: System)
    requires SystemContinue(cfg, system, steps) == Some(after) && Enabled(cfg, StateOf(after, id), step)
    ensures SystemContinue(cfg, system, steps + [(id, step)])
            == Some(after[id := Apply(cfg, StateOf(after, id), step)])
  {
    assert (steps + [(id, step)])[..|steps|] == steps;
  }

  /** A run of one preview is a run of the system, in which the other previews stay as they are. */
  lemma {:induction false} RunOfOne(cfg: Config, system: System, before: seq<(JobId, Step)>, mid: System, id: JobId,
                                    steps: seq<Step>)
    returns (all: seq<(JobId, Step)>, after: System)
    requires SystemContinue(cfg, system, before) == Some(mid) && Continue(cfg, StateOf(mid, id), steps).Some?
    ensures SystemContinue(cfg, system, all) == Some(after)
    ensures StateOf(after, id) == Continue(cfg, StateOf(mid, id), steps).value
    ensures forall other :: other != id ==> StateOf(after, other) == StateOf(mid, other)
  {
    if steps == [] {
      all, after := before, mid;
    } else {
      var step := steps[|steps| - 1];
      all, after := RunOfOne(cfg, system, before, mid, id, steps[..|steps| - 1]);
      OneMoreOf(cfg, system, all, id, step, after);
      all, after := all + [(id, step)], after[id := Apply(cfg, StateOf(after, id), step)];
    }
  }
}
