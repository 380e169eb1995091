/** What one call of the job function comes to, trouble by trouble, and what one callback and one submission do. */
module CallLaws {
  import opened Wrappers
  import opened JobRow
  import opened PreviewQueue
  import opened Worker
  import opened WorkerLaws
  import opened ProtocolLaws
  import JobStore
  import P = Protocol

  // ----- rows, written out -----

  /** The stage shown when an execution stops at a point, before or after that point's write is stored. */
  function Shown(failsAt: nat, stored: bool): (Stage, nat)
    requires failsAt <= COMPLETE
  {
    match failsAt
    case 0 => (Parsing, 20)
    case 1 => if stored then (Validating, 35) else (Parsing, 20)
    case 2 => if stored then (CompilingStage, 50) else (Validating, 35)
    case 3 => if stored then (LoadingData, 70) else (CompilingStage, 50)
    case 4 => if stored then (Backtesting, 85) else (LoadingData, 70)
    case 5 => (Backtesting, 85)
    case 6 => if stored then (GeneratingResults, 95) else (Backtesting, 85)
    case _ => (GeneratingResults, 95)
  }

  /** A claimed row that shows a stage. */
  function RunningRow(row: Row, shown: (Stage, nat), startedAt: int): Row {
    row.(status := Running, stage := shown.0, progress := shown.1, startedAt := Some(startedAt), completedAt := None,
         error := None, attempts := row.attempts + 1)
  }

  function CompletedRow(row: Row, result: int, startedAt: int, endedAt: int): Row {
    row.(status := Completed, stage := CompletedStage, progress := 100, startedAt := Some(startedAt),
         completedAt := Some(endedAt), error := None, attempts := row.attempts + 1, result := Some(result))
  }

  function FailedRow(row: Row, error: string, endedAt: int): Row {
    row.(status := Failed, stage := FailedStage, progress := 100, error := Some(error), completedAt := Some(endedAt))
  }

  /** The message that a user gets to see. */
  function TextOf(trouble: Trouble): string {
    match trouble
    case Rejected(message) => message
    case ParserError => "Unable to parse the strategy."
    case _ => "Unable to complete the strategy preview."
  }

  /** It is worth another try: the provider was too slow, or the database out of reach. */
  predicate Retryable(trouble: Trouble) {
    trouble == ProviderTimeout || trouble == DatabaseTrouble
  }

  /** It stops at a point, with its completion not stored. */
  predicate Stops(script: Script) {
    script.failsAt < COMPLETE || (script.failsAt == COMPLETE && !script.stored)
  }

  // ----- the execution -----

  /** Without trouble the row completes with its result, and the call returns. */
  lemma QuietCallCompletes(row: Row, allowRunning: bool, call: JobCall, startedAt: int, endedAt: int)
    requires Executes(row, true, allowRunning, call) && call.run.failsAt > COMPLETE
    ensures Ran(Some(row), allowRunning, call.run, startedAt, endedAt)
            == (Some(CompletedRow(row, call.run.result, startedAt, endedAt)), Returned(true))
    ensures Processed(Some(row), true, allowRunning, call, startedAt, endedAt)
            == (Some(CompletedRow(row, call.run.result, startedAt, endedAt)), false)
  {
  }

  /** Trouble that is worth another try reaches RQ, and leaves the row running, without an error. */
  lemma RetryableTroubleRaises(row: Row, allowRunning: bool, call: JobCall, startedAt: int, endedAt: int)
    requires Executes(row, true, allowRunning, call) && Stops(call.run) && Retryable(call.run.trouble)
    ensures var next := Some(RunningRow(row, Shown(call.run.failsAt, call.run.stored), startedAt));
            && Ran(Some(row), allowRunning, call.run, startedAt, endedAt) == (next, RaisedTransient)
            && Processed(Some(row), true, allowRunning, call, startedAt, endedAt) == (next, true)
  {
  }

  /** Any other trouble fails the row with its message, if that can be stored, and RQ does not hear of it. */
  lemma OtherTroubleFails(row: Row, allowRunning: bool, call: JobCall, startedAt: int, endedAt: int)
    requires Executes(row, true, allowRunning, call) && Stops(call.run) && !Retryable(call.run.trouble)
    requires call.run.persist.None?
    ensures var running := RunningRow(row, Shown(call.run.failsAt, call.run.stored), startedAt);
            var next := Some(FailedRow(running, TextOf(call.run.trouble), endedAt));
            && Ran(Some(row), allowRunning, call.run, startedAt, endedAt) == (next, Returned(true))
            && Processed(Some(row), true, allowRunning, call, startedAt, endedAt) == (next, false)
  {
  }

  /** The last resort: a failure with the general message, if it can be stored, and a retry for database trouble. */
  function LastResortOf(row: Row, lastResort: Option<Trouble>, endedAt: int): (Option<Row>, bool) {
    if lastResort == Some(DatabaseTrouble) then (Some(row), true)
    else if lastResort.Some? || row.status.Completed? || row.status.Failed? then (Some(row), false)
    else (Some(FailedRow(row, "Unable to complete the strategy preview.", endedAt)), false)
  }

  /** When the failure cannot be stored: a retry if the database is out of reach, and otherwise the last resort. */
  lemma UnstoredFailure(row: Row, allowRunning: bool, call: JobCall, startedAt: int, endedAt: int)
    requires Executes(row, true, allowRunning, call) && Stops(call.run) && !Retryable(call.run.trouble)
    requires call.run.persist.Some?
    ensures var running := RunningRow(row, Shown(call.run.failsAt, call.run.stored), startedAt);
            Processed(Some(row), true, allowRunning, call, startedAt, endedAt)
            == if call.run.persist == Some(DatabaseTrouble) then (Some(running), true)
               else LastResortOf(running, call.lastResort, endedAt)
  {
  }

  // ----- before the execution -----

  /** Trouble with the claim itself: there is no job yet that could be rejected. */
  lemma TroubledClaim(row: Row, allowRunning: bool, call: JobCall, startedAt: int, endedAt: int)
    requires call.before.None? && call.between.None? && call.run.claim.Some?
    ensures var claimed := call.run.claimStored && (row.status.Queued? || (allowRunning && row.status.Running?));
            var found := if claimed then RunningRow(row, (Parsing, 20), startedAt) else row;
            Processed(Some(row), true, allowRunning, call, startedAt, endedAt)
            == if Retryable(call.run.claim.value) then (Some(found), true)
               else if call.run.claim != Some(Unexpected) then LastResortOf(found, call.lastResort, endedAt)
               else if call.run.persist == Some(DatabaseTrouble) then (Some(found), true)
               else if call.run.persist.Some? then LastResortOf(found, call.lastResort, endedAt)
               else LastResortOf(found, None, endedAt)
  {
  }

  /** Trouble before the lock, or between the lock and the execution. */
  lemma OutsideTrouble(row: Row, lockable: bool, allowRunning: bool, call: JobCall, startedAt: int, endedAt: int)
    requires call.before.Some? || (lockable && call.between.Some?)
    ensures var trouble := if call.before.Some? then call.before.value else call.between.value;
            Processed(Some(row), lockable, allowRunning, call, startedAt, endedAt)
            == if trouble == DatabaseTrouble then (Some(row), true) else LastResortOf(row, call.lastResort, endedAt)
  {
  }

  /** A call that finds the lock held, or a row that is not for it, does nothing and returns. */
  lemma IneligibleCall(row: Option<Row>, lockable: bool, allowRunning: bool, call: JobCall, startedAt: int,
                       endedAt: int)
    requires call.before.None?
    requires !lockable || (call.between.None? && call.run.claim.None?
                           && (row.None? || row.value.status.Completed? || row.value.status.Failed?
                               || (row.value.status.Running? && !allowRunning)))
    ensures Processed(row, lockable, allowRunning, call, startedAt, endedAt) == (row, false)
  {
  }

  // ----- retries and the failure callback -----

  /** The worker and the protocol agree on which executions may take over a running row. */
  lemma TakeOversAgree(cfg: P.Config, job: P.RqJob)
    ensures AllowRunningRetry(job.retriesLeft, cfg.maxRetries) <==> P.AllowRunning(cfg, job)
    ensures AllowRunningRetry(job.retriesLeft, cfg.maxRetries)
            <==> exists left: nat :: job.retriesLeft == Some(left) && left < cfg.maxRetries
  {
  }

  /** The callback's write is the protocol's step, and returns a row to the queue exactly when retries are left. */
  lemma CallbackIsStep(cfg: P.Config, p: P.Preview, rq: P.RqId, row: Row, now: int)
    requires rq in p.live && p.live[rq].phase.Ended? && p.row == Some(row)
    ensures P.Enabled(cfg, p, P.Callback(rq, now))
    ensures var left := p.live[rq].retriesLeft;
            P.Apply(cfg, p, P.Callback(rq, now)).row
            == Some(if row.status.Completed? || row.status.Failed? then row
                    else if left.Some? && left.value > 0 then
                      row.(status := Queued, stage := QueuedStage, progress := 5, startedAt := None,
                           completedAt := None, error := None)
                    else FailedRow(row, "Unable to complete the strategy preview.", now))
  {
  }

  // ----- a submission -----

  /** How often RQ will retry what a submitter enqueues. */
  function SubmittedJob(intervals: seq<nat>, maxRetries: nat): P.RqJob {
    var policy := PolicyFor(intervals, maxRetries);
    P.RqJob(if policy.Some? then Some(policy.value.max) else None, P.Waiting)
  }

  /** A submission under its lock, as steps of the protocol. */
  function SubmissionSteps(s: P.SessionId, handover: Handover, failureStored: bool, rq: P.RqId, now: int, ttl: nat,
                           failedAt: int): seq<P.Step>
  {
    [P.SubmitLock(s)] + [P.SubmitPersist(s, now, ttl)]
    + [if handover.Delivered? then P.SubmitEnqueue(s, rq)
       else P.SubmitEnqueueFails(s, handover.RaisedAfterDelivery?, rq)]
    + (if !handover.Delivered? && failureStored then [P.SubmitFail(s, failedAt)] else [])
    + [P.SubmitRelease(s)]
  }

  function SubmittedPreview(row: Row, live: map<P.RqId, P.RqJob>, s: P.SessionId, activity: P.Activity): P.Preview {
    P.Preview(true, Some(row), live, Some(s), map[s := activity])
  }

  lemma PersistingIsRun(cfg: P.Config, s: P.SessionId, now: int, ttl: nat)
    ensures Replay(cfg, [P.SubmitLock(s)] + [P.SubmitPersist(s, now, ttl)])
            == Some(SubmittedPreview(NewRow(now, ttl), map[], s, P.Persisted))
  {
    var locked := P.Preview(true, None, map[], Some(s), map[s := P.Submitting]);
    OneMoreStep(cfg, P.NO_PREVIEW, [], P.SubmitLock(s), P.NO_PREVIEW);
    assert [] + [P.SubmitLock(s)] == [P.SubmitLock(s)];
    assert P.Apply(cfg, P.NO_PREVIEW, P.SubmitLock(s)) == locked;
    OneMoreStep(cfg, P.NO_PREVIEW, [P.SubmitLock(s)], P.SubmitPersist(s, now, ttl), locked);
    assert locked.sessions[s := P.Persisted] == map[s := P.Persisted];
  }

  lemma HandingOverIsRun(cfg: P.Config, s: P.SessionId, handover: Handover, rq: P.RqId, row: Row,
                         steps: seq<P.Step>, intervals: seq<nat>)
    requires Replay(cfg, steps) == Some(SubmittedPreview(row, map[], s, P.Persisted))
    ensures var step := if handover.Delivered? then P.SubmitEnqueue(s, rq)
                        else P.SubmitEnqueueFails(s, handover.RaisedAfterDelivery?, rq);
            var live := if handover.RaisedBeforeDelivery? then map[]
                        else map[rq := SubmittedJob(intervals, cfg.maxRetries)];
            Replay(cfg, steps + [step])
            == Some(SubmittedPreview(row, live, s, if handover.Delivered? then P.Submitted
                                                   else P.EnqueueFailed(handover.RaisedAfterDelivery?)))
  {
    var step := if handover.Delivered? then P.SubmitEnqueue(s, rq)
                else P.SubmitEnqueueFails(s, handover.RaisedAfterDelivery?, rq);
    var p := SubmittedPreview(row, map[], s, P.Persisted);
    var activity := if handover.Delivered? then P.Submitted else P.EnqueueFailed(handover.RaisedAfterDelivery?);
    OneMoreStep(cfg, P.NO_PREVIEW, steps, step, p);
    assert p.sessions[s := activity] == map[s := activity];
    assert p.live[rq := P.NewRqJob(cfg.maxRetries)] == map[rq := P.NewRqJob(cfg.maxRetries)];
  }

  lemma FailingIsRun(cfg: P.Config, s: P.SessionId, row: Row, live: map<P.RqId, P.RqJob>, delivered: bool,
                     steps: seq<P.Step>, failedAt: int)
    requires Replay(cfg, steps) == Some(SubmittedPreview(row, live, s, P.EnqueueFailed(delivered)))
    ensures Replay(cfg, steps + [P.SubmitFail(s, failedAt)])
            == Some(SubmittedPreview(Fail(row, QUEUE_FAILURE, failedAt), live, s, P.Submitted))
  {
    var p := SubmittedPreview(row, live, s, P.EnqueueFailed(delivered));
    OneMoreStep(cfg, P.NO_PREVIEW, steps, P.SubmitFail(s, failedAt), p);
    assert p.sessions[s := P.Submitted] == map[s := P.Submitted];
  }

  lemma LettingGoIsRun(cfg: P.Config, s: P.SessionId, row: Row, live: map<P.RqId, P.RqJob>, activity: P.Activity,
                       steps: seq<P.Step>)
    requires activity.Submits() && Replay(cfg, steps) == Some(SubmittedPreview(row, live, s, activity))
    ensures Replay(cfg, steps + [P.SubmitRelease(s)]) == Some(P.Preview(true, Some(row), live, None, map[]))
  {
    var p := SubmittedPreview(row, live, s, activity);
    OneMoreStep(cfg, P.NO_PREVIEW, steps, P.SubmitRelease(s), p);
    assert p.sessions - {s} == map[];
  }

  /**
   A submission of a new id is a run of the protocol: it ends with the row that the program stores, and with the RQ
   job that it enqueues, if that has arrived, with every retry that there is.
   */
  lemma SubmissionIsRun(cfg: P.Config, s: P.SessionId, userId: JobId, strategyText: string,
                        strategyName: Option<string>, ttlHours: nat, handover: Handover, failureStored: bool,
                        rq: P.RqId, intervals: seq<nat>, now: int, failedAt: int)
    ensures var ttl := ttlHours * JobStore.MICROS_PER_HOUR;
            var stored := Submitted(userId, strategyText, strategyName, ttlHours,
                                    handover.Delivered? || !failureStored, now, failedAt);
            Replay(cfg, SubmissionSteps(s, handover, failureStored, rq, now, ttl, failedAt))
            == Some(P.Preview(true, Some(stored.row),
                              if handover.RaisedBeforeDelivery? then map[]
                              else map[rq := SubmittedJob(intervals, cfg.maxRetries)],
                              None, map[]))
    ensures var stored := Submitted(userId, strategyText, strategyName, ttlHours,
                                    handover.Delivered? || !failureStored, now, failedAt);
            var queued := Row(Queued, QueuedStage, 5, 0, now, None, None, None, None, now + ttlHours * 3_600_000_000);
            stored == JobStore.StoredJob(userId, strategyText, strategyName,
                        if handover.Delivered? || !failureStored then queued
                        else FailedRow(queued, "Unable to queue the strategy preview.", failedAt))
  {
    var ttl := ttlHours * JobStore.MICROS_PER_HOUR;
    var row := NewRow(now, ttl);
    var steps := [P.SubmitLock(s)] + [P.SubmitPersist(s, now, ttl)];
    var step := if handover.Delivered? then P.SubmitEnqueue(s, rq)
                else P.SubmitEnqueueFails(s, handover.RaisedAfterDelivery?, rq);
    var live := if handover.RaisedBeforeDelivery? then map[] else map[rq := SubmittedJob(intervals, cfg.maxRetries)];
    PersistingIsRun(cfg, s, now, ttl);
    HandingOverIsRun(cfg, s, handover, rq, row, steps, intervals);
    if handover.Delivered? {
      LettingGoIsRun(cfg, s, row, live, P.Submitted, steps + [step]);
      assert steps + [step] + [] == steps + [step];
    } else if failureStored {
      FailingIsRun(cfg, s, row, live, handover.RaisedAfterDelivery?, steps + [step], failedAt);
      LettingGoIsRun(cfg, s, Fail(row, QUEUE_FAILURE, failedAt), live, P.Submitted,
                     steps + [step] + [P.SubmitFail(s, failedAt)]);
    } else {
      LettingGoIsRun(cfg, s, row, live, P.EnqueueFailed(handover.RaisedAfterDelivery?), steps + [step]);
      assert steps + [step] + [] == steps + [step];
    }
  }
}
