/** Submitting a preview, executing it in the RQ worker, and the failure callback. */
module Worker {
  import opened Wrappers
  import opened JobRow
  import opened JobStore
  import opened PreviewQueue
  import P = Protocol

  /** What can be raised on the way: by the user's strategy, the provider, the database or anything else. */
  datatype Trouble = Rejected(message: string) | ProviderTimeout | ParserError | DatabaseTrouble | Unexpected
  {
    /** RQ may try again. */
    predicate Transient() {
      ProviderTimeout? || DatabaseTrouble?
    }

    function Message(): string {
      match this
      case Rejected(message) => message
      case ParserError => PARSER_FAILURE
      case _ => OPERATIONAL_FAILURE
    }
  }

  const PARSER_FAILURE := "Unable to parse the strategy."

  /** The points of an execution at which something can be raised, in order; the first four updates are 1 to 4. */
  const PARSE := 0
  const PREVIEW := 5
  const LAST_UPDATE := 6
  const COMPLETE := 7
  const NOWHERE := 8

  /**
   What befalls an execution: trouble with its claim, before or after the claim is stored; trouble at one
   later point, before or after that point's write is stored; and trouble with storing the failure.
   */
  datatype Script = Script(
    claim: Option<Trouble>, claimStored: bool, failsAt: nat, trouble: Trouble, stored: bool, persist: Option<Trouble>,
    result: int)
  {
    /** The stage whose progress has been stored when the execution stops. */
    function StageReached(): nat {
      if failsAt == PARSE then 0
      else if failsAt < PREVIEW then if stored then failsAt else failsAt - 1
      else if failsAt == PREVIEW || (failsAt == LAST_UPDATE && !stored) then 4
      else LAST_STAGE
    }

    /** The completing write is stored. */
    predicate Completes() {
      failsAt >= NOWHERE || (failsAt == COMPLETE && stored)
    }

    /** Something other than the provider or the database stops the execution once its completion is stored. */
    predicate FailsAfterCompleting() {
      failsAt == COMPLETE && stored && !trouble.Transient() && persist.None?
    }
  }

  datatype RunEnd = Returned(executed: bool) | RaisedTransient | RaisedUnexpected

  /** Only database trouble with storing a failure is worth a retry. */
  function Unstored(persist: Trouble): RunEnd {
    if persist.DatabaseTrouble? then RaisedTransient else RaisedUnexpected
  }

  /** What trouble with the claim leads to; there is no job yet that could be rejected. */
  function ClaimTroubled(row: Option<Row>, script: Script, endedAt: int): (Option<Row>, RunEnd)
    requires script.claim.Some?
  {
    if script.claim.value.Transient() then (row, RaisedTransient)
    else if !script.claim.value.Unexpected? then (row, RaisedUnexpected)
    else if script.persist.Some? then (row, Unstored(script.persist.value))
    else (P.Synchronised(row, false, OPERATIONAL_FAILURE, endedAt), Returned(true))
  }

  /** How an execution ends that has claimed its row. */
  function Executed(claimed: Row, script: Script, endedAt: int): (Row, RunEnd) {
    var reached := Advance(claimed, script.StageReached());
    var last := if script.Completes() then Complete(reached, script.result, endedAt) else reached;
    if script.failsAt >= NOWHERE then (last, Returned(true))
    else if script.trouble.Transient() then (last, RaisedTransient)
    else if script.persist.Some? then (last, Unstored(script.persist.value))
    else (Fail(last, script.trouble.Message(), endedAt), Returned(true))
  }

  predicate Eligible(row: Option<Row>, allowRunning: bool) {
    row.Some? && Claimable(row.value, allowRunning)
  }

  /** What `run_preview_job` makes of a row, if there is one. */
  function Ran(row: Option<Row>, allowRunning: bool, script: Script, startedAt: int, endedAt: int)
    : (Option<Row>, RunEnd)
  {
    var eligible := Eligible(row, allowRunning);
    if script.claim.Some? then
      ClaimTroubled(if script.claimStored && eligible then Some(Claim(row.value, startedAt)) else row, script, endedAt)
    else if !eligible then (row, Returned(false))
    else
      var (last, end) := Executed(Claim(row.value, startedAt), script, endedAt);
      (Some(last), end)
  }

  function WithRow(rows: map<JobId, StoredJob>, id: JobId, row: Option<Row>): map<JobId, StoredJob>
    requires row.Some? ==> id in rows
  {
    if row.Some? then rows[id := rows[id].(row := row.value)] else rows
  }

  /** One update of the progress; trouble can come before or after it is stored. */
  method Update(store: JobStore, id: JobId, script: Script, point: nat, k: nat) returns (raised: bool)
    requires id in store.rows && k <= LAST_STAGE
    modifies store`rows
    ensures raised <==> script.failsAt == point
    ensures store.rows == if raised && !script.stored then old(store.rows)
                          else WithRow(old(store.rows), id, Some(Advance(old(store.rows)[id].row, k)))
  {
    if script.failsAt == point && !script.stored {
      return true;
    }
    var _ := store.UpdateProgress(id, k);
    return script.failsAt == point;
  }

  /** From the parser to completion; `raised` is whether something stopped it. */
  method Execute(store: JobStore, id: JobId, script: Script, endedAt: int) returns (raised: bool)
    requires id in store.rows
    modifies store`rows
    ensures raised <==> script.failsAt < NOWHERE
    ensures var reached := Advance(old(store.rows)[id].row, script.StageReached());
            store.rows == if script.Completes() then
                            WithRow(old(store.rows), id, Some(Complete(reached, script.result, endedAt)))
                          else if script.StageReached() == 0 then old(store.rows)
                          else WithRow(old(store.rows), id, Some(reached))
  {
    if script.failsAt == PARSE {
      return true;
    }
    raised := Update(store, id, script, 1, 1);
    if raised {
      return;
    }
    raised := Update(store, id, script, 2, 2);
    if raised {
      return;
    }
    raised := Update(store, id, script, 3, 3);
    if raised {
      return;
    }
    raised := Update(store, id, script, 4, 4);
    if raised || script.failsAt == PREVIEW {
      return true;
    }
    raised := Update(store, id, script, LAST_UPDATE, LAST_STAGE);
    if raised || (script.failsAt == COMPLETE && !script.stored) {
      return true;
    }
    var _ := store.CompleteJob(id, script.result, endedAt);
    return script.failsAt == COMPLETE;
  }

  method RunPreviewJob(store: JobStore, id: JobId, allowRunning: bool, script: Script, startedAt: int, endedAt: int)
    returns (end: RunEnd)
    modifies store`rows
    ensures var (row, ended) := Ran(old(RowOf(store.rows, id)), allowRunning, script, startedAt, endedAt);
            store.rows == WithRow(old(store.rows), id, row) && end == ended
  {
    if script.claim.Some? {
      if script.claimStored {
        var _ := store.ClaimJob(id, allowRunning, startedAt);
      }
      if script.claim.value.Transient() {
        return RaisedTransient;
      }
      if !script.claim.value.Unexpected? {
        return RaisedUnexpected;
      }
      if script.persist.Some? {
        return Unstored(script.persist.value);
      }
      var _ := store.TransitionAfterOperationalFailure(id, false, OPERATIONAL_FAILURE, endedAt);
      return Returned(true);
    }
    var job := store.ClaimJob(id, allowRunning, startedAt);
    if job.None? {
      return Returned(false);
    }
    var raised := Execute(store, id, script, endedAt);
    if !raised {
      return Returned(true);
    }
    if script.trouble.Transient() {
      return RaisedTransient;
    }
    if script.persist.Some? {
      return Unstored(script.persist.value);
    }
    var _ := store.FailJob(id, script.trouble.Message(), endedAt);
    return Returned(true);
  }

  // ----- the job function and its failure callback -----

  /**
   Trouble before the lock is taken, or between the lock and the execution; then the execution; then trouble with
   recording an unexpected end.
   */
  datatype JobCall = JobCall(
    before: Option<Trouble>, between: Option<Trouble>, run: Script, lastResort: Option<Trouble>)

  /** An end that nothing else has recorded becomes a failure, if even that can be stored. */
  function Recorded(row: Option<Row>, lastResort: Option<Trouble>, now: int): (Option<Row>, bool) {
    if lastResort.None? then (P.Synchronised(row, false, OPERATIONAL_FAILURE, now), false)
    else (row, lastResort.value.DatabaseTrouble?)
  }

  /** Trouble outside the execution: RQ may try again after database trouble, anything else ends the job. */
  function Interrupted(row: Option<Row>, trouble: Trouble, lastResort: Option<Trouble>, now: int): (Option<Row>, bool) {
    if trouble.DatabaseTrouble? then (row, true) else Recorded(row, lastResort, now)
  }

  predicate AllowRunningRetry(retriesLeft: Option<nat>, maxRetries: nat) {
    retriesLeft.Some? && retriesLeft.value < maxRetries
  }

  /** What the job function makes of a row, if there is one, and whether it raises to RQ. */
  function Processed(row: Option<Row>, lockable: bool, allowRunning: bool, call: JobCall, startedAt: int, endedAt: int)
    : (Option<Row>, bool)
  {
    if call.before.Some? then Interrupted(row, call.before.value, call.lastResort, endedAt)
    else if !lockable then (row, false)
    else if call.between.Some? then Interrupted(row, call.between.value, call.lastResort, endedAt)
    else
      var (reached, end) := Ran(row, allowRunning, call.run, startedAt, endedAt);
      match end
      case Returned(_) => (reached, false)
      case RaisedTransient => (reached, true)
      case RaisedUnexpected => Recorded(reached, call.lastResort, endedAt)
  }

  method RecordUnexpectedEnd(store: JobStore, id: JobId, lastResort: Option<Trouble>, now: int) returns (raised: bool)
    modifies store`rows
    ensures var (row, raises) := Recorded(old(RowOf(store.rows, id)), lastResort, now);
            store.rows == WithRow(old(store.rows), id, row) && raised == raises
  {
    if lastResort.None? {
      var _ := store.TransitionAfterOperationalFailure(id, false, OPERATIONAL_FAILURE, now);
      return false;
    }
    return lastResort.value.DatabaseTrouble?;
  }

  method ProcessPreviewJob(store: JobStore, session: SessionId, id: JobId, retriesLeft: Option<nat>, maxRetries: nat,
                           call: JobCall, startedAt: int, endedAt: int)
    returns (raised: bool)
    modifies store`rows, store`locks
    ensures store.locks == old(store.locks)
    ensures var (row, raises) := Processed(old(RowOf(store.rows, id)), old(store.Lockable(session, id)),
                                           AllowRunningRetry(retriesLeft, maxRetries), call, startedAt, endedAt);
            store.rows == WithRow(old(store.rows), id, row) && raised == raises
  {
    if call.before.Some? {
      raised := true;
      if !call.before.value.DatabaseTrouble? {
        raised := RecordUnexpectedEnd(store, id, call.lastResort, endedAt);
      }
      return;
    }
    var acquired := store.TryAcquirePreviewJobLock(session, id);
    if !acquired {
      return false;
    }
    var unexpected;
    if call.between.Some? {
      raised, unexpected := true, !call.between.value.DatabaseTrouble?;
    } else {
      var end := RunPreviewJob(store, id, AllowRunningRetry(retriesLeft, maxRetries), call.run, startedAt, endedAt);
      raised, unexpected := end.RaisedTransient?, end.RaisedUnexpected?;
    }
    if unexpected {
      raised := RecordUnexpectedEnd(store, id, call.lastResort, endedAt);
    }
    store.ReleasePreviewJobLock(session, id);
    assert store.locks == old(store.locks);
  }

  method HandlePreviewJobFailure(store: JobStore, id: JobId, retriesLeft: Option<nat>, now: int) returns (changed: bool)
    modifies store`rows
    ensures changed <==> Nonterminal(old(store.rows), id)
    ensures changed ==> id in store.rows && store.rows[id].row.status == if retriesLeft.Some?
        && retriesLeft.value > 0 then Queued else Failed
    ensures store.rows == if id in old(store.rows)
                          then WithRow(old(store.rows), id, Some(AfterFailure(old(store.rows)[id].row,
                                 retriesLeft.Some? && retriesLeft.value > 0, OPERATIONAL_FAILURE, now)))
                          else old(store.rows)
  {
    var retries := if retriesLeft.Some? then retriesLeft.value else 0;
    changed := store.TransitionAfterOperationalFailure(id, retries > 0, OPERATIONAL_FAILURE, now);
  }

  // ----- submitting -----

  /** What becomes of handing a job to RQ: an error may hide that the job has arrived. */
  datatype Handover = Delivered | RaisedAfterDelivery | RaisedBeforeDelivery

  /** The queue before and after handing over a job with every retry that there is. */
  predicate Delivered(queued: seq<RqId>, jobs: map<RqId, RqCall>, queued': seq<RqId>, jobs': map<RqId, RqCall>,
                      id: JobId, rq: RqId, intervals: seq<nat>, maxRetries: nat, delivered: bool)
  {
    if !delivered then queued' == queued && jobs' == jobs
    else
      && queued' == queued + [rq]
      && jobs' == jobs[rq := RqCall(true, Uuid(id), PolicyFor(intervals, maxRetries))]
  }

  /** Persists first, then enqueues; records a failure to enqueue if it can. */
  method StoreAndEnqueue(store: JobStore, queue: RqPreviewQueue, id: JobId, userId: JobId, strategyText: string,
                         strategyName: Option<string>, ttlHours: nat, handover: Handover, failureStored: bool, rq: RqId,
                         now: int, failedAt: int)
    returns (submitted: bool)
    requires rq !in queue.jobs
    modifies store`rows, queue`queued, queue`jobs
    ensures submitted <==> id !in old(store.rows) && handover.Delivered?
    ensures id in old(store.rows) ==>
              store.rows == old(store.rows) && queue.queued == old(queue.queued) && queue.jobs == old(queue.jobs)
    ensures id !in old(store.rows) ==>
              && store.rows == old(store.rows)[id := Submitted(userId, strategyText, strategyName, ttlHours,
                  submitted || !failureStored, now, failedAt)]
              && queue.LivePreviews()
                 == old(queue.LivePreviews()) + (if handover.RaisedBeforeDelivery? then {} else {id})
              && Delivered(old(queue.queued), old(queue.jobs), queue.queued, queue.jobs, id, rq, queue.retryIntervals,
                           queue.maxRetries, !handover.RaisedBeforeDelivery?)
    ensures old(queue.AtMostOneEach()) && id !in old(queue.LivePreviews()) ==> queue.AtMostOneEach()
  {
    var created := store.CreateJob(id, userId, strategyText, strategyName, ttlHours, now);
    if !created {
      return false;
    }
    if !handover.RaisedBeforeDelivery? {
      queue.Enqueue(rq, id);
    }
    submitted := handover.Delivered?;
    if !submitted && failureStored {
      var _ := store.FailJob(id, QUEUE_FAILURE, failedAt);
    }
  }

  /** The row of a submission: queued, or failed if its enqueue raised and that could be stored. */
  function Submitted(userId: JobId, strategyText: string, strategyName: Option<string>, ttlHours: nat, asQueued: bool,
                     now: int, failedAt: int): StoredJob
  {
    var row := NewRow(now, ttlHours * MICROS_PER_HOUR);
    StoredJob(userId, strategyText, strategyName, if asQueued then row else Fail(row, QUEUE_FAILURE, failedAt))
  }

  method SubmitPreviewJob(store: JobStore, queue: RqPreviewQueue, session: SessionId, id: JobId, userId: JobId,
                          strategyText: string, strategyName: Option<string>, ttlHours: nat,
                          handover: Handover, failureStored: bool, rq: RqId, now: int, failedAt: int)
    returns (submitted: bool)
    requires rq !in queue.jobs
    modifies store`rows, store`locks, queue`queued, queue`jobs
    ensures store.locks == old(store.locks)
    ensures submitted <==> old(store.Lockable(session, id)) && id !in old(store.rows) && handover.Delivered?
    ensures !(old(store.Lockable(session, id)) && id !in old(store.rows)) ==>
              store.rows == old(store.rows) && queue.queued == old(queue.queued) && queue.jobs == old(queue.jobs)
    ensures old(store.Lockable(session, id)) && id !in old(store.rows) ==>
              && store.rows == old(store.rows)[id := Submitted(userId, strategyText, strategyName, ttlHours,
                  submitted || !failureStored, now, failedAt)]
              && queue.LivePreviews()
                 == old(queue.LivePreviews()) + (if handover.RaisedBeforeDelivery? then {} else {id})
              && Delivered(old(queue.queued), old(queue.jobs), queue.queued, queue.jobs, id, rq, queue.retryIntervals,
                           queue.maxRetries, !handover.RaisedBeforeDelivery?)
    ensures old(queue.AtMostOneEach()) && id !in old(queue.LivePreviews()) ==> queue.AtMostOneEach()
  {
    var acquired := store.TryAcquirePreviewJobLock(session, id);
    if !acquired {
      return false;
    }
    submitted := StoreAndEnqueue(store, queue, id, userId, strategyText, strategyName, ttlHours, handover,
        failureStored, rq, now, failedAt);
    store.ReleasePreviewJobLock(session, id);
    assert store.locks == old(store.locks);
  }
}
