/** One durable preview row and the writes that the job store makes to it. */
module JobRow {
  import opened Wrappers

  const TWO_TO_THE_128 := 0x1_0000_0000_0000_0000_0000_0000_0000_0000

  /** A UUID, as its integer. */
  type JobId = n: int | 0 <= n < TWO_TO_THE_128

  datatype Status = Queued | Running | Completed | Failed

  datatype Stage =
    | QueuedStage
    | Parsing | Validating | CompilingStage | LoadingData | Backtesting | GeneratingResults
    | CompletedStage | FailedStage

  // A stored result is only ever copied, so a number stands for its content.
  datatype Row = Row(
    status: Status,
    stage: Stage,
    progress: nat,
    attempts: nat,
    createdAt: int,
    startedAt: Option<int>,
    completedAt: Option<int>,
    error: Option<string>,
    result: Option<int>,
    expiresAt: int)
  {
    predicate Terminal() {
      status.Completed? || status.Failed?
    }
  }

  const OPERATIONAL_FAILURE := "Unable to complete the strategy preview."
  const RECOVERY_FAILURE := "Unable to recover the strategy preview. Run the preview again."
  const QUEUE_FAILURE := "Unable to queue the strategy preview."

  /** The running stages in order, with the progress each one shows. */
  const LAST_STAGE := 5

  function StageAt(k: nat): (Stage, nat)
    requires k <= LAST_STAGE
  {
    [(Parsing, 20), (Validating, 35), (CompilingStage, 50), (LoadingData, 70), (Backtesting, 85),
        (GeneratingResults, 95)][k]
  }

  function NewRow(now: int, ttl: nat): Row {
    Row(Queued, QueuedStage, 5, 0, now, None, None, None, None, now + ttl)
  }

  predicate Claimable(row: Row, allowRunning: bool) {
    row.status.Queued? || (allowRunning && row.status.Running?)
  }

  function Claim(row: Row, now: int): Row {
    row.(status := Running, stage := StageAt(0).0, progress := StageAt(0).1, startedAt := Some(now),
         completedAt := None, error := None, attempts := row.attempts + 1)
  }

  function Advance(row: Row, k: nat): Row
    requires k <= LAST_STAGE
  {
    row.(stage := StageAt(k).0, progress := StageAt(k).1)
  }

  function Complete(row: Row, result: int, now: int): Row {
    row.(status := Completed, stage := CompletedStage, progress := 100, result := Some(result),
        completedAt := Some(now))
  }

  function Fail(row: Row, error: string, now: int): Row {
    row.(status := Failed, stage := FailedStage, progress := 100, error := Some(error), completedAt := Some(now))
  }

  /** The guarded update after an operational failure: only queued and running rows change. */
  function AfterFailure(row: Row, willRetry: bool, error: string, now: int): Row {
    if row.Terminal() then row
    else if willRetry then
      row.(status := Queued, stage := QueuedStage, progress := 5, startedAt := None, completedAt := None, error := None)
    else Fail(row, error, now)
  }

  // ----- what a reader of a row may rely on -----

  predicate RunningAt(row: Row, k: nat)
    requires k <= LAST_STAGE
  {
    row.status.Running? && row.stage == StageAt(k).0 && row.progress == StageAt(k).1
  }

  /** What a running row may show. */
  predicate ShowsProgress(row: Row) {
    match row.stage
    case Parsing => row.progress == 20
    case Validating => row.progress == 35
    case CompilingStage => row.progress == 50
    case LoadingData => row.progress == 70
    case Backtesting => row.progress == 85
    case GeneratingResults => row.progress == 95
    case _ => false
  }

  /** Status, stage, progress, times, error and result agree with one another. */
  predicate Consistent(row: Row) {
    match row.status
    case Queued =>
      && row.stage.QueuedStage? && row.progress == 5
      && row.startedAt.None? && row.completedAt.None? && row.error.None? && row.result.None?
    case Running =>
      && (exists k: nat :: k <= LAST_STAGE && RunningAt(row, k)) && ShowsProgress(row) && row.attempts > 0
      && row.startedAt.Some? && row.completedAt.None? && row.error.None? && row.result.None?
    case Completed =>
      && row.stage.CompletedStage? && row.progress == 100 && row.attempts > 0
      && row.startedAt.Some? && row.completedAt.Some? && row.error.None? && row.result.Some?
    case Failed =>
      && row.stage.FailedStage? && row.progress == 100
      && row.completedAt.Some? && row.error.Some? && row.result.None?
  }

  /** The writes keep a row consistent, each under the condition its caller has established. */
  lemma WritesAreConsistent(row: Row, k: nat, error: string, result: int, willRetry: bool, now: int, ttl: nat)
    requires Consistent(row)
    ensures Consistent(NewRow(now, ttl))
    ensures !row.Terminal() ==> Consistent(Claim(row, now)) && RunningAt(Claim(row, now), 0)
    ensures row.status.Running? && k <= LAST_STAGE ==> Consistent(Advance(row, k)) && RunningAt(Advance(row, k), k)
    ensures row.status.Running? ==> Consistent(Complete(row, result, now))
    ensures !row.status.Completed? ==> Consistent(Fail(row, error, now))
    ensures Consistent(AfterFailure(row, willRetry, error, now))
  {
    assert RunningAt(Claim(row, now), 0);
    if k <= LAST_STAGE && row.status.Running? {
      assert RunningAt(Advance(row, k), k);
    }
  }

  /** The unguarded writes are wrong for a row in any other state, which is why they need the lock. */
  lemma UnguardedWritesNeedTheLock(row: Row, error: string, result: int, now: int)
    requires Consistent(row)
    ensures Consistent(Complete(row, result, now)) <==> row.status.Running? || row.status.Completed?
    ensures Consistent(Fail(row, error, now)) <==> !row.status.Completed?
  {
  }
}
