/** One bounded reconciliation of the durable rows with RQ. */
module Reconciler {
  import opened Wrappers
  import opened JobRow
  import opened JobStore
  import opened PreviewQueue
  import P = Protocol

  // ----- what happens to one row -----

  /**
   What becomes of a candidate. `Overtaken` is a row to be given up that somebody else has finished, or deleted,
   just before: nothing is written, and nothing is counted.
   */
  datatype Outcome =
    | FoundActive | AwaitsStaleness | LockHeld | AlreadyFinished | GivenUp | Recovered | Overtaken

  datatype Summary = Summary(
    scanned: nat, active: nat, recovered: nat, failed: nat, locked: nat, notStale: nat, stateChanged: nat)

  /** A running row that nothing speaks against: its execution may still be on its way. */
  predicate Waits(cfg: P.Config, row: Row, now: int) {
    row.status.Running? && !P.Stale(cfg, row, now) && !P.Exhausted(cfg, row) && !P.Expired(row, now)
  }

  /**
   What the loop's body gets to see of a candidate, one look after the other: the row as listed, the live previews
   known so far, whether its lock is free, the row as refreshed under the lock, the live previews then, and the row
   as the writes find it. `None` for a row that is gone, and for a scan that raises.
   */
  datatype Looks = Looks(
    seen: Row, known: set<JobId>, lockable: bool, refreshed: Option<Row>, live: Option<set<JobId>>,
    current: Option<Row>)

  /** What is done about a refreshed row without a live job; `None` if it is gone before it can be refreshed again. */
  function Act(cfg: P.Config, now: int, refreshed: Row, current: Option<Row>): Option<Outcome> {
    if P.Exhausted(cfg, refreshed) || P.Expired(refreshed, now) then
      Some(if current.Some? && !current.value.Terminal() then GivenUp else Overtaken)
    else if refreshed.status.Running? && !P.Stale(cfg, refreshed, now) then Some(AwaitsStaleness)
    else if refreshed.status.Running? && current.None? then None
    else Some(Recovered)
  }

  /** What follows once the lock is held. */
  function DecideLocked(cfg: P.Config, now: int, id: JobId, refreshed: Option<Row>, live: Option<set<JobId>>,
                        current: Option<Row>): Option<Outcome>
  {
    if refreshed.None? then None
    else if refreshed.value.Terminal() then Some(AlreadyFinished)
    else if live.None? then None
    else if id in live.value then Some(FoundActive)
    else Act(cfg, now, refreshed.value, current)
  }

  /** The outcome for a candidate; `None` if the loop's body raises. */
  function Decide(cfg: P.Config, now: int, id: JobId, looks: Looks): Option<Outcome> {
    if id in looks.known then Some(FoundActive)
    else if Waits(cfg, looks.seen, now) then Some(AwaitsStaleness)
    else if !looks.lockable then Some(LockHeld)
    else DecideLocked(cfg, now, id, looks.refreshed, looks.live, looks.current)
  }

  function RowAfter(outcome: Outcome, row: Row, clock: int): Row {
    match outcome
    case GivenUp => Fail(row, RECOVERY_FAILURE, clock)
    case Recovered => if row.status.Running? then AfterFailure(row, true, OPERATIONAL_FAILURE, clock) else row
    case _ => row
  }

  /** What the queue is asked to run for a preview with that many attempts made. */
  function RecoveryCall(cfg: P.Config, intervals: seq<nat>, id: JobId, attempts: nat): RqCall {
    RqCall(true, Uuid(id), PolicyFor(intervals, cfg.maxRetries - attempts))
  }

  const ROW_GONE := "The row was deleted before it could be refreshed."

  /** Rows, queue, live previews, and the previews whose lock the reconciler could take. */
  datatype Moment = Moment(
    rows: map<JobId, StoredJob>, queued: seq<RqId>, jobs: map<RqId, RqCall>, live: set<JobId>, lockable: set<JobId>)

  ghost function MomentOf(store: JobStore, queue: RqPreviewQueue, session: SessionId): Moment
    reads store, queue
  {
    Moment(store.rows, queue.queued, queue.jobs, queue.LivePreviews(),
           set id | id in store.rows && store.Lockable(session, id))
  }

  /** What an outcome does to a row that is as it was refreshed; nothing if the loop's body raises. */
  predicate Effect(cfg: P.Config, intervals: seq<nat>, id: JobId, rq: RqId, clock: int, outcome: Option<Outcome>,
                   before: Moment, after: Moment)
  {
    && after.lockable == before.lockable
    && after.rows == (if outcome.None? || id !in before.rows then before.rows
                      else
                        var job := before.rows[id];
                        before.rows[id := job.(row := RowAfter(outcome.value, job.row, clock))])
    && if outcome == Some(Recovered) then
         && id in before.rows
         && after.queued == before.queued + [rq]
         && after.jobs == before.jobs[rq := RecoveryCall(cfg, intervals, id, before.rows[id].row.attempts)]
         && after.live == before.live + {id}
       else
         after.queued == before.queued && after.jobs == before.jobs && after.live == before.live
  }

  /**
   What an outcome does to the row that the writes find, whatever has become of it since the refresh: the guarded
   writes leave a finished row alone, and a row that was refreshed as running is refreshed again for its attempts.
   */
  predicate EffectOn(cfg: P.Config, intervals: seq<nat>, id: JobId, refreshed: Row, rq: RqId, clock: int,
                     outcome: Option<Outcome>, before: Moment, after: Moment)
  {
    && after.lockable == before.lockable
    && after.rows == (if outcome.None? || id !in before.rows then before.rows
                      else
                        var job := before.rows[id];
                        before.rows[id := job.(row := WrittenRow(outcome.value, refreshed, job.row, clock))])
    && if outcome == Some(Recovered) then
         && after.queued == before.queued + [rq]
         && after.jobs
            == before.jobs[rq := RecoveryCall(cfg, intervals, id, AttemptsMade(refreshed, RowOf(before.rows, id)))]
         && after.live == before.live + {id}
       else
         after.queued == before.queued && after.jobs == before.jobs && after.live == before.live
  }

  function WrittenRow(outcome: Outcome, refreshed: Row, current: Row, clock: int): Row {
    match outcome
    case GivenUp => Fail(current, RECOVERY_FAILURE, clock)
    case Recovered =>
      if refreshed.status.Running? then AfterFailure(current, true, OPERATIONAL_FAILURE, clock) else current
    case _ => current
  }

  function AttemptsMade(refreshed: Row, current: Option<Row>): nat {
    if refreshed.status.Running? && current.Some? then current.value.attempts else refreshed.attempts
  }

  /** When nobody has moved in between, the two effects are the same. */
  lemma UndisturbedEffect(cfg: P.Config, intervals: seq<nat>, id: JobId, rq: RqId, clock: int, outcome: Option<Outcome>,
                          before: Moment, after: Moment)
    requires id in before.rows
    ensures EffectOn(cfg, intervals, id, before.rows[id].row, rq, clock, outcome, before, after)
            <==> Effect(cfg, intervals, id, rq, clock, outcome, before, after)
  {
  }

  function OutcomeOf(result: Result<Outcome, string>): Option<Outcome> {
    if result.Ok? then Some(result.value) else None
  }

  /** A row to be recovered is requeued if it was running, and enqueued with the retries that it has left. */
  method RecoverJob(store: JobStore, queue: RqPreviewQueue, cfg: P.Config, ghost session: SessionId, id: JobId,
                    refreshed: Row, rq: RqId, clock: int)
    returns (result: Result<Outcome, string>)
    requires rq !in queue.jobs && id !in queue.LivePreviews()
    modifies store`rows, queue`queued, queue`jobs
    ensures OutcomeOf(result) == if refreshed.status.Running? && id !in old(store.rows) then None else Some(Recovered)
    ensures EffectOn(cfg, queue.retryIntervals, id, refreshed, rq, clock, OutcomeOf(result),
                     old(MomentOf(store, queue, session)), MomentOf(store, queue, session))
    ensures old(queue.AtMostOneEach()) ==> queue.AtMostOneEach()
  {
    var attempts := refreshed.attempts;
    if refreshed.status.Running? {
      var _ := store.TransitionAfterOperationalFailure(id, true, OPERATIONAL_FAILURE, clock);
      if id !in store.rows {
        return Err(ROW_GONE);
      }
      attempts := store.rows[id].row.attempts;
    }
    queue.Enqueue(rq, id, Some(cfg.maxRetries - attempts));
    return Ok(Recovered);
  }

  /** A refreshed row without a live job is given up, left to its execution, or recovered. */
  method ActOnJob(store: JobStore, queue: RqPreviewQueue, cfg: P.Config, ghost session: SessionId, id: JobId,
                  refreshed: Row, rq: RqId, now: int, clock: int)
    returns (result: Result<Outcome, string>)
    requires rq !in queue.jobs && id !in queue.LivePreviews() && !refreshed.Terminal()
    modifies store`rows, queue`queued, queue`jobs
    ensures OutcomeOf(result) == Act(cfg, now, refreshed, old(RowOf(store.rows, id)))
    ensures EffectOn(cfg, queue.retryIntervals, id, refreshed, rq, clock, OutcomeOf(result),
                     old(MomentOf(store, queue, session)), MomentOf(store, queue, session))
    ensures old(queue.AtMostOneEach()) ==> queue.AtMostOneEach()
  {
    var exhausted := P.Exhausted(cfg, refreshed);
    var expired := P.Expired(refreshed, now);
    var stale := P.Stale(cfg, refreshed, now);
    if exhausted || expired {
      var changed := store.TransitionAfterOperationalFailure(id, false, RECOVERY_FAILURE, clock);
      return Ok(if changed then GivenUp else Overtaken);
    }
    if refreshed.status.Running? && !stale {
      return Ok(AwaitsStaleness);
    }
    result := RecoverJob(store, queue, cfg, session, id, refreshed, rq, clock);
  }

  /** What follows once the lock is held and the row is refreshed. Others may have moved since the refresh. */
  method ReconcileLockedJob(store: JobStore, queue: RqPreviewQueue, cfg: P.Config, scanLimit: nat,
                            ghost session: SessionId, id: JobId, refreshed: Row, known: set<JobId>, rq: RqId,
                            now: int, clock: int)
    returns (result: Result<Outcome, string>, nowKnown: set<JobId>)
    requires rq !in queue.jobs
    modifies store`rows, queue`queued, queue`jobs
    ensures var live := if |old(queue.Entries())| <= scanLimit then Some(old(queue.LivePreviews())) else None;
            OutcomeOf(result) == DecideLocked(cfg, now, id, Some(refreshed), live, old(RowOf(store.rows, id)))
    ensures EffectOn(cfg, queue.retryIntervals, id, refreshed, rq, clock, OutcomeOf(result),
                     old(MomentOf(store, queue, session)), MomentOf(store, queue, session))
    ensures old(queue.AtMostOneEach()) ==> queue.AtMostOneEach()
    ensures nowKnown == known || nowKnown == queue.LivePreviews()
  {
    nowKnown := known;
    if !refreshed.status.Queued? && !refreshed.status.Running? {
      return Ok(AlreadyFinished), nowKnown;
    }
    var active := queue.ActivePreviewJobIds(scanLimit);
    if active.Err? {
      return Err(active.error), nowKnown;
    }
    nowKnown := active.value;
    if id in nowKnown {
      return Ok(FoundActive), nowKnown;
    }
    result := ActOnJob(store, queue, cfg, session, id, refreshed, rq, now, clock);
    if result.Ok? && result.value.Recovered? {
      nowKnown := nowKnown + {id};
    }
  }

  /** With the lock held, the row is refreshed and, while nothing else moves, acted on as it is. */
  method RefreshAndReconcile(store: JobStore, queue: RqPreviewQueue, cfg: P.Config, scanLimit: nat,
                             ghost session: SessionId, id: JobId, known: set<JobId>, rq: RqId, now: int, clock: int)
    returns (result: Result<Outcome, string>, nowKnown: set<JobId>)
    requires rq !in queue.jobs
    modifies store`rows, queue`queued, queue`jobs
    ensures var live := if |old(queue.Entries())| <= scanLimit then Some(old(queue.LivePreviews())) else None;
            var row := old(RowOf(store.rows, id));
            OutcomeOf(result) == DecideLocked(cfg, now, id, row, live, row)
    ensures Effect(cfg, queue.retryIntervals, id, rq, clock, OutcomeOf(result),
                   old(MomentOf(store, queue, session)), MomentOf(store, queue, session))
    ensures old(queue.AtMostOneEach()) ==> queue.AtMostOneEach()
    ensures nowKnown == known || nowKnown == queue.LivePreviews()
  {
    if id !in store.rows {
      return Err(ROW_GONE), known;
    }
    ghost var before := MomentOf(store, queue, session);
    var refreshed := store.rows[id].row;
    result, nowKnown := ReconcileLockedJob(store, queue, cfg, scanLimit, session, id, refreshed, known, rq, now, clock);
    UndisturbedEffect(cfg, queue.retryIntervals, id, rq, clock, OutcomeOf(result), before,
                      MomentOf(store, queue, session));
  }

  /** The body of the reconciler's loop, for one candidate as it was listed, while nothing else moves. */
  method ReconcileJob(store: JobStore, queue: RqPreviewQueue, session: SessionId, cfg: P.Config, scanLimit: nat,
                      id: JobId, seen: Row, known: set<JobId>, rq: RqId, now: int, clock: int)
    returns (result: Result<Outcome, string>, nowKnown: set<JobId>)
    requires rq !in queue.jobs
    modifies store`rows, store`locks, queue`queued, queue`jobs
    ensures store.locks == old(store.locks)
    ensures var live := if |old(queue.Entries())| <= scanLimit then Some(old(queue.LivePreviews())) else None;
            var row := old(RowOf(store.rows, id));
            OutcomeOf(result)
            == Decide(cfg, now, id, Looks(seen, known, old(store.Lockable(session, id)), row, live, row))
    ensures Effect(cfg, queue.retryIntervals, id, rq, clock, OutcomeOf(result),
                   old(MomentOf(store, queue, session)), MomentOf(store, queue, session))
    ensures old(queue.AtMostOneEach()) ==> queue.AtMostOneEach()
    ensures nowKnown == known || nowKnown == queue.LivePreviews()
  {
    ghost var before := MomentOf(store, queue, session);
    nowKnown := known;
    if id in known {
      return Ok(FoundActive), nowKnown;
    }
    if Waits(cfg, seen, now) {
      return Ok(AwaitsStaleness), nowKnown;
    }
    var acquired := store.TryAcquirePreviewJobLock(session, id);
    if !acquired {
      return Ok(LockHeld), nowKnown;
    }
    assert MomentOf(store, queue, session) == before;
    result, nowKnown := RefreshAndReconcile(store, queue, cfg, scanLimit, session, id, known, rq, now, clock);
    ghost var after := MomentOf(store, queue, session);
    store.ReleasePreviewJobLock(session, id);
    assert store.locks == old(store.locks);
    assert MomentOf(store, queue, session) == after;
  }

  // ----- what happens to a batch -----

  /** The settings of one pass, the ids that RQ will draw for new jobs, and the times of the writes. */
  datatype Pass = Pass(cfg: P.Config, now: int, intervals: seq<nat>, drawn: seq<RqId>, clocks: seq<int>)

  /** The outcome for a row when nothing changes between listing it and holding its lock. */
  function Verdict(cfg: P.Config, now: int, row: Row, isLive: bool, lockable: bool): Outcome {
    if isLive then FoundActive
    else if Waits(cfg, row, now) then AwaitsStaleness
    else if !lockable then LockHeld
    else if row.Terminal() then AlreadyFinished
    else if P.Exhausted(cfg, row) || P.Expired(row, now) then GivenUp
    else Recovered
  }

  function VerdictOf(pass: Pass, m: Moment, id: JobId): Outcome
    requires id in m.rows
  {
    Verdict(pass.cfg, pass.now, m.rows[id].row, id in m.live, id in m.lockable)
  }

  predicate Listed(m: Moment, batch: seq<JobId>) {
    && (forall id :: id in batch ==> id in m.rows)
    && (forall i, j :: 0 <= i < j < |batch| ==> batch[i] != batch[j])
  }

  function Tally(pass: Pass, m: Moment, batch: seq<JobId>, outcome: Outcome): nat
    requires Listed(m, batch)
  {
    if batch == [] then 0
    else
      var n := |batch| - 1;
      Tally(pass, m, batch[..n], outcome) + if VerdictOf(pass, m, batch[n]) == outcome then 1 else 0
  }

  /** The candidates that are recovered, in order. */
  function Recoveries(pass: Pass, m: Moment, batch: seq<JobId>): (ids: seq<JobId>)
    requires Listed(m, batch)
    ensures forall id :: id in ids <==> id in batch && VerdictOf(pass, m, id).Recovered?
    ensures |ids| == Tally(pass, m, batch, Recovered) <= |batch|
  {
    if batch == [] then []
    else
      var n := |batch| - 1;
      Recoveries(pass, m, batch[..n]) + if VerdictOf(pass, m, batch[n]).Recovered? then [batch[n]] else []
  }

  function Treated(pass: Pass, m: Moment, id: JobId, clock: int): StoredJob
    requires id in m.rows
  {
    m.rows[id].(row := RowAfter(VerdictOf(pass, m, id), m.rows[id].row, clock))
  }

  /** Exactly the listed rows are treated, each by its own verdict. */
  predicate RowsTreated(pass: Pass, m: Moment, batch: seq<JobId>, rows: map<JobId, StoredJob>)
    requires Listed(m, batch) && |batch| <= |pass.clocks|
  {
    && rows.Keys == m.rows.Keys
    && (forall id :: id in rows && id !in batch ==> rows[id] == m.rows[id])
    && (forall i :: 0 <= i < |batch| ==> rows[batch[i]] == Treated(pass, m, batch[i], pass.clocks[i]))
  }

  /** Exactly the recovered previews are added to the queue, each with what is left of its retries. */
  predicate QueueTreated(pass: Pass, m: Moment, recovered: seq<JobId>, after: Moment)
    requires (forall id :: id in recovered ==> id in m.rows) && |recovered| <= |pass.drawn|
  {
    && after.queued == m.queued + pass.drawn[..|recovered|]
    && after.jobs.Keys == m.jobs.Keys + Members(pass.drawn[..|recovered|])
    && (forall r :: r in m.jobs ==> after.jobs[r] == m.jobs[r])
    && (forall k :: 0 <= k < |recovered| ==>
          after.jobs[pass.drawn[k]]
          == RecoveryCall(pass.cfg, pass.intervals, recovered[k], m.rows[recovered[k]].row.attempts))
    && after.live == m.live + Members(recovered)
  }

  /** What reconciling the batch makes of the moment `m`. */
  predicate Reconciled(pass: Pass, m: Moment, batch: seq<JobId>, after: Moment) {
    && Listed(m, batch) && |batch| <= |pass.clocks| && |batch| <= |pass.drawn|
    && RowsTreated(pass, m, batch, after.rows)
    && QueueTreated(pass, m, Recoveries(pass, m, batch), after)
    && after.lockable == m.lockable
  }

  /** RQ draws ids that it has not used before. */
  predicate Unused(drawn: seq<RqId>, m: Moment) {
    && (forall i :: 0 <= i < |drawn| ==> drawn[i] !in m.jobs)
    && (forall i, j :: 0 <= i < j < |drawn| ==> drawn[i] != drawn[j])
  }

  /** A candidate that has been treated, among those that have. */
  lemma EarlierRow(pass: Pass, m: Moment, batch: seq<JobId>, n: nat, mid: map<JobId, StoredJob>, i: nat)
    requires i < n < |batch| <= |pass.clocks| && Listed(m, batch) && RowsTreated(pass, m, batch[..n], mid)
    ensures batch[i] != batch[n] && batch[i] in mid && mid[batch[i]] == Treated(pass, m, batch[i], pass.clocks[i])
  {
    assert batch[..n][i] == batch[i];
  }

  /** The candidates treated once the next has been treated, too. */
  lemma TreatedRows(pass: Pass, m: Moment, batch: seq<JobId>, n: nat, mid: map<JobId, StoredJob>,
                    rows: map<JobId, StoredJob>)
    requires n < |batch| <= |pass.clocks| && Listed(m, batch) && RowsTreated(pass, m, batch[..n], mid)
    requires rows == mid[batch[n] := Treated(pass, m, batch[n], pass.clocks[n])]
    ensures forall i :: 0 <= i <= n ==>
              batch[i] in rows && rows[batch[i]] == Treated(pass, m, batch[i], pass.clocks[i])
  {
    forall i | 0 <= i <= n
      ensures batch[i] in rows && rows[batch[i]] == Treated(pass, m, batch[i], pass.clocks[i])
    {
      if i < n {
        EarlierRow(pass, m, batch, n, mid, i);
      }
    }
  }

  lemma UntreatedRows(pass: Pass, m: Moment, batch: seq<JobId>, n: nat, mid: map<JobId, StoredJob>,
                      rows: map<JobId, StoredJob>)
    requires n < |batch| <= |pass.clocks| && Listed(m, batch) && RowsTreated(pass, m, batch[..n], mid)
    requires batch[n] in rows && rows == mid[batch[n] := rows[batch[n]]]
    ensures rows.Keys == m.rows.Keys && forall id :: id in rows && id !in batch[..n + 1] ==> rows[id] == m.rows[id]
  {
    assert batch[..n + 1] == batch[..n] + [batch[n]];
  }

  lemma OneMoreRow(pass: Pass, m: Moment, batch: seq<JobId>, n: nat, mid: map<JobId, StoredJob>,
                   rows: map<JobId, StoredJob>)
    requires n < |batch| <= |pass.clocks| && Listed(m, batch) && RowsTreated(pass, m, batch[..n], mid)
    requires rows == mid[batch[n] := Treated(pass, m, batch[n], pass.clocks[n])]
    ensures RowsTreated(pass, m, batch[..n + 1], rows)
  {
    TreatedRows(pass, m, batch, n, mid, rows);
    UntreatedRows(pass, m, batch, n, mid, rows);
  }

  lemma OneMoreEntry(pass: Pass, m: Moment, recovered: seq<JobId>, mid: Moment, id: JobId, after: Moment)
    requires forall other :: other in recovered + [id] ==> other in m.rows
    requires |recovered| < |pass.drawn| && Unused(pass.drawn, m)
    requires QueueTreated(pass, m, recovered, mid)
    requires var rq := pass.drawn[|recovered|];
             && after.queued == mid.queued + [rq]
             && after.jobs == mid.jobs[rq := RecoveryCall(pass.cfg, pass.intervals, id, m.rows[id].row.attempts)]
             && after.live == mid.live + {id}
    ensures QueueTreated(pass, m, recovered + [id], after)
  {
  }

  function Counted(s: Summary, outcome: Outcome): Summary {
    match outcome
    case FoundActive => s.(active := s.active + 1)
    case Recovered => s.(recovered := s.recovered + 1)
    case GivenUp => s.(failed := s.failed + 1)
    case LockHeld => s.(locked := s.locked + 1)
    case AwaitsStaleness => s.(notStale := s.notStale + 1)
    case AlreadyFinished => s.(stateChanged := s.stateChanged + 1)
    case Overtaken => s
  }

  /** The summary after the first `n` candidates. */
  function Running(pass: Pass, m: Moment, batch: seq<JobId>, n: nat): Summary
    requires n <= |batch| && Listed(m, batch)
  {
    if n == 0 then Summary(|batch|, 0, 0, 0, 0, 0, 0)
    else Counted(Running(pass, m, batch, n - 1), VerdictOf(pass, m, batch[n - 1]))
  }

  /** The counters count what they are named after, and partition the scanned rows. */
  predicate Counts(pass: Pass, m: Moment, batch: seq<JobId>, s: Summary) {
    && Listed(m, batch)
    && s.scanned == |batch|
    && s.active == Tally(pass, m, batch, FoundActive)
    && s.recovered == Tally(pass, m, batch, Recovered)
    && s.failed == Tally(pass, m, batch, GivenUp)
    && s.locked == Tally(pass, m, batch, LockHeld)
    && s.notStale == Tally(pass, m, batch, AwaitsStaleness)
    && s.stateChanged == Tally(pass, m, batch, AlreadyFinished)
    && s.active + s.recovered + s.failed + s.locked + s.notStale + s.stateChanged == |batch|
  }

  /** One more candidate shows in its own counter. */
  lemma NextCounts(pass: Pass, m: Moment, batch: seq<JobId>, n: nat, s: Summary)
    requires n < |batch| && Listed(m, batch) && Counts(pass, m, batch[..n], s.(scanned := n))
    ensures Counts(pass, m, batch[..n + 1], Counted(s, VerdictOf(pass, m, batch[n])).(scanned := n + 1))
  {
    assert batch[..n + 1][..n] == batch[..n];
  }

  lemma {:induction false} RunningCounts(pass: Pass, m: Moment, batch: seq<JobId>, n: nat)
    requires n <= |batch| && Listed(m, batch)
    ensures Counts(pass, m, batch[..n], Running(pass, m, batch, n).(scanned := n))
    ensures Running(pass, m, batch, n).scanned == |batch|
  {
    if n > 0 {
      RunningCounts(pass, m, batch, n - 1);
      NextCounts(pass, m, batch, n - 1, Running(pass, m, batch, n - 1));
    }
  }

  lemma FinalCounts(pass: Pass, m: Moment, batch: seq<JobId>)
    requires Listed(m, batch)
    ensures Counts(pass, m, batch, Running(pass, m, batch, |batch|))
  {
    RunningCounts(pass, m, batch, |batch|);
    assert batch[..|batch|] == batch;
  }

  lemma {:induction false} RecoveredSoFar(pass: Pass, m: Moment, batch: seq<JobId>, n: nat)
    requires n <= |batch| && Listed(m, batch)
    ensures Running(pass, m, batch, n).recovered == |Recoveries(pass, m, batch[..n])|
  {
    if n > 0 {
      RecoveredSoFar(pass, m, batch, n - 1);
      assert batch[..n][..n - 1] == batch[..n - 1];
    }
  }

  lemma NextRecoveries(pass: Pass, m: Moment, batch: seq<JobId>, n: nat, recovered: seq<JobId>)
    requires n < |batch| && Listed(m, batch) && recovered == Recoveries(pass, m, batch[..n])
    ensures Recoveries(pass, m, batch[..n + 1])
            == if VerdictOf(pass, m, batch[n]).Recovered? then recovered + [batch[n]] else recovered
  {
    assert batch[..n + 1][..n] == batch[..n];
  }

  /** The queue after the next candidate, whose outcome is its verdict. */
  lemma OneMoreOutcome(pass: Pass, m: Moment, recovered: seq<JobId>, id: JobId, outcome: Outcome, clock: int,
                       mid: Moment, after: Moment)
    requires (forall other :: other in recovered ==> other in m.rows) && |recovered| < |pass.drawn|
    requires Unused(pass.drawn, m) && QueueTreated(pass, m, recovered, mid)
    requires id in m.rows && id in mid.rows && mid.rows[id] == m.rows[id]
    requires Effect(pass.cfg, pass.intervals, id, pass.drawn[|recovered|], clock, Some(outcome), mid, after)
    ensures outcome.Recovered? ==> QueueTreated(pass, m, recovered + [id], after)
    ensures !outcome.Recovered? ==> QueueTreated(pass, m, recovered, after)
  {
    if outcome.Recovered? {
      OneMoreEntry(pass, m, recovered, mid, id, after);
    }
  }

  lemma OneMoreInQueue(pass: Pass, m: Moment, batch: seq<JobId>, n: nat, recovered: seq<JobId>, mid: Moment,
                       after: Moment)
    requires n < |batch| <= |pass.drawn| && Listed(m, batch) && Unused(pass.drawn, m)
    requires recovered == Recoveries(pass, m, batch[..n]) && QueueTreated(pass, m, recovered, mid)
    requires batch[n] in mid.rows && mid.rows[batch[n]] == m.rows[batch[n]] && |batch| <= |pass.clocks|
    requires Effect(pass.cfg, pass.intervals, batch[n], pass.drawn[|recovered|], pass.clocks[n],
                    Some(VerdictOf(pass, m, batch[n])), mid, after)
    ensures QueueTreated(pass, m, Recoveries(pass, m, batch[..n + 1]), after)
  {
    OneMoreOutcome(pass, m, recovered, batch[n], VerdictOf(pass, m, batch[n]), pass.clocks[n], mid, after);
    NextRecoveries(pass, m, batch, n, recovered);
  }

  /** Treating the next candidate, as seen from the loop. */
  lemma OneMore(pass: Pass, m: Moment, batch: seq<JobId>, n: nat, mid: Moment, after: Moment)
    requires n < |batch| && Listed(m, batch) && |batch| <= |pass.clocks| && |batch| <= |pass.drawn|
        && Unused(pass.drawn, m)
    requires Reconciled(pass, m, batch[..n], mid)
    requires Effect(pass.cfg, pass.intervals, batch[n], pass.drawn[|Recoveries(pass, m, batch[..n])|], pass.clocks[n],
                    Some(VerdictOf(pass, m, batch[n])), mid, after)
    ensures Reconciled(pass, m, batch[..n + 1], after)
  {
    NextIsUntouched(pass, m, batch, n, mid);
    OneMoreRow(pass, m, batch, n, mid.rows, after.rows);
    OneMoreInQueue(pass, m, batch, n, Recoveries(pass, m, batch[..n]), mid, after);
  }

  lemma NothingTreated(pass: Pass, m: Moment, batch: seq<JobId>)
    ensures Reconciled(pass, m, batch[..0], m)
  {
    assert batch[..0] == [];
  }

  /** The next candidate is as it was when it was listed. */
  lemma NextIsUntouched(pass: Pass, m: Moment, batch: seq<JobId>, n: nat, mid: Moment)
    requires n < |batch| && Listed(m, batch) && Reconciled(pass, m, batch[..n], mid)
    ensures batch[n] in mid.rows && mid.rows[batch[n]] == m.rows[batch[n]]
    ensures batch[n] in mid.live <==> batch[n] in m.live
  {
    assert batch[n] !in batch[..n];
  }

  /** With nothing else going on, what the loop decides is the verdict on the row as listed. */
  lemma DecisionIsVerdict(pass: Pass, m: Moment, id: JobId, known: set<JobId>, scan: Option<set<JobId>>)
    requires id in m.rows && (id in known <==> id in m.live) && (scan.Some? ==> (id in scan.value <==> id in m.live))
    requires !m.rows[id].row.Terminal()
    ensures var row := m.rows[id].row;
            var looks := Looks(row, known, id in m.lockable, Some(row), scan, Some(row));
            var decision := Decide(pass.cfg, pass.now, id, looks);
            && (decision.Some? ==> decision.value == VerdictOf(pass, m, id))
            && (decision.None? ==> scan.None?)
  {
  }

  /** The loop's body. `m` is the moment of the listing; candidates before `i` have been treated. */
  method ReconcileCandidate(store: JobStore, queue: RqPreviewQueue, session: SessionId, pass: Pass, scanLimit: nat,
                            ghost m: Moment, ids: seq<JobId>, i: nat, seen: Row, known: set<JobId>, used: nat)
    returns (result: Result<Outcome, string>, nowKnown: set<JobId>)
    requires i < |ids| <= |pass.clocks| && |ids| <= |pass.drawn| && Unused(pass.drawn, m) && Listed(m, ids)
    requires pass.intervals == queue.retryIntervals && seen == m.rows[ids[i]].row && !seen.Terminal()
    requires Reconciled(pass, m, ids[..i], MomentOf(store, queue, session)) && used == |Recoveries(pass, m, ids[..i])|
    requires m.live <= known <= queue.LivePreviews()
    modifies store`rows, store`locks, queue`queued, queue`jobs
    ensures store.locks == old(store.locks) && m.live <= nowKnown <= queue.LivePreviews()
    ensures result.Ok? ==>
              result.value == VerdictOf(pass, m, ids[i])
                  && Reconciled(pass, m, ids[..i + 1], MomentOf(store, queue, session))
    ensures result.Err? ==>
              MomentOf(store, queue, session) == old(MomentOf(store, queue, session)) && |queue.Entries()| > scanLimit
    ensures old(queue.AtMostOneEach()) ==> queue.AtMostOneEach()
  {
    ghost var mid := MomentOf(store, queue, session);
    NextIsUntouched(pass, m, ids, i, mid);
    DecisionIsVerdict(pass, m, ids[i], known, if |queue.Entries()| <= scanLimit then Some(queue.LivePreviews())
        else None);
    result, nowKnown := ReconcileJob(store, queue, session, pass.cfg, scanLimit, ids[i], seen, known,
                                     pass.drawn[used], pass.now, pass.clocks[i]);
    if result.Ok? {
      OneMore(pass, m, ids, i, mid, MomentOf(store, queue, session));
    }
  }

  /** The loop over the candidates; `done` is how far it came before a scan was too large to trust. */
  method ReconcileCandidates(store: JobStore, queue: RqPreviewQueue, session: SessionId, pass: Pass, scanLimit: nat,
                             ids: seq<JobId>, active: set<JobId>)
    returns (result: Result<Summary, string>, ghost done: nat)
    requires |ids| <= |pass.clocks| && |ids| <= |pass.drawn| && pass.intervals == queue.retryIntervals
    requires Unused(pass.drawn, MomentOf(store, queue, session)) && Listed(MomentOf(store, queue, session), ids)
    requires (forall i :: 0 <= i < |ids| ==> Nonterminal(store.rows, ids[i])) && active == queue.LivePreviews()
    modifies store`rows, store`locks, queue`queued, queue`jobs
    ensures store.locks == old(store.locks)
    ensures done <= |ids| && (result.Ok? ==> done == |ids|)
    ensures Reconciled(pass, old(MomentOf(store, queue, session)), ids[..done], MomentOf(store, queue, session))
    ensures result.Ok? ==> result.value == Running(pass, old(MomentOf(store, queue, session)), ids, |ids|)
    ensures result.Err? ==> |queue.Entries()| > scanLimit
    ensures old(queue.AtMostOneEach()) ==> queue.AtMostOneEach()
  {
    ghost var m := MomentOf(store, queue, session);
    NothingTreated(pass, m, ids);
    var known := active;
    var seen := store.rows;
    var summary := Summary(|ids|, 0, 0, 0, 0, 0, 0);
    done := 0;
    for i := 0 to |ids|
      invariant done == i && store.locks == old(store.locks)
      invariant Reconciled(pass, m, ids[..i], MomentOf(store, queue, session))
      invariant m.live <= known <= queue.LivePreviews()
      invariant summary == Running(pass, m, ids, i)
      invariant old(queue.AtMostOneEach()) ==> queue.AtMostOneEach()
    {
      RecoveredSoFar(pass, m, ids, i);
      var outcome;
      outcome, known := ReconcileCandidate(store, queue, session, pass, scanLimit, m, ids, i, seen[ids[i]].row, known,
          summary.recovered);
      if outcome.Err? {
        return Err(outcome.error), done;
      }
      summary := Counted(summary, outcome.value);
      done := i + 1;
    }
    return Ok(summary), done;
  }

  /** One pass: scan, list, reconcile. `batch` is what was listed, and `done` how much of it was treated. */
  method ReconcilePreviewJobs(store: JobStore, queue: RqPreviewQueue, session: SessionId, pass: Pass, batchSize: nat,
                              scanLimit: nat)
    returns (result: Result<Summary, string>, ghost batch: seq<JobId>, ghost done: nat)
    requires |pass.drawn| >= batchSize && |pass.clocks| >= batchSize && pass.intervals == queue.retryIntervals
    requires Unused(pass.drawn, MomentOf(store, queue, session))
    modifies store`rows, store`locks, queue`queued, queue`jobs
    ensures store.locks == old(store.locks)
    ensures IsBatch(old(store.rows), batchSize, batch) && done <= |batch| && (result.Ok? ==> done == |batch|)
    ensures Reconciled(pass, old(MomentOf(store, queue, session)), batch[..done], MomentOf(store, queue, session))
    ensures result.Ok? ==> Counts(pass, old(MomentOf(store, queue, session)), batch, result.value)
    ensures result.Err? ==> |queue.Entries()| > scanLimit
    ensures old(queue.AtMostOneEach()) ==> queue.AtMostOneEach()
  {
    ghost var m := MomentOf(store, queue, session);
    var active := queue.ActivePreviewJobIds(scanLimit);
    var ids := store.ListReconciliationCandidates(batchSize);
    batch, done := ids, 0;
    assert MomentOf(store, queue, session) == m;
    NothingTreated(pass, m, batch);
    if active.Err? {
      return Err(active.error), batch, done;
    }
    FinalCounts(pass, m, batch);
    result, done := ReconcileCandidates(store, queue, session, pass, scanLimit, ids, active.value);
  }

  // ----- the counters when others do move -----

  /** What was decided about candidates that the loop's body has seen like this. */
  ghost predicate Decided(cfg: P.Config, now: int, candidates: seq<(JobId, Looks)>, outcomes: seq<Outcome>) {
    && |outcomes| == |candidates|
    && forall i :: 0 <= i < |candidates| ==>
         Decide(cfg, now, candidates[i].0, candidates[i].1) == Some(outcomes[i])
  }

  /** The counters then. */
  function Counting(outcomes: seq<Outcome>): Summary {
    if outcomes == [] then Summary(0, 0, 0, 0, 0, 0, 0)
    else
      var before := Counting(outcomes[..|outcomes| - 1]);
      Counted(before.(scanned := before.scanned + 1), outcomes[|outcomes| - 1])
  }

  function Overtakings(outcomes: seq<Outcome>): nat {
    if outcomes == [] then 0
    else Overtakings(outcomes[..|outcomes| - 1]) + if outcomes[|outcomes| - 1].Overtaken? then 1 else 0
  }

  function Sum(s: Summary): nat {
    s.active + s.recovered + s.failed + s.locked + s.notStale + s.stateChanged
  }

  lemma OneMoreCounted(before: Summary, outcome: Outcome)
    ensures var next := Counted(before.(scanned := before.scanned + 1), outcome);
            next.scanned == before.scanned + 1 && Sum(next) == Sum(before) + if outcome.Overtaken? then 0 else 1
  {
  }

  lemma {:induction false} OutcomesAreCounted(outcomes: seq<Outcome>)
    ensures Counting(outcomes).scanned == |outcomes|
    ensures Sum(Counting(outcomes)) + Overtakings(outcomes) == |outcomes|
  {
    if outcomes != [] {
      var n := |outcomes| - 1;
      OutcomesAreCounted(outcomes[..n]);
      OneMoreCounted(Counting(outcomes[..n]), outcomes[n]);
    }
  }

  lemma NoneOvertaken(outcomes: seq<Outcome>)
    ensures Overtakings(outcomes) == 0 <==> Overtaken !in outcomes
  {
    if outcomes != [] {
      NoneOvertaken(outcomes[..|outcomes| - 1]);
      assert outcomes == outcomes[..|outcomes| - 1] + [outcomes[|outcomes| - 1]];
    }
  }

  /**
   Whatever others do meanwhile, the counters miss exactly the candidates that were overtaken; so they partition the
   scanned rows if and only if none was.
   */
  lemma CountersMissOvertaken(cfg: P.Config, now: int, candidates: seq<(JobId, Looks)>, outcomes: seq<Outcome>)
    requires Decided(cfg, now, candidates, outcomes)
    ensures Counting(outcomes).scanned == |candidates|
    ensures Sum(Counting(outcomes)) + Overtakings(outcomes) == |candidates|
    ensures Sum(Counting(outcomes)) == |candidates| <==>
              forall i :: 0 <= i < |candidates| ==>
                Decide(cfg, now, candidates[i].0, candidates[i].1) != Some(Overtaken)
  {
    OutcomesAreCounted(outcomes);
    NoneOvertaken(outcomes);
    if i :| 0 <= i < |candidates| && Decide(cfg, now, candidates[i].0, candidates[i].1) == Some(Overtaken) {
      assert outcomes[i] == Overtaken;
    }
  }

  /** Which are those that were to be given up, and were finished or deleted between their refresh and the write. */
  lemma OvertakenExactlyIf(cfg: P.Config, now: int, id: JobId, looks: Looks)
    ensures Decide(cfg, now, id, looks) == Some(Overtaken) <==>
              && id !in looks.known && !Waits(cfg, looks.seen, now) && looks.lockable
              && looks.refreshed.Some? && !looks.refreshed.value.Terminal()
              && looks.live.Some? && id !in looks.live.value
              && (P.Exhausted(cfg, looks.refreshed.value) || P.Expired(looks.refreshed.value, now))
              && (looks.current.None? || looks.current.value.Terminal())
  {
  }
}
