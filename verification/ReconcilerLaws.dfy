/** What a pass of reconciliation achieves, and that it takes only steps of the protocol. */
module ReconcilerLaws {
  import opened Wrappers
  import opened JobRow
  import opened JobStore
  import opened PreviewQueue
  import opened Reconciler
  import P = Protocol
  import opened ProtocolLaws

  /** What a pass leaves of one listed row. */
  lemma Reached(pass: Pass, m: Moment, batch: seq<JobId>, after: Moment, id: JobId) returns (i: nat)
    requires Reconciled(pass, m, batch, after) && id in batch
    ensures i < |batch| && batch[i] == id
    ensures id in m.rows && id in after.rows && after.rows[id] == Treated(pass, m, id, pass.clocks[i])
    ensures id in after.live <==> id in m.live || VerdictOf(pass, m, id).Recovered?
  {
    i :| 0 <= i < |batch| && batch[i] == id;
    assert id in Recoveries(pass, m, batch) <==> VerdictOf(pass, m, id).Recovered?;
  }

  lemma Unlisted(pass: Pass, m: Moment, batch: seq<JobId>, after: Moment, id: JobId)
    requires Reconciled(pass, m, batch, after) && id in after.rows
    ensures id in m.rows && (id !in batch ==> after.rows[id] == m.rows[id])
  {
  }

  /**
   When every nonterminal row was listed, each row that is still nonterminal has a live RQ job, or is
   running and neither stale nor exhausted nor expired, or was locked by somebody else.
   */
  lemma PassIsComplete(pass: Pass, m: Moment, batch: seq<JobId>, after: Moment, id: JobId)
    requires Reconciled(pass, m, batch, after)
    requires forall other :: Nonterminal(m.rows, other) ==> other in batch
    requires Nonterminal(after.rows, id)
    ensures id in after.live || Waits(pass.cfg, after.rows[id].row, pass.now) || id !in m.lockable
  {
    Unlisted(pass, m, batch, after, id);
    if id in batch {
      var _ := Reached(pass, m, batch, after, id);
    }
  }

  /** A second pass at the same time does nothing to a row that the first pass has treated. */
  lemma SecondVerdict(pass: Pass, m: Moment, batch: seq<JobId>, after: Moment, again: Pass, id: JobId)
    requires Reconciled(pass, m, batch, after) && again.cfg == pass.cfg && again.now == pass.now
    requires id in batch && Nonterminal(after.rows, id)
    ensures VerdictOf(again, after, id).FoundActive? || VerdictOf(again, after, id).AwaitsStaleness?
            || (VerdictOf(again, after, id).LockHeld? && VerdictOf(pass, m, id).LockHeld?)
  {
    var _ := Reached(pass, m, batch, after, id);
  }

  lemma {:induction false} NoRecoveries(pass: Pass, m: Moment, batch: seq<JobId>)
    requires Listed(m, batch) && forall id :: id in batch ==> !VerdictOf(pass, m, id).Recovered?
    ensures Recoveries(pass, m, batch) == []
  {
    if batch != [] {
      NoRecoveries(pass, m, batch[..|batch| - 1]);
    }
  }

  /** A pass that only finds rows to leave alone leaves everything alone. */
  lemma NothingToDo(pass: Pass, m: Moment, batch: seq<JobId>, after: Moment)
    requires Reconciled(pass, m, batch, after)
    requires forall id :: id in batch ==> !VerdictOf(pass, m, id).Recovered? && !VerdictOf(pass, m, id).GivenUp?
    ensures after == m
  {
    forall id | id in m.rows
      ensures id in after.rows && after.rows[id] == m.rows[id]
    {
      Unlisted(pass, m, batch, after, id);
      if id in batch {
        var _ := Reached(pass, m, batch, after, id);
      }
    }
    NoRecoveries(pass, m, batch);
    assert after.rows == m.rows && after.jobs == m.jobs;
  }

  /** With no other step in between, a second pass at the same time changes nothing. */
  lemma PassIsIdempotent(pass: Pass, m: Moment, batch: seq<JobId>, mid: Moment, again: Pass, batch': seq<JobId>,
                         after: Moment)
    requires Reconciled(pass, m, batch, mid) && Reconciled(again, mid, batch', after)
    requires again.cfg == pass.cfg && again.now == pass.now
    requires forall id :: id in batch' ==> Nonterminal(mid.rows, id) && id in batch
    ensures after == mid
  {
    forall id | id in batch'
      ensures !VerdictOf(again, mid, id).Recovered? && !VerdictOf(again, mid, id).GivenUp?
    {
      SecondVerdict(pass, m, batch, mid, again, id);
    }
    NothingToDo(again, mid, batch', after);
  }

  // ----- what a pass does, in numbers -----

  /** No attempt is left, or the row has expired. */
  predicate Lost(cfg: P.Config, now: int, row: Row) {
    row.attempts > cfg.maxRetries || now >= row.expiresAt
  }

  /** It waits in the queue, or its execution started too long ago. */
  predicate Due(cfg: P.Config, now: int, row: Row) {
    row.status.Queued? || row.startedAt.None? || now - row.startedAt.value >= cfg.staleAfter
  }

  /** What is found by the time a nonterminal row is decided about, in numbers. */
  lemma VerdictInNumbers(cfg: P.Config, now: int, row: Row, isLive: bool, lockable: bool)
    requires !row.Terminal()
    ensures var verdict := Verdict(cfg, now, row, isLive, lockable);
            && (Waits(cfg, row, now) <==> !Lost(cfg, now, row) && !Due(cfg, now, row))
            && (verdict == FoundActive <==> isLive)
            && (verdict == AwaitsStaleness <==> !isLive && !Lost(cfg, now, row) && !Due(cfg, now, row))
            && (verdict == LockHeld <==> !isLive && !lockable && (Lost(cfg, now, row) || Due(cfg, now, row)))
            && (verdict == GivenUp <==> !isLive && lockable && Lost(cfg, now, row))
            && (verdict == Recovered <==> !isLive && lockable && !Lost(cfg, now, row) && Due(cfg, now, row))
  {
  }

  /** The same under the lock, when others may have moved since the row was refreshed. */
  lemma ActInNumbers(cfg: P.Config, now: int, refreshed: Row, current: Option<Row>)
    requires !refreshed.Terminal()
    ensures Act(cfg, now, refreshed, current)
            == if Lost(cfg, now, refreshed) then
                 Some(if current.None? || current.value.status.Completed? || current.value.status.Failed?
                      then Overtaken else GivenUp)
               else if !Due(cfg, now, refreshed) then Some(AwaitsStaleness)
               else if refreshed.status.Running? && current.None? then None
               else Some(Recovered)
  {
  }

  /** A listed row that nobody is executing or holding, before and after the pass. */
  lemma PassInNumbers(pass: Pass, m: Moment, batch: seq<JobId>, after: Moment, id: JobId) returns (clock: int)
    requires Reconciled(pass, m, batch, after) && id in batch && Nonterminal(m.rows, id)
    requires id !in m.live && id in m.lockable
    ensures id in after.rows
    ensures var row, next := m.rows[id].row, after.rows[id].row;
            if Lost(pass.cfg, pass.now, row) then
              && next == row.(status := Failed, stage := FailedStage, progress := 100, completedAt := Some(clock),
                              error := Some("Unable to recover the strategy preview. Run the preview again."))
              && id !in after.live
            else if Due(pass.cfg, pass.now, row) then
              && next == (if row.status.Queued? then row
                          else row.(status := Queued, stage := QueuedStage, progress := 5, startedAt := None,
                                    completedAt := None, error := None))
              && id in after.live
              && exists rq :: rq in after.queued && rq in after.jobs && after.jobs[rq].Concerns(id)
                              && IsPolicy(after.jobs[rq].retry, pass.intervals, pass.cfg.maxRetries - row.attempts)
            else
              next == row && id !in after.live
  {
    var i := Reached(pass, m, batch, after, id);
    clock := pass.clocks[i];
    var row := m.rows[id].row;
    VerdictInNumbers(pass.cfg, pass.now, row, false, true);
    if VerdictOf(pass, m, id).Recovered? {
      var rq := RecoveredEntry(pass, m, batch, after, id);
      assert after.jobs[rq].Concerns(id);
    }
  }

  lemma EntryOf(pass: Pass, m: Moment, recovered: seq<JobId>, after: Moment, k: nat)
    requires (forall id :: id in recovered ==> id in m.rows) && |recovered| <= |pass.drawn|
    requires QueueTreated(pass, m, recovered, after) && k < |recovered|
    ensures pass.drawn[k] in after.queued && pass.drawn[k] in after.jobs
    ensures after.jobs[pass.drawn[k]]
            == RecoveryCall(pass.cfg, pass.intervals, recovered[k], m.rows[recovered[k]].row.attempts)
  {
    assert pass.drawn[..|recovered|][k] == pass.drawn[k];
  }

  lemma RecoveredEntry(pass: Pass, m: Moment, batch: seq<JobId>, after: Moment, id: JobId) returns (rq: RqId)
    requires Reconciled(pass, m, batch, after) && id in batch && VerdictOf(pass, m, id).Recovered?
    ensures rq in after.queued && rq in after.jobs
    ensures after.jobs[rq] == RecoveryCall(pass.cfg, pass.intervals, id, m.rows[id].row.attempts)
  {
    var recovered := Recoveries(pass, m, batch);
    assert id in recovered;
    var k :| 0 <= k < |recovered| && recovered[k] == id;
    rq := pass.drawn[k];
    EntryOf(pass, m, recovered, after, k);
  }

  /** A row that is live, or that somebody else holds, is left as it is. */
  lemma BusyRowsStay(pass: Pass, m: Moment, batch: seq<JobId>, after: Moment, id: JobId)
    requires Reconciled(pass, m, batch, after) && Nonterminal(m.rows, id) && (id in m.live || id !in m.lockable)
    ensures id in after.rows && after.rows[id] == m.rows[id] && (id in after.live <==> id in m.live)
  {
    if id in batch {
      var _ := Reached(pass, m, batch, after, id);
    } else {
      assert id !in Recoveries(pass, m, batch);
    }
  }

  /** Where in the batch the rows with an outcome are. */
  function Places(pass: Pass, m: Moment, batch: seq<JobId>, outcome: Outcome): set<nat>
    requires Listed(m, batch)
  {
    set i: nat | i < |batch| && VerdictOf(pass, m, batch[i]) == outcome
  }

  lemma PlacesGrow(pass: Pass, m: Moment, batch: seq<JobId>, n: nat, outcome: Outcome, places: set<nat>)
    requires Listed(m, batch) && n < |batch| && places == Places(pass, m, batch[..n], outcome)
    ensures n !in places
    ensures Places(pass, m, batch[..n + 1], outcome)
            == places + if VerdictOf(pass, m, batch[n]) == outcome then {n} else {}
  {
    assert forall i :: 0 <= i < n ==> batch[..n + 1][i] == batch[..n][i];
  }

  lemma TallyGrows(pass: Pass, m: Moment, batch: seq<JobId>, n: nat, outcome: Outcome, tally: nat)
    requires Listed(m, batch) && n < |batch| && tally == Tally(pass, m, batch[..n], outcome)
    ensures Tally(pass, m, batch[..n + 1], outcome)
            == tally + if VerdictOf(pass, m, batch[n]) == outcome then 1 else 0
  {
    assert batch[..n + 1][..n] == batch[..n];
  }

  lemma TallyNext(pass: Pass, m: Moment, batch: seq<JobId>, n: nat, outcome: Outcome, tally: nat, places: set<nat>)
    returns (tally': nat, places': set<nat>)
    requires Listed(m, batch) && n < |batch| && tally == |places|
    requires tally == Tally(pass, m, batch[..n], outcome) && places == Places(pass, m, batch[..n], outcome)
    ensures tally' == Tally(pass, m, batch[..n + 1], outcome) && places' == Places(pass, m, batch[..n + 1], outcome)
    ensures tally' == |places'|
  {
    PlacesGrow(pass, m, batch, n, outcome, places);
    TallyGrows(pass, m, batch, n, outcome, tally);
    tally', places' := tally, places;
    if VerdictOf(pass, m, batch[n]) == outcome {
      tally', places' := tally + 1, places + {n};
    }
  }

  lemma TallyCounts(pass: Pass, m: Moment, batch: seq<JobId>, outcome: Outcome)
    requires Listed(m, batch)
    ensures Tally(pass, m, batch, outcome) == |Places(pass, m, batch, outcome)|
  {
    var tally: nat, places: set<nat> := 0, {};
    assert batch[..0] == [];
    for n := 0 to |batch|
      invariant tally == Tally(pass, m, batch[..n], outcome) && places == Places(pass, m, batch[..n], outcome)
      invariant tally == |places|
    {
      tally, places := TallyNext(pass, m, batch, n, outcome, tally, places);
    }
    assert batch[..|batch|] == batch;
  }

  // The rows that a pass finds, in numbers.
  function LiveRows(m: Moment, batch: seq<JobId>): set<nat> {
    set i: nat | i < |batch| && batch[i] in m.live
  }

  function LostRows(pass: Pass, m: Moment, batch: seq<JobId>): set<nat>
    requires Listed(m, batch)
  {
    set i: nat | i < |batch| && batch[i] !in m.live && batch[i] in m.lockable
                 && Lost(pass.cfg, pass.now, m.rows[batch[i]].row)
  }

  function RecoverableRows(pass: Pass, m: Moment, batch: seq<JobId>): set<nat>
    requires Listed(m, batch)
  {
    set i: nat | i < |batch| && batch[i] !in m.live && batch[i] in m.lockable
                 && !Lost(pass.cfg, pass.now, m.rows[batch[i]].row) && Due(pass.cfg, pass.now, m.rows[batch[i]].row)
  }

  /** The counters of a pass count what it finds. */
  lemma CountersInNumbers(pass: Pass, m: Moment, batch: seq<JobId>, s: Summary)
    requires Counts(pass, m, batch, s) && forall i :: 0 <= i < |batch| ==> Nonterminal(m.rows, batch[i])
    ensures s.scanned == |batch| && s.stateChanged == 0
    ensures s.active == |LiveRows(m, batch)|
    ensures s.failed == |LostRows(pass, m, batch)|
    ensures s.recovered == |RecoverableRows(pass, m, batch)|
    ensures s.locked + s.notStale == |batch| - s.active - s.failed - s.recovered
  {
    forall i | 0 <= i < |batch|
      ensures (VerdictOf(pass, m, batch[i]) == FoundActive <==> i in LiveRows(m, batch))
      ensures (VerdictOf(pass, m, batch[i]) == GivenUp <==> i in LostRows(pass, m, batch))
      ensures (VerdictOf(pass, m, batch[i]) == Recovered <==> i in RecoverableRows(pass, m, batch))
      ensures VerdictOf(pass, m, batch[i]) != AlreadyFinished
    {
      VerdictInNumbers(pass.cfg, pass.now, m.rows[batch[i]].row, batch[i] in m.live, batch[i] in m.lockable);
    }
    TallyCounts(pass, m, batch, FoundActive);
    TallyCounts(pass, m, batch, GivenUp);
    TallyCounts(pass, m, batch, Recovered);
    TallyCounts(pass, m, batch, AlreadyFinished);
    assert Places(pass, m, batch, FoundActive) == LiveRows(m, batch);
    assert Places(pass, m, batch, GivenUp) == LostRows(pass, m, batch);
    assert Places(pass, m, batch, Recovered) == RecoverableRows(pass, m, batch);
    assert Places(pass, m, batch, AlreadyFinished) == {};
  }

  // ----- every treatment is a run of the protocol -----

  /** A preview that nobody is holding, as the reconciler's session finds it. */
  predicate Found(p: P.Preview, row: Row, s: P.SessionId) {
    p.issued && p.row == Some(row) && p.lock.None? && s !in p.sessions
  }

  /** The same preview while the session holds its lock. */
  function Held(p: P.Preview, row: Row, s: P.SessionId, activity: P.Activity): P.Preview {
    With(p, row, s, activity).(lock := Some(s))
  }

  /** How often RQ will retry what the reconciler enqueues. */
  function RecoveryRetries(cfg: P.Config, row: Row): Option<nat> {
    var retry := RecoveryCall(cfg, [], 0, row.attempts).retry;
    if retry.Some? then Some(retry.value.max) else None
  }

  lemma HeldAgain(p: P.Preview, row: Row, s: P.SessionId, a: P.Activity, row': Row, b: P.Activity)
    ensures P.Become(Held(p, row, s, a), s, b).(row := Some(row')) == Held(p, row', s, b)
  {
    WithAgain(p, row, s, a, row', b);
  }

  lemma Locking(cfg: P.Config, p: P.Preview, row: Row, s: P.SessionId)
    requires Found(p, row, s)
    ensures Continue(cfg, p, [P.RecLock(s)]) == Some(Held(p, row, s, P.RecLocked))
  {
    OneMoreStep(cfg, p, [], P.RecLock(s), p);
    assert [] + [P.RecLock(s)] == [P.RecLock(s)];
  }

  lemma Looking(cfg: P.Config, p: P.Preview, row: Row, s: P.SessionId)
    requires Found(p, row, s)
    ensures Continue(cfg, p, [P.RecLock(s)] + [P.RecRefresh(s)])
            == Some(Held(p, row, s, if row.Terminal() then P.RecReleasing else P.RecRefreshed(row)))
  {
    Locking(cfg, p, row, s);
    OneMoreStep(cfg, p, [P.RecLock(s)], P.RecRefresh(s), Held(p, row, s, P.RecLocked));
    HeldAgain(p, row, s, P.RecLocked, row, if row.Terminal() then P.RecReleasing else P.RecRefreshed(row));
  }

  lemma Scanning(cfg: P.Config, p: P.Preview, row: Row, s: P.SessionId)
    requires Found(p, row, s) && !row.Terminal()
    ensures Continue(cfg, p, [P.RecLock(s)] + [P.RecRefresh(s)] + [P.RecScan(s)])
            == Some(Held(p, row, s, if p.live != map[] then P.RecReleasing else P.RecScanned(row)))
  {
    Looking(cfg, p, row, s);
    OneMoreStep(cfg, p, [P.RecLock(s)] + [P.RecRefresh(s)], P.RecScan(s), Held(p, row, s, P.RecRefreshed(row)));
    HeldAgain(p, row, s, P.RecRefreshed(row), row, P.RecReleasing);
    HeldAgain(p, row, s, P.RecRefreshed(row), row, P.RecScanned(row));
  }

  lemma Releasing(cfg: P.Config, p: P.Preview, steps: seq<P.Step>, row: Row, s: P.SessionId, live: map<P.RqId, P.RqJob>)
    requires p.lock.None? && s !in p.sessions
    requires Continue(cfg, p, steps) == Some(Held(p, row, s, P.RecReleasing).(live := live))
    ensures Continue(cfg, p, steps + [P.RecRelease(s)]) == Some(p.(row := Some(row), live := live))
  {
    OneMoreStep(cfg, p, steps, P.RecRelease(s), Held(p, row, s, P.RecReleasing).(live := live));
    assert p.sessions[s := P.RecReleasing] - {s} == p.sessions;
  }

  /** Finding a finished row, or a live job, is a run of the protocol that changes nothing. */
  lemma LeavingAloneIsRun(cfg: P.Config, p: P.Preview, row: Row, s: P.SessionId)
    requires Found(p, row, s) && (row.Terminal() || p.live != map[])
    ensures Continue(cfg, p, [P.RecLock(s)] + [P.RecRefresh(s)] + (if row.Terminal() then [] else [P.RecScan(s)])
                             + [P.RecRelease(s)])
            == Some(p)
  {
    if row.Terminal() {
      Looking(cfg, p, row, s);
      assert [P.RecLock(s)] + [P.RecRefresh(s)] + [] == [P.RecLock(s)] + [P.RecRefresh(s)];
      Releasing(cfg, p, [P.RecLock(s)] + [P.RecRefresh(s)], row, s, p.live);
    } else {
      Scanning(cfg, p, row, s);
      Releasing(cfg, p, [P.RecLock(s)] + [P.RecRefresh(s)] + [P.RecScan(s)], row, s, p.live);
    }
  }

  /** Giving a row up is a run of the protocol. */
  lemma GivingUpIsRun(cfg: P.Config, p: P.Preview, row: Row, s: P.SessionId, now: int, clock: int)
    requires Found(p, row, s) && Verdict(cfg, now, row, p.live != map[], true).GivenUp?
    ensures Continue(cfg, p, [P.RecLock(s)] + [P.RecRefresh(s)] + [P.RecScan(s)] + [P.RecFail(s, now, clock)]
                             + [P.RecRelease(s)])
            == Some(p.(row := Some(RowAfter(GivenUp, row, clock))))
  {
    var steps := [P.RecLock(s)] + [P.RecRefresh(s)] + [P.RecScan(s)];
    Scanning(cfg, p, row, s);
    OneMoreStep(cfg, p, steps, P.RecFail(s, now, clock), Held(p, row, s, P.RecScanned(row)));
    var failed := RowAfter(GivenUp, row, clock);
    HeldAgain(p, row, s, P.RecScanned(row), failed, P.RecReleasing);
    Releasing(cfg, p, steps + [P.RecFail(s, now, clock)], failed, s, p.live);
  }

  /** From the scan of a row to be recovered to the moment before it is enqueued. */
  function Requeueing(row: Row, s: P.SessionId, now: int): seq<P.Step> {
    if row.status.Running? then [P.RecRequeue(s, now)] + [P.RecRefreshAgain(s)] else [P.RecKeepQueued(s, now)]
  }

  lemma ToQueuedIsRun(cfg: P.Config, p: P.Preview, row: Row, s: P.SessionId, now: int, clock: int)
    requires Found(p, row, s) && Verdict(cfg, now, row, p.live != map[], true).Recovered? && row.status.Running?
    ensures Continue(cfg, p, [P.RecLock(s)] + [P.RecRefresh(s)] + [P.RecScan(s)] + [P.RecRequeue(s, now)])
            == Some(Held(p, RowAfter(Recovered, row, clock), s, P.RecRequeued(row)))
  {
    Scanning(cfg, p, row, s);
    OneMoreStep(cfg, p, [P.RecLock(s)] + [P.RecRefresh(s)] + [P.RecScan(s)], P.RecRequeue(s, now),
        Held(p, row, s, P.RecScanned(row)));
    HeldAgain(p, row, s, P.RecScanned(row), RowAfter(Recovered, row, clock), P.RecRequeued(row));
  }

  lemma RequeueingIsRun(cfg: P.Config, p: P.Preview, row: Row, s: P.SessionId, now: int, clock: int)
    requires Found(p, row, s) && Verdict(cfg, now, row, p.live != map[], true).Recovered?
    ensures Continue(cfg, p, [P.RecLock(s)] + [P.RecRefresh(s)] + [P.RecScan(s)] + Requeueing(row, s, now))
            == Some(Held(p, RowAfter(Recovered, row, clock), s, P.RecReady(row.attempts)))
  {
    var steps := [P.RecLock(s)] + [P.RecRefresh(s)] + [P.RecScan(s)];
    var queued := RowAfter(Recovered, row, clock);
    if row.status.Running? {
      ToQueuedIsRun(cfg, p, row, s, now, clock);
      OneMoreStep(cfg, p, steps + [P.RecRequeue(s, now)], P.RecRefreshAgain(s), Held(p, queued, s, P.RecRequeued(row)));
      HeldAgain(p, queued, s, P.RecRequeued(row), queued, P.RecReady(row.attempts));
      assert steps + Requeueing(row, s, now) == steps + [P.RecRequeue(s, now)] + [P.RecRefreshAgain(s)];
    } else {
      Scanning(cfg, p, row, s);
      OneMoreStep(cfg, p, steps, P.RecKeepQueued(s, now), Held(p, row, s, P.RecScanned(row)));
      HeldAgain(p, row, s, P.RecScanned(row), row, P.RecReady(row.attempts));
    }
  }

  /** Recovering a row is a run of the protocol, with the very retries that the queue is asked for. */
  lemma RecoveringIsRun(cfg: P.Config, p: P.Preview, row: Row, s: P.SessionId, rq: P.RqId, now: int, clock: int)
    requires Found(p, row, s) && Verdict(cfg, now, row, p.live != map[], true).Recovered?
    ensures Continue(cfg, p, [P.RecLock(s)] + [P.RecRefresh(s)] + [P.RecScan(s)] + Requeueing(row, s, now)
                             + [P.RecEnqueue(s, rq)] + [P.RecRelease(s)])
            == Some(p.(row := Some(RowAfter(Recovered, row, clock)),
                       live := map[rq := P.RqJob(RecoveryRetries(cfg, row), P.Waiting)]))
  {
    var steps := [P.RecLock(s)] + [P.RecRefresh(s)] + [P.RecScan(s)] + Requeueing(row, s, now);
    var queued := RowAfter(Recovered, row, clock);
    var live := map[rq := P.RqJob(RecoveryRetries(cfg, row), P.Waiting)];
    RequeueingIsRun(cfg, p, row, s, now, clock);
    var ready := Held(p, queued, s, P.RecReady(row.attempts));
    OneMoreStep(cfg, p, steps, P.RecEnqueue(s, rq), ready);
    HeldAgain(p, queued, s, P.RecReady(row.attempts), queued, P.RecReleasing);
    assert P.Apply(cfg, ready, P.RecEnqueue(s, rq)) == Held(p, queued, s, P.RecReleasing).(live := live);
    Releasing(cfg, p, steps + [P.RecEnqueue(s, rq)], queued, s, live);
  }
}
