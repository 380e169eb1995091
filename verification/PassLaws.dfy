/** A whole pass of reconciliation, over rows, queue and locks, is a run of the system of all previews. */
module PassLaws {
  import opened Wrappers
  import opened JobRow
  import opened JobStore
  import opened PreviewQueue
  import opened Reconciler
  import opened ReconcilerLaws
  import P = Protocol
  import opened ProtocolLaws

  // ----- what a moment shows of a system -----

  /** The live job of a preview has been enqueued with at least the retries that it has left. */
  predicate Backs(call: RqCall, job: P.RqJob) {
    && (job.retriesLeft.Some? <==> call.retry.Some?)
    && (job.retriesLeft.Some? ==> job.retriesLeft.value <= call.retry.value.max)
  }

  /** One preview: its row, whether it is live, its entries in the queue, and its lock while `s` may take it. */
  ghost predicate Shows(m: Moment, p: P.Preview, id: JobId, s: P.SessionId) {
    && p.row == RowOf(m.rows, id)
    && (p.row.Some? ==> p.issued)
    && (p.live != map[] <==> id in m.live)
    && (forall r :: r in m.queued && r in m.jobs && m.jobs[r].Concerns(id) ==>
          r in p.live && p.live[r].phase.Waiting? && Backs(m.jobs[r], p.live[r]))
    && s !in p.sessions
    && (id in m.lockable ==> p.lock.None?)
  }

  /** The stores at a moment are those of a system in which session `s` is doing nothing yet. */
  ghost predicate Abstracts(m: Moment, system: System, s: P.SessionId) {
    forall id: JobId :: Shows(m, StateOf(system, id), id, s)
  }

  // ----- one candidate -----

  /** What the pass makes of a preview; `rq` is the id that RQ draws if it is recovered. */
  function TreatedPreview(pass: Pass, outcome: Outcome, p: P.Preview, row: Row, rq: RqId, clock: int): P.Preview {
    match outcome
    case GivenUp => p.(row := Some(RowAfter(GivenUp, row, clock)))
    case Recovered =>
      p.(row := Some(RowAfter(Recovered, row, clock)),
         live := map[rq := P.RqJob(RecoveryRetries(pass.cfg, row), P.Waiting)])
    case _ => p
  }

  lemma TreatmentIsRun(pass: Pass, m: Moment, p: P.Preview, id: JobId, s: P.SessionId, rq: RqId, clock: int)
    returns (steps: seq<P.Step>)
    requires Shows(m, p, id, s) && Nonterminal(m.rows, id)
    ensures Continue(pass.cfg, p, steps)
            == Some(TreatedPreview(pass, VerdictOf(pass, m, id), p, m.rows[id].row, rq, clock))
  {
    var row, now := m.rows[id].row, pass.now;
    var looks := [P.RecLock(s)] + [P.RecRefresh(s)] + [P.RecScan(s)];
    match VerdictOf(pass, m, id)
    case GivenUp =>
      GivingUpIsRun(pass.cfg, p, row, s, now, clock);
      steps := looks + [P.RecFail(s, now, clock)] + [P.RecRelease(s)];
    case Recovered =>
      RecoveringIsRun(pass.cfg, p, row, s, rq, now, clock);
      steps := looks + Requeueing(row, s, now) + [P.RecEnqueue(s, rq)] + [P.RecRelease(s)];
    case _ => steps := [];
  }

  // ----- the whole batch -----

  /** The recovered candidates, in the order in which RQ draws the ids of their jobs. */
  ghost predicate Recovers(pass: Pass, m: Moment, batch: seq<JobId>, recovered: seq<JobId>)
    requires Listed(m, batch)
  {
    && (forall id :: id in recovered <==> id in batch && VerdictOf(pass, m, id).Recovered?)
    && (forall k, l :: 0 <= k < l < |recovered| ==> recovered[k] != recovered[l])
    && |recovered| <= |batch|
  }

  lemma OneMoreRecovers(pass: Pass, m: Moment, batch: seq<JobId>, n: nat, recovered: seq<JobId>)
    requires Listed(m, batch) && n < |batch| && Recovers(pass, m, batch[..n], recovered)
    ensures VerdictOf(pass, m, batch[n]).Recovered? ==> Recovers(pass, m, batch[..n + 1], recovered + [batch[n]])
    ensures !VerdictOf(pass, m, batch[n]).Recovered? ==> Recovers(pass, m, batch[..n + 1], recovered)
  {
    assert batch[..n + 1] == batch[..n] + [batch[n]];
    assert batch[n] !in batch[..n];
  }

  lemma {:induction false} RecoveriesRecover(pass: Pass, m: Moment, batch: seq<JobId>)
    requires Listed(m, batch)
    ensures Recovers(pass, m, batch, Recoveries(pass, m, batch))
  {
    if batch != [] {
      var n := |batch| - 1;
      RecoveriesRecover(pass, m, batch[..n]);
      OneMoreRecovers(pass, m, batch, n, Recoveries(pass, m, batch[..n]));
      assert batch[..n + 1] == batch;
    }
  }

  /** The place of a member in a sequence. */
  function IndexOf(ids: seq<JobId>, id: JobId): (k: nat)
    requires id in ids
    ensures k < |ids| && ids[k] == id
  {
    if ids[0] == id then 0 else 1 + IndexOf(ids[1..], id)
  }

  /** What the pass makes of the candidate at `j`. */
  function TreatedAt(pass: Pass, m: Moment, batch: seq<JobId>, recovered: seq<JobId>, before: System, j: nat): P.Preview
    requires Listed(m, batch) && j < |batch| <= |pass.clocks| && |recovered| <= |pass.drawn|
  {
    var id := batch[j];
    var drawn := if id in recovered then pass.drawn[IndexOf(recovered, id)] else 0;
    TreatedPreview(pass, VerdictOf(pass, m, id), StateOf(before, id), m.rows[id].row, drawn, pass.clocks[j])
  }

  /** Exactly the first `n` candidates have been treated. */
  ghost predicate TreatedTo(pass: Pass, m: Moment, batch: seq<JobId>, recovered: seq<JobId>, before: System, n: nat,
                            system: System)
    requires Listed(m, batch) && n <= |batch| <= |pass.clocks| && |recovered| <= |pass.drawn|
  {
    && (forall id: JobId :: (forall j :: 0 <= j < n ==> batch[j] != id) ==> StateOf(system, id) == StateOf(before, id))
    && (forall j :: 0 <= j < n ==> StateOf(system, batch[j]) == TreatedAt(pass, m, batch, recovered, before, j))
  }

  lemma TreatedNext(pass: Pass, m: Moment, batch: seq<JobId>, recovered: seq<JobId>, before: System, n: nat,
                    system: System, next: System)
    requires Listed(m, batch) && n < |batch| <= |pass.clocks| && |recovered| <= |pass.drawn|
    requires TreatedTo(pass, m, batch, recovered, before, n, system)
    requires StateOf(next, batch[n]) == TreatedAt(pass, m, batch, recovered, before, n)
    requires forall other :: other != batch[n] ==> StateOf(next, other) == StateOf(system, other)
    ensures TreatedTo(pass, m, batch, recovered, before, n + 1, next)
  {
  }

  lemma TreatNext(pass: Pass, m: Moment, batch: seq<JobId>, recovered: seq<JobId>, before: System, s: P.SessionId,
                  n: nat, steps: seq<(JobId, P.Step)>, system: System)
    returns (more: seq<(JobId, P.Step)>, next: System)
    requires Listed(m, batch) && n < |batch| <= |pass.clocks| && |recovered| <= |pass.drawn|
    requires Abstracts(m, before, s) && Nonterminal(m.rows, batch[n])
    requires SystemContinue(pass.cfg, before, steps) == Some(system)
    requires TreatedTo(pass, m, batch, recovered, before, n, system)
    ensures SystemContinue(pass.cfg, before, more) == Some(next)
    ensures TreatedTo(pass, m, batch, recovered, before, n + 1, next)
  {
    var id := batch[n];
    assert Shows(m, StateOf(before, id), id, s);
    assert StateOf(system, id) == StateOf(before, id);
    var drawn := if id in recovered then pass.drawn[IndexOf(recovered, id)] else 0;
    var own := TreatmentIsRun(pass, m, StateOf(before, id), id, s, drawn, pass.clocks[n]);
    more, next := RunOfOne(pass.cfg, before, steps, system, id, own);
    TreatedNext(pass, m, batch, recovered, before, n, system, next);
  }

  // ----- what the pass leaves shows the system that its run leads to -----

  /** The queue before and after the pass: one new entry for each of the recovered candidates. */
  ghost predicate Extended(pass: Pass, m: Moment, recovered: seq<JobId>, after: Moment) {
    && (forall id :: id in recovered ==> id in m.rows) && |recovered| <= |pass.drawn|
    && (forall k, l :: 0 <= k < l < |recovered| ==> recovered[k] != recovered[l])
    && QueueTreated(pass, m, recovered, after) && Unused(pass.drawn, m)
  }

  lemma NewEntry(pass: Pass, m: Moment, recovered: seq<JobId>, after: Moment, id: JobId, r: RqId)
    requires Extended(pass, m, recovered, after)
    requires r in after.jobs && r !in m.jobs && after.jobs[r].Concerns(id)
    ensures id in recovered && r == pass.drawn[IndexOf(recovered, id)]
    ensures after.jobs[r] == RecoveryCall(pass.cfg, pass.intervals, id, m.rows[id].row.attempts)
  {
    var k :| 0 <= k < |recovered| && pass.drawn[k] == r;
    assert recovered[k] == id;
  }

  lemma OldEntry(pass: Pass, m: Moment, recovered: seq<JobId>, after: Moment, r: RqId)
    requires Extended(pass, m, recovered, after) && r in after.queued && r in m.jobs
    ensures r in m.queued && r in after.jobs && after.jobs[r] == m.jobs[r]
  {
  }

  lemma RecoveryBacks(cfg: P.Config, intervals: seq<nat>, id: JobId, row: Row)
    ensures Backs(RecoveryCall(cfg, intervals, id, row.attempts), P.RqJob(RecoveryRetries(cfg, row), P.Waiting))
  {
  }

  /** The stores before and after the pass, and the recovered candidates. */
  ghost predicate PassedBy(pass: Pass, m: Moment, batch: seq<JobId>, recovered: seq<JobId>, after: Moment) {
    && Listed(m, batch) && |batch| <= |pass.clocks|
    && Recovers(pass, m, batch, recovered)
    && RowsTreated(pass, m, batch, after.rows) && Extended(pass, m, recovered, after)
    && after.lockable == m.lockable
  }

  lemma Passed(pass: Pass, m: Moment, batch: seq<JobId>, after: Moment) returns (recovered: seq<JobId>)
    requires Reconciled(pass, m, batch, after) && Unused(pass.drawn, m)
    ensures recovered == Recoveries(pass, m, batch) && PassedBy(pass, m, batch, recovered, after)
  {
    recovered := Recoveries(pass, m, batch);
    RecoveriesRecover(pass, m, batch);
  }

  lemma UnrecoveredEntries(pass: Pass, m: Moment, batch: seq<JobId>, recovered: seq<JobId>, after: Moment,
                           p: P.Preview, id: JobId, s: P.SessionId, r: RqId)
    requires PassedBy(pass, m, batch, recovered, after) && Shows(m, p, id, s) && id !in recovered
    requires r in after.queued && r in after.jobs && after.jobs[r].Concerns(id)
    ensures r in p.live && p.live[r].phase.Waiting? && Backs(after.jobs[r], p.live[r])
  {
    if r !in m.jobs {
      NewEntry(pass, m, recovered, after, id, r);
    } else {
      OldEntry(pass, m, recovered, after, r);
    }
  }

  /** A preview that is not live has no entry in the queue. */
  lemma NoEntry(m: Moment, p: P.Preview, id: JobId, s: P.SessionId, r: RqId)
    requires Shows(m, p, id, s) && id !in m.live && r in m.queued && r in m.jobs
    ensures !m.jobs[r].Concerns(id)
  {
  }

  /** So a recovery gives it its only one. */
  lemma RecoveredEntries(pass: Pass, m: Moment, recovered: seq<JobId>, after: Moment, p: P.Preview, id: JobId,
                         s: P.SessionId, r: RqId)
    requires Extended(pass, m, recovered, after)
    requires Shows(m, p, id, s) && id in recovered && id !in m.live
    requires r in after.queued && r in after.jobs && after.jobs[r].Concerns(id)
    ensures r == pass.drawn[IndexOf(recovered, id)]
    ensures Backs(after.jobs[r], P.RqJob(RecoveryRetries(pass.cfg, m.rows[id].row), P.Waiting))
  {
    RecoveryBacks(pass.cfg, pass.intervals, id, m.rows[id].row);
    if r !in m.jobs {
      NewEntry(pass, m, recovered, after, id, r);
    } else {
      OldEntry(pass, m, recovered, after, r);
      NoEntry(m, p, id, s, r);
    }
  }

  lemma UnlistedShows(pass: Pass, m: Moment, batch: seq<JobId>, recovered: seq<JobId>, after: Moment, p: P.Preview,
                      id: JobId, s: P.SessionId)
    requires PassedBy(pass, m, batch, recovered, after) && Shows(m, p, id, s) && id !in batch
    ensures Shows(after, p, id, s)
  {
    forall r | r in after.queued && r in after.jobs && after.jobs[r].Concerns(id)
      ensures r in p.live && p.live[r].phase.Waiting? && Backs(after.jobs[r], p.live[r])
    {
      UnrecoveredEntries(pass, m, batch, recovered, after, p, id, s, r);
    }
  }

  lemma UnrecoveredShows(pass: Pass, m: Moment, batch: seq<JobId>, recovered: seq<JobId>, after: Moment, p: P.Preview,
                         j: nat, s: P.SessionId)
    requires PassedBy(pass, m, batch, recovered, after) && j < |batch| && Shows(m, p, batch[j], s)
    requires !VerdictOf(pass, m, batch[j]).Recovered?
    ensures Shows(after, p.(row := RowOf(after.rows, batch[j])), batch[j], s)
  {
    forall r | r in after.queued && r in after.jobs && after.jobs[r].Concerns(batch[j])
      ensures r in p.live && p.live[r].phase.Waiting? && Backs(after.jobs[r], p.live[r])
    {
      UnrecoveredEntries(pass, m, batch, recovered, after, p, batch[j], s, r);
    }
  }

  lemma ShowsOneEntry(m: Moment, after: Moment, p: P.Preview, q: P.Preview, id: JobId, s: P.SessionId, rq: RqId,
                      job: P.RqJob)
    requires Shows(m, p, id, s) && job.phase.Waiting? && id in m.rows && id in after.live
    requires q == p.(row := RowOf(after.rows, id), live := map[rq := job])
    requires after.lockable == m.lockable
    requires forall r :: r in after.queued && r in after.jobs && after.jobs[r].Concerns(id) ==>
               r == rq && Backs(after.jobs[r], job)
    ensures Shows(after, q, id, s)
  {
    assert rq in map[rq := job];
  }

  lemma RecoveredGoesLive(pass: Pass, m: Moment, batch: seq<JobId>, recovered: seq<JobId>, after: Moment, id: JobId)
    requires Listed(m, batch) && Recovers(pass, m, batch, recovered)
    requires Extended(pass, m, recovered, after) && id in recovered
    ensures id in m.rows && id !in m.live && id in after.live
  {
    assert VerdictOf(pass, m, id).Recovered?;
  }

  lemma OnlyEntry(pass: Pass, m: Moment, recovered: seq<JobId>, after: Moment, p: P.Preview, id: JobId,
                  s: P.SessionId, rq: RqId, job: P.RqJob)
    requires Extended(pass, m, recovered, after)
    requires Shows(m, p, id, s) && id in recovered && id !in m.live
    requires rq == pass.drawn[IndexOf(recovered, id)]
    requires job == P.RqJob(RecoveryRetries(pass.cfg, m.rows[id].row), P.Waiting)
    ensures forall r :: r in after.queued && r in after.jobs && after.jobs[r].Concerns(id) ==>
              r == rq && Backs(after.jobs[r], job)
  {
    forall r | r in after.queued && r in after.jobs && after.jobs[r].Concerns(id)
      ensures r == rq && Backs(after.jobs[r], job)
    {
      RecoveredEntries(pass, m, recovered, after, p, id, s, r);
    }
  }

  lemma RecoveredShows(pass: Pass, m: Moment, recovered: seq<JobId>, after: Moment, p: P.Preview, q: P.Preview,
                       id: JobId, s: P.SessionId, rq: RqId, job: P.RqJob)
    requires Extended(pass, m, recovered, after) && after.lockable == m.lockable
    requires Shows(m, p, id, s) && id in recovered && id !in m.live && id in after.live
    requires rq == pass.drawn[IndexOf(recovered, id)]
    requires job == P.RqJob(RecoveryRetries(pass.cfg, m.rows[id].row), P.Waiting)
    requires q == p.(row := RowOf(after.rows, id), live := map[rq := job])
    ensures Shows(after, q, id, s)
  {
    OnlyEntry(pass, m, recovered, after, p, id, s, rq, job);
    ShowsOneEntry(m, after, p, q, id, s, rq, job);
  }

  lemma TreatedPreviewRow(pass: Pass, outcome: Outcome, p: P.Preview, row: Row, rq: RqId, clock: int)
    requires p.row == Some(row)
    ensures var q := p.(row := Some(RowAfter(outcome, row, clock)));
            TreatedPreview(pass, outcome, p, row, rq, clock)
            == if outcome.Recovered? then q.(live := map[rq := P.RqJob(RecoveryRetries(pass.cfg, row), P.Waiting)])
               else q
  {
  }

  /** What is made of a preview, in terms of the row that the pass leaves. */
  lemma TreatedAsRow(pass: Pass, m: Moment, batch: seq<JobId>, recovered: seq<JobId>, after: Moment, before: System,
                     j: nat, rq: RqId, job: P.RqJob)
    returns (q: P.Preview)
    requires Listed(m, batch) && j < |batch| <= |pass.clocks| && |recovered| <= |pass.drawn|
    requires RowsTreated(pass, m, batch, after.rows) && StateOf(before, batch[j]).row == RowOf(m.rows, batch[j])
    requires batch[j] in recovered <==> VerdictOf(pass, m, batch[j]).Recovered?
    requires batch[j] in recovered ==> rq == pass.drawn[IndexOf(recovered, batch[j])]
    requires job == P.RqJob(RecoveryRetries(pass.cfg, m.rows[batch[j]].row), P.Waiting)
    ensures q == TreatedAt(pass, m, batch, recovered, before, j)
    ensures var p := StateOf(before, batch[j]);
            q == if batch[j] in recovered then p.(row := RowOf(after.rows, batch[j]), live := map[rq := job])
                 else p.(row := RowOf(after.rows, batch[j]))
  {
    var id := batch[j];
    assert after.rows[id] == Treated(pass, m, id, pass.clocks[j]);
    TreatedPreviewRow(pass, VerdictOf(pass, m, id), StateOf(before, id), m.rows[id].row,
                      if id in recovered then pass.drawn[IndexOf(recovered, id)] else 0, pass.clocks[j]);
    q := TreatedAt(pass, m, batch, recovered, before, j);
  }

  lemma ListedShows(pass: Pass, m: Moment, batch: seq<JobId>, recovered: seq<JobId>, after: Moment, before: System,
                    j: nat, s: P.SessionId)
    returns (q: P.Preview)
    requires PassedBy(pass, m, batch, recovered, after) && j < |batch|
    requires Shows(m, StateOf(before, batch[j]), batch[j], s)
    ensures q == TreatedAt(pass, m, batch, recovered, before, j) && Shows(after, q, batch[j], s)
  {
    var id, p := batch[j], StateOf(before, batch[j]);
    var rq := if id in recovered then pass.drawn[IndexOf(recovered, id)] else 0;
    var job := P.RqJob(RecoveryRetries(pass.cfg, m.rows[id].row), P.Waiting);
    q := TreatedAsRow(pass, m, batch, recovered, after, before, j, rq, job);
    if VerdictOf(pass, m, id).Recovered? {
      RecoveredGoesLive(pass, m, batch, recovered, after, id);
      RecoveredShows(pass, m, recovered, after, p, q, id, s, rq, job);
    } else {
      UnrecoveredShows(pass, m, batch, recovered, after, p, j, s);
    }
  }

  lemma PassShows(pass: Pass, m: Moment, batch: seq<JobId>, recovered: seq<JobId>, after: Moment, before: System,
                  system: System, s: P.SessionId, id: JobId)
    requires PassedBy(pass, m, batch, recovered, after) && Abstracts(m, before, s)
    requires TreatedTo(pass, m, batch, recovered, before, |batch|, system)
    ensures Shows(after, StateOf(system, id), id, s)
  {
    if id in batch {
      var j :| 0 <= j < |batch| && batch[j] == id;
      assert Shows(m, StateOf(before, batch[j]), batch[j], s);
      var _ := ListedShows(pass, m, batch, recovered, after, before, j, s);
    } else {
      assert Shows(m, StateOf(before, id), id, s);
      UnlistedShows(pass, m, batch, recovered, after, StateOf(before, id), id, s);
    }
  }

  /**
   When the stores show a system, what a pass makes of them shows where some run of that system leads: to the
   same previews, but for those it gives up, and those it recovers with the retries that they have left.
   */
  lemma PassIsRun(pass: Pass, m: Moment, batch: seq<JobId>, after: Moment, before: System, s: P.SessionId)
    returns (steps: seq<(JobId, P.Step)>, system: System)
    requires Reconciled(pass, m, batch, after) && Unused(pass.drawn, m) && Abstracts(m, before, s)
    requires forall i :: 0 <= i < |batch| ==> Nonterminal(m.rows, batch[i])
    ensures SystemContinue(pass.cfg, before, steps) == Some(system)
    ensures TreatedTo(pass, m, batch, Recoveries(pass, m, batch), before, |batch|, system)
    ensures Abstracts(after, system, s)
  {
    var recovered := Passed(pass, m, batch, after);
    steps, system := [], before;
    for n := 0 to |batch|
      invariant SystemContinue(pass.cfg, before, steps) == Some(system)
      invariant TreatedTo(pass, m, batch, recovered, before, n, system)
    {
      steps, system := TreatNext(pass, m, batch, recovered, before, s, n, steps, system);
    }
    forall id: JobId
      ensures Shows(after, StateOf(system, id), id, s)
    {
      PassShows(pass, m, batch, recovered, after, before, system, s, id);
    }
  }

  /** So in a reachable system the invariant of every preview survives the pass. */
  lemma PassKeepsSystem(pass: Pass, m: Moment, batch: seq<JobId>, after: Moment, before: System, s: P.SessionId)
    returns (system: System)
    requires Reconciled(pass, m, batch, after) && Unused(pass.drawn, m) && Abstracts(m, before, s)
    requires forall i :: 0 <= i < |batch| ==> Nonterminal(m.rows, batch[i])
    requires forall id: JobId :: P.Inv(pass.cfg, StateOf(before, id))
    ensures Abstracts(after, system, s) && forall id: JobId :: P.Inv(pass.cfg, StateOf(system, id))
  {
    var steps;
    steps, system := PassIsRun(pass, m, batch, after, before, s);
    forall id: JobId
      ensures P.Inv(pass.cfg, StateOf(system, id))
    {
      PreviewsAreIndependent(pass.cfg, before, steps, id);
      RunKeeps(pass.cfg, StateOf(before, id), Own(steps, id));
    }
  }
}
