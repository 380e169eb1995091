/** When rows are given up, recovered and retried, over whole runs and in numbers: attempts, times and retries. */
module RecoveryLaws {
  import opened Wrappers
  import opened JobRow
  import opened Protocol
  import opened ProtocolLaws

  // ----- what a reconciler remembers of the row -----

  function Seen(activity: Activity): Option<Row> {
    match activity
    case RecRefreshed(seen) => Some(seen)
    case RecScanned(seen) => Some(seen)
    case RecRequeued(seen) => Some(seen)
    case _ => None
  }

  /** The times of the row as seen are still its times. */
  predicate Recalls(row: Row, seen: Row) {
    && seen.createdAt == row.createdAt && seen.expiresAt == row.expiresAt
    && (row.status.Running? ==> seen.startedAt == row.startedAt)
  }

  ghost predicate AllRecall(p: Preview) {
    forall s :: s in p.sessions && Seen(p.sessions[s]).Some? && p.row.Some? ==>
      Recalls(p.row.value, Seen(p.sessions[s]).value)
  }

  lemma StartingSeesNothing(cfg: Config, p: Preview, step: Step, t: SessionId)
    requires (step.BeforeClaim() || step.AfterClaim()) && Enabled(cfg, p, step)
    requires t in Apply(cfg, p, step).sessions && Seen(Apply(cfg, p, step).sessions[t]).Some?
    ensures t in p.sessions && p.sessions[t] == Apply(cfg, p, step).sessions[t]
  {
  }

  lemma LeavingSeesNothing(cfg: Config, p: Preview, step: Step, t: SessionId)
    requires step.Leaving() && LeavingEnabled(cfg, p, step)
    requires t in ApplyLeaving(cfg, p, step).sessions && Seen(ApplyLeaving(cfg, p, step).sessions[t]).Some?
    ensures t in p.sessions && p.sessions[t] == ApplyLeaving(cfg, p, step).sessions[t]
  {
  }

  lemma OthersSeeNothing(cfg: Config, p: Preview, step: Step, t: SessionId)
    requires (step.BySubmitter() || step.ByRq()) && Enabled(cfg, p, step)
    requires t in Apply(cfg, p, step).sessions && Seen(Apply(cfg, p, step).sessions[t]).Some?
    ensures t in p.sessions && p.sessions[t] == Apply(cfg, p, step).sessions[t]
  {
  }

  lemma LookingSees(cfg: Config, p: Preview, step: Step, t: SessionId)
    requires step.ReconcilerLooks() && LooksEnabled(cfg, p, step)
    requires t in ApplyLooks(cfg, p, step).sessions && Seen(ApplyLooks(cfg, p, step).sessions[t]).Some?
    ensures || (step == RecRefresh(t) && p.row == Seen(ApplyLooks(cfg, p, step).sessions[t]))
            || (t in p.sessions && Seen(p.sessions[t]) == Seen(ApplyLooks(cfg, p, step).sessions[t]))
  {
  }

  lemma ActingSees(cfg: Config, p: Preview, step: Step, t: SessionId)
    requires step.ReconcilerActs() && ActsEnabled(cfg, p, step)
    requires t in ApplyActs(cfg, p, step).sessions && Seen(ApplyActs(cfg, p, step).sessions[t]).Some?
    ensures t in p.sessions && Seen(p.sessions[t]) == Seen(ApplyActs(cfg, p, step).sessions[t])
  {
  }

  /** What a session has seen, it sees now, or has seen before. */
  lemma SeenComesFrom(cfg: Config, p: Preview, step: Step, t: SessionId)
    requires Enabled(cfg, p, step)
    requires t in Apply(cfg, p, step).sessions && Seen(Apply(cfg, p, step).sessions[t]).Some?
    ensures || (step == RecRefresh(t) && p.row == Seen(Apply(cfg, p, step).sessions[t]))
            || (t in p.sessions && Seen(p.sessions[t]) == Seen(Apply(cfg, p, step).sessions[t]))
  {
    if step.BeforeClaim() || step.AfterClaim() {
      StartingSeesNothing(cfg, p, step, t);
    } else if step.Leaving() {
      LeavingSeesNothing(cfg, p, step, t);
    } else if step.BySubmitter() || step.ByRq() {
      OthersSeeNothing(cfg, p, step, t);
    } else if step.ReconcilerLooks() {
      LookingSees(cfg, p, step, t);
    } else {
      ActingSees(cfg, p, step, t);
    }
  }

  /** While a reconciler holds the lock and remembers a row, nobody claims it or stores it anew. */
  lemma SeenTimesStay(cfg: Config, p: Preview, step: Step, t: SessionId)
    requires Inv(cfg, p) && Enabled(cfg, p, step) && t in p.sessions && Seen(p.sessions[t]).Some?
    requires p.row.Some? ==> Recalls(p.row.value, Seen(p.sessions[t]).value)
    ensures Apply(cfg, p, step).row.Some? ==> Recalls(Apply(cfg, p, step).row.value, Seen(p.sessions[t]).value)
  {
    StepMoves(cfg, p, step);
    assert p.lock == Some(t);
    if step.SubmitPersist? || step.ClaimJob? {
      assert p.lock == Some(step.s);
    }
  }

  lemma StepRecalls(cfg: Config, p: Preview, step: Step)
    requires Inv(cfg, p) && Enabled(cfg, p, step) && AllRecall(p)
    ensures AllRecall(Apply(cfg, p, step))
  {
    var q := Apply(cfg, p, step);
    forall t | t in q.sessions && Seen(q.sessions[t]).Some? && q.row.Some?
      ensures Recalls(q.row.value, Seen(q.sessions[t]).value)
    {
      SeenComesFrom(cfg, p, step, t);
      if step == RecRefresh(t) {
        assert q.row == p.row;
      } else {
        SeenTimesStay(cfg, p, step, t);
      }
    }
  }

  lemma {:induction false} RunRecalls(cfg: Config, steps: seq<Step>)
    requires Replay(cfg, steps).Some?
    ensures AllRecall(Replay(cfg, steps).value)
  {
    if steps != [] {
      var shorter := steps[..|steps| - 1];
      RunRecalls(cfg, shorter);
      RunKeeps(cfg, NO_PREVIEW, shorter);
      StepRecalls(cfg, Replay(cfg, shorter).value, steps[|steps| - 1]);
    }
  }

  // ----- giving up and recovering, in numbers -----

  /** What the session remembers, where it decides, is the attempts and the times of the row. */
  lemma DecidesByTheRow(cfg: Config, p: Preview, s: SessionId) returns (seen: Row)
    requires Inv(cfg, p) && AllRecall(p) && p.row.Some? && s in p.sessions && p.sessions[s].RecScanned?
    ensures p.sessions[s] == RecScanned(seen) && !seen.Terminal()
    ensures seen.attempts == p.row.value.attempts && Recalls(p.row.value, seen)
    ensures p.row.value.status.Running? ==> seen.status.Running? && p.row.value.startedAt.Some?
  {
    assert ActivityOk(cfg, p, p.sessions[s]);
    assert Seen(p.sessions[s]).Some?;
    seen := p.sessions[s].seen;
  }

  /** A row is only given up when it has been claimed once more than there are retries, or has expired. */
  lemma GivesUpOnlyIf(cfg: Config, steps: seq<Step>, s: SessionId, now: int, clock: int)
    requires Replay(cfg, steps).Some? && Enabled(cfg, Replay(cfg, steps).value, RecFail(s, now, clock))
    requires Replay(cfg, steps).value.row.Some?
    ensures Claims(cfg, steps) == cfg.maxRetries + 1 || now >= Replay(cfg, steps).value.row.value.expiresAt
  {
    RunKeeps(cfg, NO_PREVIEW, steps);
    RunRecalls(cfg, steps);
    AttemptBudget(cfg, steps);
    var seen := DecidesByTheRow(cfg, Replay(cfg, steps).value, s);
  }

  lemma RequeueOnlyIf(cfg: Config, p: Preview, s: SessionId, now: int)
    requires Inv(cfg, p) && AllRecall(p) && p.row.Some? && ActsEnabled(cfg, p, RecRequeue(s, now))
    ensures p.row.value.attempts <= cfg.maxRetries && now < p.row.value.expiresAt
    ensures p.row.value.status.Running? ==>
              p.row.value.startedAt.Some? && now >= p.row.value.startedAt.value + cfg.staleAfter
  {
    var seen := DecidesByTheRow(cfg, p, s);
  }

  lemma KeepQueuedOnlyIf(cfg: Config, p: Preview, s: SessionId, now: int)
    requires Inv(cfg, p) && AllRecall(p) && p.row.Some? && LooksEnabled(cfg, p, RecKeepQueued(s, now))
    ensures p.row.value.attempts <= cfg.maxRetries && now < p.row.value.expiresAt
    ensures !p.row.value.status.Running?
  {
    var seen := DecidesByTheRow(cfg, p, s);
  }

  /** A row is only recovered while it has an attempt left and has not expired, and from running only when stale. */
  lemma RecoversOnlyIf(cfg: Config, steps: seq<Step>, step: Step)
    requires step.RecRequeue? || step.RecKeepQueued?
    requires Replay(cfg, steps).Some? && Enabled(cfg, Replay(cfg, steps).value, step)
    requires Replay(cfg, steps).value.row.Some?
    ensures var row := Replay(cfg, steps).value.row.value;
            && Claims(cfg, steps) <= cfg.maxRetries && step.now < row.expiresAt
            && (row.status.Running? ==>
                  step.RecRequeue? && row.startedAt.Some? && step.now >= row.startedAt.value + cfg.staleAfter)
  {
    var p := Replay(cfg, steps).value;
    RunKeeps(cfg, NO_PREVIEW, steps);
    RunRecalls(cfg, steps);
    AttemptBudget(cfg, steps);
    if step.RecRequeue? {
      RequeueOnlyIf(cfg, p, step.s, step.now);
    } else {
      KeepQueuedOnlyIf(cfg, p, step.s, step.now);
    }
  }

  // ----- the retries of an RQ job -----

  /** A submitter asks for every retry that there is. */
  lemma SubmittedRetries(cfg: Config, p: Preview, step: Step, rq: RqId)
    requires Inv(cfg, p) && (step.SubmitEnqueue? || step.SubmitEnqueueFails?) && SubmitterEnabled(cfg, p, step)
    requires rq in ApplySubmitter(cfg, p, step).live
    ensures var job := ApplySubmitter(cfg, p, step).live[rq];
            job.Retries() == cfg.maxRetries && (job.retriesLeft.Some? <==> cfg.maxRetries > 0)
  {
    assert ActivityOk(cfg, p, p.sessions[step.s]);
  }

  /** A reconciler asks for what is left of them. */
  lemma RecoveredRetries(cfg: Config, p: Preview, step: Step, rq: RqId)
    requires Inv(cfg, p) && step.RecEnqueue? && ActsEnabled(cfg, p, step)
    requires rq in ApplyActs(cfg, p, step).live
    ensures var job := ApplyActs(cfg, p, step).live[rq];
            var left := cfg.maxRetries - p.sessions[step.s].attempts;
            left >= 0 && job.Retries() == left && (job.retriesLeft.Some? <==> left > 0)
  {
    assert ActivityOk(cfg, p, p.sessions[step.s]);
  }

  lemma SettledRetries(cfg: Config, p: Preview, step: Step, rq: RqId)
    requires step.ByRq() && RqEnabled(cfg, p, step) && rq in ApplyRq(cfg, p, step).live
    requires forall r1, r2 :: r1 in p.live && r2 in p.live ==> r1 == r2
    ensures rq in p.live
    ensures var job := ApplyRq(cfg, p, step).live[rq];
            if step.Retry? then p.live[rq].Retries() > 0 && job.retriesLeft == Some(p.live[rq].Retries() - 1)
            else job.retriesLeft == p.live[rq].retriesLeft
  {
  }

  lemma LeavingRetries(cfg: Config, p: Preview, step: Step, rq: RqId)
    requires step.Leaving() && LeavingEnabled(cfg, p, step) && rq in ApplyLeaving(cfg, p, step).live
    ensures rq in p.live && ApplyLeaving(cfg, p, step).live[rq].retriesLeft == p.live[rq].retriesLeft
  {
  }

  lemma OtherRetries(cfg: Config, p: Preview, step: Step, rq: RqId)
    requires Enabled(cfg, p, step) && rq in Apply(cfg, p, step).live
    requires !step.ByRq() && !step.Leaving() && !step.RecEnqueue? && !step.SubmitEnqueue? && !step.SubmitEnqueueFails?
    ensures rq in p.live && Apply(cfg, p, step).live[rq].retriesLeft == p.live[rq].retriesLeft
  {
  }

  /** A new job gets every retry that its preview has left; after that RQ takes one away for every retry. */
  lemma RetriesCountDown(cfg: Config, p: Preview, step: Step, rq: RqId)
    requires Inv(cfg, p) && Enabled(cfg, p, step) && rq in Apply(cfg, p, step).live
    ensures var job := Apply(cfg, p, step).live[rq];
            if step.SubmitEnqueue? || step.SubmitEnqueueFails? then
              job.Retries() == cfg.maxRetries && (job.retriesLeft.Some? <==> cfg.maxRetries > 0)
            else if step.RecEnqueue? then
              var left := cfg.maxRetries - p.sessions[step.s].attempts;
              left >= 0 && job.Retries() == left && (job.retriesLeft.Some? <==> left > 0)
            else if step.Retry? then
              rq in p.live && p.live[rq].Retries() > 0 && job.retriesLeft == Some(p.live[rq].Retries() - 1)
            else rq in p.live && job.retriesLeft == p.live[rq].retriesLeft
  {
    if step.SubmitEnqueue? || step.SubmitEnqueueFails? {
      SubmittedRetries(cfg, p, step, rq);
    } else if step.RecEnqueue? {
      RecoveredRetries(cfg, p, step, rq);
    } else if step.ByRq() {
      SettledRetries(cfg, p, step, rq);
    } else if step.Leaving() {
      LeavingRetries(cfg, p, step, rq);
    } else {
      OtherRetries(cfg, p, step, rq);
    }
  }

  /** A job may take over a running row once RQ has retried it, and not on its first execution. */
  lemma RetriedJobsTakeOver(cfg: Config, job: RqJob)
    ensures !AllowRunning(cfg, NewRqJob(cfg.maxRetries))
    ensures job.Retries() <= cfg.maxRetries && job.Retries() > 0 ==>
              AllowRunning(cfg, RqJob(Some(job.Retries() - 1), Waiting))
    ensures AllowRunning(cfg, job) <==> exists left: nat :: job.retriesLeft == Some(left) && left < cfg.maxRetries
  {
  }

  // ----- the times of a row -----

  /** When the row was stored, and for how long. */
  function StoredAt(steps: seq<Step>): Option<(int, nat)> {
    if steps == [] then None
    else
      var last := steps[|steps| - 1];
      if last.SubmitPersist? then Some((last.now, last.ttl)) else StoredAt(steps[..|steps| - 1])
  }

  /** When it was last claimed. */
  function ClaimedAt(cfg: Config, steps: seq<Step>): Option<int>
    requires Replay(cfg, steps).Some?
  {
    if steps == [] then None
    else
      var before, last := steps[..|steps| - 1], steps[|steps| - 1];
      if ClaimSucceeds(cfg, Replay(cfg, before).value, last) then Some(last.now) else ClaimedAt(cfg, before)
  }

  predicate TimesFit(row: Row, stored: Option<(int, nat)>, claimed: Option<int>) {
    && stored == Some((row.createdAt, if row.expiresAt >= row.createdAt then row.expiresAt - row.createdAt else 0))
    && row.expiresAt >= row.createdAt
    && (row.status.Running? || row.status.Completed? ==> row.startedAt.Some? && row.startedAt == claimed)
  }

  lemma StepTimes(cfg: Config, p: Preview, step: Step, stored: Option<(int, nat)>, claimed: Option<int>)
    requires Inv(cfg, p) && Enabled(cfg, p, step) && (p.row.Some? ==> TimesFit(p.row.value, stored, claimed))
    ensures Apply(cfg, p, step).row.Some? ==>
              TimesFit(Apply(cfg, p, step).row.value,
                       if step.SubmitPersist? then Some((step.now, step.ttl)) else stored,
                       if ClaimSucceeds(cfg, p, step) then Some(step.now) else claimed)
  {
    StepMoves(cfg, p, step);
    if step.SubmitPersist? {
      assert ActivityOk(cfg, p, p.sessions[step.s]);
      assert Apply(cfg, p, step).row == Some(NewRow(step.now, step.ttl));
    }
  }

  /**
   A row keeps the time at which it was stored, and expires its time to live later; while it is running, and when it
   has completed, it shows the time of its latest claim.
   */
  lemma {:induction false} RowsKeepTheirTimes(cfg: Config, steps: seq<Step>)
    requires Replay(cfg, steps).Some?
    ensures Replay(cfg, steps).value.row.Some? ==>
              TimesFit(Replay(cfg, steps).value.row.value, StoredAt(steps), ClaimedAt(cfg, steps))
  {
    if steps != [] {
      var before := steps[..|steps| - 1];
      RowsKeepTheirTimes(cfg, before);
      RunKeeps(cfg, NO_PREVIEW, before);
      StepTimes(cfg, Replay(cfg, before).value, steps[|steps| - 1], StoredAt(before), ClaimedAt(cfg, before));
    }
  }
}
