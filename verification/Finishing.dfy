/** From every reachable state, a preview that is not finished can be finished, in a few orderly steps. */
module Finishing {
  import opened Wrappers
  import opened JobRow
  import opened Protocol
  import opened ProtocolLaws

  /** Nothing breaks, is lost, times out or expires in an orderly step. */
  predicate Orderly(p: Preview, step: Step) {
    match step
    case Crash(_) => false
    case DeleteExpired => false
    case SubmitEnqueueFails(_, _, _) => false
    case LockTimeout(_) => false
    case StopBeforeLock(_, _) => false
    case FailWithoutLock(_, _, _) => false
    case StopBeforeClaim(_, _) => false
    case FailBeforeClaim(_, _, _) => false
    case FailJob(_, _, _, _) => false
    case StopWorking(_, _) => false
    case RecAbandon(_) => false
    case Drop(rq) => rq in p.live && p.live[rq].phase.CalledBack?
    case _ => true
  }

  predicate Pending(p: Preview) {
    p.row.Some? && !p.row.value.Terminal()
  }

  // ----- how far a preview is from being finished -----

  /** Steps until the lock is free for the execution of a live job. */
  function Busy(p: Preview): nat {
    if p.lock.None? || p.lock.value !in p.sessions then 0
    else match p.sessions[p.lock.value]
      case RecLocked => 3
      case RecRefreshed(_) => 2
      case _ => 1
  }

  /** With a live job: through its claim and its execution, or through its end and its retry. */
  function JobDistance(p: Preview, rq: RqId): nat
    requires rq in p.live
  {
    match p.live[rq].phase
    case Waiting => 9 + Busy(p)
    case Ended => 14
    case CalledBack => 13
    case Started(s) =>
      if s !in p.sessions then 0
      else match p.sessions[s]
        case AwaitLock(_) => 8 + Busy(p)
        case Locked(_) => 7
        case Claimed(_, k) => if k <= LAST_STAGE then 6 - k else 0
        case Finished(_, _) => 15
        case _ => 16
  }

  /** Without one: through the lock's holder, and then through a reconciler that gives the row up. */
  function AloneDistance(p: Preview): nat {
    if p.lock.None? || p.lock.value !in p.sessions then 4
    else match p.sessions[p.lock.value]
      case RecLocked => 3
      case RecRefreshed(_) => 2
      case RecScanned(_) => 1
      case EnqueueFailed(_) => 1
      case RecReady(_) => 11
      case RecRequeued(_) => 12
      case Persisted => 11
      case _ => 5
  }

  ghost predicate Within(p: Preview, n: nat) {
    if p.live == map[] then AloneDistance(p) <= n else forall rq :: rq in p.live ==> JobDistance(p, rq) <= n
  }

  lemma AlwaysWithin(p: Preview)
    ensures Within(p, 16)
  {
  }

  // ----- one step closer -----

  /** The step can happen, is orderly, and finishes the preview or brings it closer to that. */
  ghost predicate Advances(cfg: Config, p: Preview, step: Step, n: nat) {
    && n > 0 && Enabled(cfg, p, step) && Orderly(p, step)
    && var q := Apply(cfg, p, step);
       q.row.Some? && (!q.row.value.Terminal() ==> Within(q, n - 1))
  }

  /** An execution at work, on its way to its claim, or to be retried, or a job about to be enqueued. */
  ghost predicate Promising(p: Preview) {
    && ((exists rq :: rq in p.live && Promises(p, rq)) || (exists s :: s in p.sessions && Enqueues(p.sessions[s])))
    && forall s :: s in p.sessions ==> !p.sessions[s].EnqueueFailed?
  }

  ghost predicate Promises(p: Preview, rq: RqId)
    requires rq in p.live
  {
    CanClaim(p, rq) || AtWork(p, rq) || WillRetry(p, rq)
  }

  predicate AtWork(p: Preview, rq: RqId)
    requires rq in p.live
  {
    p.live[rq].phase.Started? && p.live[rq].phase.session in p.sessions
    && p.sessions[p.live[rq].phase.session].Claimed?
  }

  predicate WillRetry(p: Preview, rq: RqId)
    requires rq in p.live
  {
    p.live[rq].Retries() > 0
    && match p.live[rq].phase
       case Started(s) => s in p.sessions && Raises(p.sessions[s])
       case Waiting => false
       case _ => true
  }

  predicate Raises(activity: Activity) {
    (activity.Unlocking? || activity.Finished?) && activity.raised
  }

  predicate Enqueues(activity: Activity) {
    activity.Persisted? || activity.RecReady? || activity.RecRequeued?
  }

  ghost predicate KeepsPromise(p: Preview, q: Preview) {
    Promising(p) ==> Pending(q) && Promising(q)
  }

  predicate CompletedWith(p: Preview, result: int) {
    p.row.Some? && p.row.value.status.Completed? && p.row.value.result == Some(result)
  }

  /** The promise of a live job is its own. */
  lemma OnlyPromise(cfg: Config, p: Preview, rq: RqId)
    requires Inv(cfg, p) && rq in p.live
    ensures Promising(p) ==> Promises(p, rq)
  {
    if s :| s in p.sessions && Enqueues(p.sessions[s]) {
      assert ActivityOk(cfg, p, p.sessions[s]);
    }
  }

  /** Without a live job, it is that of the lock's holder. */
  lemma HoldersPromise(cfg: Config, p: Preview)
    requires Inv(cfg, p) && p.live == map[]
    ensures Promising(p) ==> p.lock.Some? && p.lock.value in p.sessions && Enqueues(p.sessions[p.lock.value])
  {
  }

  lemma {:induction false} Fresh(used: set<nat>) returns (n: nat)
    ensures forall m :: m in used ==> m < n
    decreases |used|
  {
    n := 0;
    if used != {} {
      var some :| some in used;
      var above := Fresh(used - {some});
      n := if above > some then above else some + 1;
      forall m | m in used
        ensures m < n
      {
        assert m == some || m in used - {some};
      }
    }
  }

  lemma ClaimedAdvances(cfg: Config, p: Preview, rq: RqId, s: SessionId, n: nat, result: int) returns (step: Step)
    requires Inv(cfg, p) && Pending(p) && rq in p.live && p.live[rq].phase == Started(s)
    requires p.sessions[s].Claimed? && JobDistance(p, rq) <= n
    ensures Advances(cfg, p, step, n)
    ensures KeepsPromise(p, Apply(cfg, p, step)) || CompletedWith(Apply(cfg, p, step), result)
  {
    assert ActivityOk(cfg, p, p.sessions[s]);
    if p.sessions[s].k < LAST_STAGE {
      step := UpdateProgress(s);
      assert Promises(Apply(cfg, p, step), rq);
    } else {
      step := CompleteJob(s, result, 0, false);
    }
  }

  lemma LockedAdvances(cfg: Config, p: Preview, rq: RqId, s: SessionId, n: nat) returns (step: Step)
    requires Inv(cfg, p) && Pending(p) && rq in p.live && p.live[rq].phase == Started(s)
    requires p.sessions[s].Locked? && JobDistance(p, rq) <= n
    ensures Advances(cfg, p, step, n)
    ensures KeepsPromise(p, Apply(cfg, p, step))
  {
    step := ClaimJob(s, 0);
    assert CanClaim(p, rq);
    assert ClaimSucceeds(cfg, p, step);
    assert Promises(Apply(cfg, p, step), rq);
  }

  /** A submitter that holds the lock while an execution waits for it lets go of it, or fails the row. */
  lemma SubmitterLetsGo(cfg: Config, p: Preview, rq: RqId, s: SessionId, t: SessionId, n: nat) returns (step: Step)
    requires Inv(cfg, p) && Pending(p) && rq in p.live && p.live[rq].phase == Started(s)
    requires p.sessions[s].AwaitLock? && p.lock == Some(t) && p.sessions[t].Submits() && JobDistance(p, rq) <= n
    ensures Advances(cfg, p, step, n)
    ensures KeepsPromise(p, Apply(cfg, p, step))
  {
    assert ActivityOk(cfg, p, p.sessions[t]);
    step := if p.sessions[t].EnqueueFailed? then SubmitFail(t, 0) else SubmitRelease(t);
    assert Promises(Apply(cfg, p, step), rq);
  }

  /** A reconciler finds the live job and lets go of the lock. */
  lemma ReconcilerLetsGo(cfg: Config, p: Preview, rq: RqId, s: SessionId, t: SessionId, n: nat) returns (step: Step)
    requires Inv(cfg, p) && Pending(p) && rq in p.live && p.live[rq].phase == Started(s)
    requires p.sessions[s].AwaitLock? && p.lock == Some(t) && p.sessions[t].Reconciles() && JobDistance(p, rq) <= n
    ensures Advances(cfg, p, step, n)
    ensures KeepsPromise(p, Apply(cfg, p, step))
  {
    assert ActivityOk(cfg, p, p.sessions[t]);
    step := if p.sessions[t].RecLocked? then RecRefresh(t)
            else if p.sessions[t].RecRefreshed? then RecScan(t)
            else RecRelease(t);
    assert Promises(Apply(cfg, p, step), rq);
  }

  lemma AwaitingAdvances(cfg: Config, p: Preview, rq: RqId, s: SessionId, n: nat) returns (step: Step)
    requires Inv(cfg, p) && Pending(p) && rq in p.live && p.live[rq].phase == Started(s)
    requires p.sessions[s].AwaitLock? && JobDistance(p, rq) <= n
    ensures Advances(cfg, p, step, n)
    ensures KeepsPromise(p, Apply(cfg, p, step))
  {
    if p.lock.None? {
      step := LockAcquire(s);
      assert Promises(Apply(cfg, p, step), rq);
    } else {
      var t := p.lock.value;
      if p.sessions[t].Submits() {
        step := SubmitterLetsGo(cfg, p, rq, s, t, n);
      } else {
        step := ReconcilerLetsGo(cfg, p, rq, s, t, n);
      }
    }
  }

  lemma WaitingAdvances(cfg: Config, p: Preview, rq: RqId, n: nat) returns (step: Step)
    requires Inv(cfg, p) && Pending(p) && rq in p.live && p.live[rq].phase.Waiting? && JobDistance(p, rq) <= n
    ensures Advances(cfg, p, step, n)
    ensures KeepsPromise(p, Apply(cfg, p, step))
  {
    var s := Fresh(p.sessions.Keys);
    step := Dequeue(s, rq);
    assert Promises(Apply(cfg, p, step), rq);
  }

  /** An execution that is over unlocks and ends. */
  lemma EndingAdvances(cfg: Config, p: Preview, rq: RqId, s: SessionId, n: nat) returns (step: Step)
    requires Inv(cfg, p) && Pending(p) && rq in p.live && JobDistance(p, rq) <= n
    requires p.live[rq].phase == Started(s) && !CanClaim(p, rq) && !AtWork(p, rq)
    ensures Advances(cfg, p, step, n)
    ensures KeepsPromise(p, Apply(cfg, p, step))
  {
    step := if p.sessions[s].Unlocking? then Unlock(s) else Finish(s);
    OnlyPromise(cfg, p, rq);
    if WillRetry(p, rq) {
      assert Promises(Apply(cfg, p, step), rq);
    }
  }

  /** A job that has ended is settled by RQ. */
  lemma SettlingAdvances(cfg: Config, p: Preview, rq: RqId, n: nat) returns (step: Step)
    requires Inv(cfg, p) && Pending(p) && rq in p.live && JobDistance(p, rq) <= n
    requires p.live[rq].phase.Ended? || p.live[rq].phase.CalledBack?
    ensures Advances(cfg, p, step, n)
    ensures KeepsPromise(p, Apply(cfg, p, step))
  {
    step := if p.live[rq].phase.Ended? then Callback(rq, 0)
            else if p.live[rq].Retries() > 0 then Retry(rq)
            else Drop(rq);
    OnlyPromise(cfg, p, rq);
    if WillRetry(p, rq) {
      assert Promises(Apply(cfg, p, step), rq);
    }
  }

  /** Without a live job, a submitter goes on. */
  lemma SubmitterAdvances(cfg: Config, p: Preview, t: SessionId, n: nat) returns (step: Step)
    requires Inv(cfg, p) && Pending(p) && p.live == map[] && AloneDistance(p) <= n
    requires p.lock == Some(t) && p.sessions[t].Submits()
    ensures Advances(cfg, p, step, n)
    ensures KeepsPromise(p, Apply(cfg, p, step))
  {
    HoldersPromise(cfg, p);
    assert ActivityOk(cfg, p, p.sessions[t]);
    step := if p.sessions[t].Persisted? then SubmitEnqueue(t, 0)
            else if p.sessions[t].EnqueueFailed? then SubmitFail(t, 0)
            else SubmitRelease(t);
    if p.sessions[t].Persisted? {
      assert Promises(Apply(cfg, p, step), 0);
    }
  }

  /** So does a reconciler, to its scan and beyond. */
  lemma ReconcilerLooks(cfg: Config, p: Preview, t: SessionId, n: nat) returns (step: Step)
    requires Inv(cfg, p) && Pending(p) && p.live == map[] && AloneDistance(p) <= n
    requires p.lock == Some(t)
    requires p.sessions[t].RecLocked? || p.sessions[t].RecRefreshed? || p.sessions[t].RecReleasing?
    ensures Advances(cfg, p, step, n)
    ensures KeepsPromise(p, Apply(cfg, p, step))
  {
    HoldersPromise(cfg, p);
    step := if p.sessions[t].RecLocked? then RecRefresh(t)
            else if p.sessions[t].RecRefreshed? then RecScan(t)
            else RecRelease(t);
  }

  lemma ReconcilerActs(cfg: Config, p: Preview, t: SessionId, n: nat) returns (step: Step)
    requires Inv(cfg, p) && Pending(p) && p.live == map[] && AloneDistance(p) <= n
    requires p.lock == Some(t)
    requires p.sessions[t].RecScanned? || p.sessions[t].RecRequeued? || p.sessions[t].RecReady?
    ensures Advances(cfg, p, step, n)
    ensures KeepsPromise(p, Apply(cfg, p, step))
  {
    HoldersPromise(cfg, p);
    step := if p.sessions[t].RecScanned? then RecFail(t, p.sessions[t].seen.expiresAt, 0)
            else if p.sessions[t].RecRequeued? then RecRefreshAgain(t)
            else RecEnqueue(t, 0);
    if p.sessions[t].RecRequeued? {
      assert Enqueues(Apply(cfg, p, step).sessions[t]);
    } else if p.sessions[t].RecReady? {
      assert Promises(Apply(cfg, p, step), 0);
    }
  }

  /** If nobody holds the lock, a reconciler comes. */
  lemma AloneAdvances(cfg: Config, p: Preview, n: nat) returns (step: Step)
    requires Inv(cfg, p) && Pending(p) && p.live == map[] && AloneDistance(p) <= n
    ensures Advances(cfg, p, step, n)
    ensures KeepsPromise(p, Apply(cfg, p, step))
  {
    HoldersPromise(cfg, p);
    if p.lock.None? {
      var s := Fresh(p.sessions.Keys);
      step := RecLock(s);
    } else {
      var t := p.lock.value;
      if p.sessions[t].Submits() {
        step := SubmitterAdvances(cfg, p, t, n);
      } else if p.sessions[t].RecScanned? || p.sessions[t].RecRequeued? || p.sessions[t].RecReady? {
        step := ReconcilerActs(cfg, p, t, n);
      } else {
        step := ReconcilerLooks(cfg, p, t, n);
      }
    }
  }

  lemma JobAdvances(cfg: Config, p: Preview, rq: RqId, n: nat, result: int) returns (step: Step)
    requires Inv(cfg, p) && Pending(p) && rq in p.live && JobDistance(p, rq) <= n
    ensures Advances(cfg, p, step, n)
    ensures KeepsPromise(p, Apply(cfg, p, step)) || CompletedWith(Apply(cfg, p, step), result)
  {
    if p.live[rq].phase.Waiting? {
      step := WaitingAdvances(cfg, p, rq, n);
    } else if AtWork(p, rq) {
      step := ClaimedAdvances(cfg, p, rq, p.live[rq].phase.session, n, result);
    } else if CanClaim(p, rq) {
      var s := p.live[rq].phase.session;
      if p.sessions[s].Locked? {
        step := LockedAdvances(cfg, p, rq, s, n);
      } else {
        step := AwaitingAdvances(cfg, p, rq, s, n);
      }
    } else if p.live[rq].phase.Started? {
      step := EndingAdvances(cfg, p, rq, p.live[rq].phase.session, n);
    } else {
      step := SettlingAdvances(cfg, p, rq, n);
    }
  }

  lemma NextStep(cfg: Config, p: Preview, n: nat, result: int) returns (step: Step)
    requires Inv(cfg, p) && Pending(p) && Within(p, n)
    ensures Advances(cfg, p, step, n)
    ensures KeepsPromise(p, Apply(cfg, p, step)) || CompletedWith(Apply(cfg, p, step), result)
  {
    if p.live == map[] {
      step := AloneAdvances(cfg, p, n);
    } else {
      var rq :| rq in p.live;
      step := JobAdvances(cfg, p, rq, n, result);
    }
  }

  lemma NextState(cfg: Config, p: Preview, n: nat, result: int) returns (step: Step, next: Preview)
    requires Inv(cfg, p) && Pending(p) && Within(p, n)
    ensures n > 0 && Enabled(cfg, p, step) && Orderly(p, step) && next == Apply(cfg, p, step)
    ensures Inv(cfg, next) && next.row.Some? && (!next.row.value.Terminal() ==> Within(next, n - 1))
    ensures KeepsPromise(p, next) || CompletedWith(next, result)
  {
    step := NextStep(cfg, p, n, result);
    next := Apply(cfg, p, step);
    StepKeeps(cfg, p, step);
  }

  // ----- all the way -----

  /** Orderly steps that lead from one state to another. */
  ghost predicate OrderlyRun(cfg: Config, p: Preview, steps: seq<Step>, q: Preview)
    decreases |steps|
  {
    if steps == [] then p == q
    else Enabled(cfg, p, steps[0]) && Orderly(p, steps[0]) && OrderlyRun(cfg, Apply(cfg, p, steps[0]), steps[1..], q)
  }

  lemma {:induction false} OrderlyRunIsRun(cfg: Config, p: Preview, steps: seq<Step>, q: Preview)
    requires OrderlyRun(cfg, p, steps, q)
    ensures Continue(cfg, p, steps) == Some(q)
    decreases |steps|
  {
    if steps != [] {
      var next := Apply(cfg, p, steps[0]);
      OrderlyRunIsRun(cfg, next, steps[1..], q);
      OneMoreStep(cfg, p, [], steps[0], p);
      assert [] + [steps[0]] == [steps[0]];
      ContinueConcat(cfg, p, [steps[0]], steps[1..]);
      assert [steps[0]] + steps[1..] == steps;
    }
  }

  lemma StepThenRun(cfg: Config, p: Preview, step: Step, next: Preview, rest: seq<Step>, q: Preview)
    requires Enabled(cfg, p, step) && Orderly(p, step) && next == Apply(cfg, p, step) && OrderlyRun(cfg, next, rest, q)
    ensures OrderlyRun(cfg, p, [step] + rest, q)
  {
    assert ([step] + rest)[1..] == rest;
  }

  lemma {:induction false} FinishWithin(cfg: Config, p: Preview, n: nat, result: int)
    returns (steps: seq<Step>, q: Preview)
    requires Inv(cfg, p) && Pending(p) && Within(p, n)
    ensures |steps| <= n && OrderlyRun(cfg, p, steps, q)
    ensures q.row.Some? && q.row.value.Terminal()
    ensures Promising(p) ==> CompletedWith(q, result)
    decreases n
  {
    var step, next := NextState(cfg, p, n, result);
    var rest: seq<Step> := [];
    q := next;
    if !next.row.value.Terminal() {
      rest, q := FinishWithin(cfg, next, n - 1, result);
    }
    StepThenRun(cfg, p, step, next, rest, q);
    steps := [step] + rest;
  }

  /**
   Whatever has happened to it, a preview with an unfinished row can be finished by at most 16 orderly steps; and
   while a job is about to be enqueued, or its execution is still to claim, at work or to be retried, by completing
   it with whatever result is computed.
   */
  lemma CanAlwaysFinish(cfg: Config, past: seq<Step>, result: int) returns (future: seq<Step>)
    requires Replay(cfg, past).Some? && Pending(Replay(cfg, past).value)
    ensures |future| <= 16 && Replay(cfg, past + future).Some?
    ensures OrderlyRun(cfg, Replay(cfg, past).value, future, Replay(cfg, past + future).value)
    ensures Replay(cfg, past + future).value.row.Some? && Replay(cfg, past + future).value.row.value.Terminal()
    ensures Promising(Replay(cfg, past).value) ==> CompletedWith(Replay(cfg, past + future).value, result)
  {
    var p := Replay(cfg, past).value;
    RunKeeps(cfg, NO_PREVIEW, past);
    AlwaysWithin(p);
    var q;
    future, q := FinishWithin(cfg, p, 16, result);
    OrderlyRunIsRun(cfg, p, future, q);
    ContinueConcat(cfg, NO_PREVIEW, past, future);
  }
}
