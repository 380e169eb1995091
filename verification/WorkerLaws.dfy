/** What the job function keeps of a row, and that it takes only steps of the protocol. */
module WorkerLaws {
  import opened Wrappers
  import opened JobRow
  import opened Worker
  import opened ProtocolLaws
  import P = Protocol

  /** The call gets as far as executing its row. */
  predicate Executes(row: Row, lockable: bool, allowRunning: bool, call: JobCall) {
    call.before.None? && lockable && call.between.None? && call.run.claim.None? && Claimable(row, allowRunning)
  }

  /** How an execution ends leaves its row consistent, unless a stored completion is overwritten by a failure. */
  lemma ExecutedIsConsistent(row: Row, script: Script, startedAt: int, endedAt: int)
    requires Consistent(row) && !row.Terminal()
    ensures Consistent(Executed(Claim(row, startedAt), script, endedAt).0) <==> !script.FailsAfterCompleting()
  {
    var claimed := Claim(row, startedAt);
    var reached := Advance(claimed, script.StageReached());
    WritesAreConsistent(row, 0, OPERATIONAL_FAILURE, 0, false, startedAt, 0);
    WritesAreConsistent(claimed, script.StageReached(), OPERATIONAL_FAILURE, 0, false, endedAt, 0);
    WritesAreConsistent(reached, 0, script.trouble.Message(), script.result, false, endedAt, 0);
  }

  /** Recording an end, the guarded way, keeps a row consistent. */
  lemma RecordedIsConsistent(row: Row, lastResort: Option<Trouble>, now: int)
    requires Consistent(row)
    ensures Recorded(Some(row), lastResort, now).0.Some? && Consistent(Recorded(Some(row), lastResort, now).0.value)
  {
    WritesAreConsistent(row, 0, OPERATIONAL_FAILURE, 0, false, now, 0);
  }

  lemma TroubledClaimIsConsistent(row: Row, allowRunning: bool, script: Script, startedAt: int, endedAt: int)
    requires Consistent(row) && script.claim.Some?
    ensures Ran(Some(row), allowRunning, script, startedAt, endedAt).0.Some?
    ensures Consistent(Ran(Some(row), allowRunning, script, startedAt, endedAt).0.value)
  {
    WritesAreConsistent(row, 0, OPERATIONAL_FAILURE, 0, false, startedAt, 0);
    WritesAreConsistent(row, 0, OPERATIONAL_FAILURE, 0, false, endedAt, 0);
  }

  /** What an execution leaves of a row, compared with what it found. */
  predicate Keeps(row: Row, next: Option<Row>, script: Script) {
    && next.Some?
    && (row.Terminal() ==> next.value == row)
    && row.attempts <= next.value.attempts <= row.attempts + 1
    && (next.value.status.Completed? && !row.Terminal() ==> next.value.result == Some(script.result))
  }

  lemma RecordedKeeps(row: Row, reached: Row, script: Script, lastResort: Option<Trouble>, now: int)
    requires Keeps(row, Some(reached), script)
    ensures Keeps(row, Recorded(Some(reached), lastResort, now).0, script)
    ensures Consistent(reached) ==> Consistent(Recorded(Some(reached), lastResort, now).0.value)
  {
    if Consistent(reached) {
      RecordedIsConsistent(reached, lastResort, now);
    }
  }

  /** Overwriting a completion returns to RQ, so nothing else is recorded. */
  lemma RunKeepsRow(row: Row, allowRunning: bool, script: Script, startedAt: int, endedAt: int)
    requires Consistent(row)
    ensures var (next, end) := Ran(Some(row), allowRunning, script, startedAt, endedAt);
            var overwrites := script.claim.None? && Claimable(row, allowRunning) && script.FailsAfterCompleting();
            && Keeps(row, next, script)
            && (Consistent(next.value) <==> !overwrites)
            && (overwrites ==> end == Returned(true))
            && (next.value.status.Completed? && !row.Terminal() && !end.Returned? ==> script.stored)
  {
    if script.claim.Some? {
      TroubledClaimIsConsistent(row, allowRunning, script, startedAt, endedAt);
    } else if Claimable(row, allowRunning) {
      ExecutedIsConsistent(row, script, startedAt, endedAt);
    }
  }

  /**
   Whatever befalls it, a call never touches a finished row and claims at most once, and it leaves a consistent
   row unless the execution fails for another reason than the provider or the database once it has completed.
   */
  lemma CallKeepsRows(row: Row, lockable: bool, allowRunning: bool, call: JobCall, startedAt: int, endedAt: int)
    requires Consistent(row)
    ensures var (next, raised) := Processed(Some(row), lockable, allowRunning, call, startedAt, endedAt);
            && Keeps(row, next, call.run)
            && (Consistent(next.value)
                <==> !(Executes(row, lockable, allowRunning, call) && call.run.FailsAfterCompleting()))
            && (next.value.status.Completed? && !row.Terminal() && raised ==> call.run.stored)
  {
    RecordedKeeps(row, row, call.run, call.lastResort, endedAt);
    if call.before.None? && lockable && call.between.None? {
      RunKeepsRow(row, allowRunning, call.run, startedAt, endedAt);
      var reached := Ran(Some(row), allowRunning, call.run, startedAt, endedAt).0.value;
      RecordedKeeps(row, reached, call.run, call.lastResort, endedAt);
    }
  }

  /** An execution that completes its row, is stopped after the commit, and fails the row that has its result. */
  lemma CompletionCanBeOverwritten()
    ensures var script := Script(None, false, COMPLETE, Unexpected, true, None, 7);
            var call := JobCall(None, None, script, None);
            var (next, raised) := Processed(Some(NewRow(0, 100)), true, false, call, 1, 2);
            && Consistent(NewRow(0, 100)) && !raised
            && next.Some? && next.value.status.Failed? && next.value.result == Some(7) && !Consistent(next.value)
  {
  }

  // ----- every execution is a run of the protocol -----

  function Updates(s: P.SessionId, k: nat): seq<P.Step> {
    if k == 0 then [] else Updates(s, k - 1) + [P.UpdateProgress(s)]
  }

  lemma {:induction false} UpdatesAreRun(cfg: P.Config, p: P.Preview, steps: seq<P.Step>, row: Row, s: P.SessionId,
                                         rq: P.RqId, k: nat)
    requires k <= LAST_STAGE
    requires Continue(cfg, p, steps) == Some(With(p, Advance(row, 0), s, P.Claimed(rq, 0)))
    ensures Continue(cfg, p, steps + Updates(s, k)) == Some(With(p, Advance(row, k), s, P.Claimed(rq, k)))
  {
    if k == 0 {
      assert steps + Updates(s, k) == steps;
    } else {
      UpdatesAreRun(cfg, p, steps, row, s, rq, k - 1);
      OneMoreStep(cfg, p, steps + Updates(s, k - 1), P.UpdateProgress(s),
                  With(p, Advance(row, k - 1), s, P.Claimed(rq, k - 1)));
      WithAgain(p, Advance(row, k - 1), s, P.Claimed(rq, k - 1), Advance(row, k), P.Claimed(rq, k));
      assert steps + Updates(s, k) == steps + Updates(s, k - 1) + [P.UpdateProgress(s)];
    }
  }

  /** What a call leaves to be done in the end: the message to fail its row with, if any, and whether to raise. */
  datatype Rest = Rest(failure: Option<string>, raised: bool)

  function LastResort(lastResort: Option<Trouble>): Rest {
    if lastResort.None? then Rest(Some(OPERATIONAL_FAILURE), false) else Rest(None, lastResort.value.DatabaseTrouble?)
  }

  function RestUnstored(persist: Trouble, lastResort: Option<Trouble>): Rest {
    if persist.DatabaseTrouble? then Rest(None, true) else LastResort(lastResort)
  }

  /** After trouble with the claim. */
  function RestOfClaim(call: JobCall): Rest
    requires call.run.claim.Some?
  {
    if call.run.claim.value.Transient() then Rest(None, true)
    else if !call.run.claim.value.Unexpected? then LastResort(call.lastResort)
    else if call.run.persist.Some? then RestUnstored(call.run.persist.value, call.lastResort)
    else Rest(Some(OPERATIONAL_FAILURE), false)
  }

  /** After an execution. */
  function RestOfRun(call: JobCall): Rest {
    if call.run.failsAt >= NOWHERE then Rest(None, false)
    else if call.run.trouble.Transient() then Rest(None, true)
    else if call.run.persist.Some? then RestUnstored(call.run.persist.value, call.lastResort)
    else Rest(Some(call.run.trouble.Message()), false)
  }

  /** How an execution that has claimed its row stops. */
  function Stopping(rest: Rest, s: P.SessionId, endedAt: int): P.Step {
    if rest.failure.Some? then P.FailJob(s, rest.failure.value, endedAt, rest.raised) else P.StopWorking(s, rest.raised)
  }

  function StoppingUnclaimed(rest: Rest, s: P.SessionId, endedAt: int): P.Step {
    if rest.failure.Some? then P.FailBeforeClaim(s, endedAt, rest.raised) else P.StopBeforeClaim(s, rest.raised)
  }

  /** Once the completion is stored, there is nothing left to fail. */
  function Ending(call: JobCall, s: P.SessionId, endedAt: int): P.Step {
    var rest := RestOfRun(call);
    if call.run.Completes() then P.CompleteJob(s, call.run.result, endedAt, rest.raised)
    else Stopping(rest, s, endedAt)
  }

  /** The call under its lock, as steps of the protocol. */
  function StepsOf(row: Row, allowRunning: bool, call: JobCall, s: P.SessionId, startedAt: int, endedAt: int)
    : seq<P.Step>
  {
    if call.between.Some? then
      [StoppingUnclaimed(RestUnstored(call.between.value, call.lastResort), s, endedAt)]
    else if call.run.claim.Some? then
      if call.run.claimStored && Claimable(row, allowRunning) then
        [P.ClaimJob(s, startedAt)] + [Stopping(RestOfClaim(call), s, endedAt)]
      else
        [StoppingUnclaimed(RestOfClaim(call), s, endedAt)]
    else if !Claimable(row, allowRunning) then
      [P.ClaimJob(s, startedAt)]
    else
      [P.ClaimJob(s, startedAt)] + Updates(s, call.run.StageReached()) + [Ending(call, s, endedAt)]
  }

  /** The session of an execution that has just taken the lock. */
  predicate Entered(cfg: P.Config, p: P.Preview, row: Row, s: P.SessionId, rq: P.RqId, allowRunning: bool) {
    && s in p.sessions && p.sessions[s] == P.Locked(rq) && rq in p.live && p.row == Some(row)
    && allowRunning == P.AllowRunning(cfg, p.live[rq])
  }

  lemma ClaimingIsRun(cfg: P.Config, p: P.Preview, row: Row, s: P.SessionId, rq: P.RqId, allowRunning: bool,
                      startedAt: int)
    requires Entered(cfg, p, row, s, rq, allowRunning)
    ensures Continue(cfg, p, [P.ClaimJob(s, startedAt)])
            == Some(if Claimable(row, allowRunning) then With(p, Claim(row, startedAt), s, P.Claimed(rq, 0))
                    else With(p, row, s, P.Unlocking(rq, false)))
  {
    OneMoreStep(cfg, p, [], P.ClaimJob(s, startedAt), p);
    assert [] + [P.ClaimJob(s, startedAt)] == [P.ClaimJob(s, startedAt)];
  }

  function Stopped(row: Row, step: P.Step, endedAt: int): Row {
    match step
    case CompleteJob(_, result, _, _) => Complete(row, result, endedAt)
    case FailJob(_, error, _, _) => Fail(row, error, endedAt)
    case _ => row
  }

  /** The ending does to the claimed row what the call does, and raises when it does. */
  lemma EndingIsEnd(row: Row, allowRunning: bool, call: JobCall, s: P.SessionId, startedAt: int, endedAt: int)
    requires Executes(row, true, allowRunning, call) && !call.run.FailsAfterCompleting()
    ensures var step := Ending(call, s, endedAt);
            && (step.CompleteJob? || step.FailJob? || step.StopWorking?)
            && Processed(Some(row), true, allowRunning, call, startedAt, endedAt)
               == (Some(Stopped(Advance(Claim(row, startedAt), call.run.StageReached()), step, endedAt)), step.raised)
  {
  }

  lemma EndingIsRun(cfg: P.Config, p: P.Preview, steps: seq<P.Step>, row: Row, s: P.SessionId, rq: P.RqId,
                    call: JobCall, endedAt: int)
    requires Continue(cfg, p, steps) == Some(With(p, row, s, P.Claimed(rq, call.run.StageReached())))
    ensures var step := Ending(call, s, endedAt);
            Continue(cfg, p, steps + [step])
            == Some(With(p, Stopped(row, step, endedAt), s, P.Unlocking(rq, step.raised)))
  {
    var step := Ending(call, s, endedAt);
    OneMoreStep(cfg, p, steps, step, With(p, row, s, P.Claimed(rq, call.run.StageReached())));
    WithAgain(p, row, s, P.Claimed(rq, call.run.StageReached()), Stopped(row, step, endedAt),
              P.Unlocking(rq, step.raised));
  }

  /** Trouble once the claim is stored: the execution stops at once, or fails the row it has claimed. */
  lemma StoredClaimIsRun(cfg: P.Config, p: P.Preview, row: Row, s: P.SessionId, rq: P.RqId, allowRunning: bool,
                         rest: Rest, startedAt: int, endedAt: int)
    requires Entered(cfg, p, row, s, rq, allowRunning) && Claimable(row, allowRunning)
    ensures var step := Stopping(rest, s, endedAt);
            Continue(cfg, p, [P.ClaimJob(s, startedAt)] + [step])
            == Some(With(p, Stopped(Claim(row, startedAt), step, endedAt), s, P.Unlocking(rq, rest.raised)))
  {
    var claimed := Claim(row, startedAt);
    var step := Stopping(rest, s, endedAt);
    ClaimingIsRun(cfg, p, row, s, rq, allowRunning, startedAt);
    OneMoreStep(cfg, p, [P.ClaimJob(s, startedAt)], step, With(p, claimed, s, P.Claimed(rq, 0)));
    WithAgain(p, claimed, s, P.Claimed(rq, 0), Stopped(claimed, step, endedAt), P.Unlocking(rq, rest.raised));
  }

  lemma StoppingUnclaimedIsRun(cfg: P.Config, p: P.Preview, row: Row, s: P.SessionId, rq: P.RqId, allowRunning: bool,
                               raised: bool)
    requires Entered(cfg, p, row, s, rq, allowRunning)
    ensures Continue(cfg, p, [P.StopBeforeClaim(s, raised)]) == Some(With(p, row, s, P.Unlocking(rq, raised)))
  {
    OneMoreStep(cfg, p, [], P.StopBeforeClaim(s, raised), p);
    assert [] + [P.StopBeforeClaim(s, raised)] == [P.StopBeforeClaim(s, raised)];
  }

  lemma FailingUnclaimedIsRun(cfg: P.Config, p: P.Preview, row: Row, s: P.SessionId, rq: P.RqId, allowRunning: bool,
                              raised: bool, endedAt: int)
    requires Entered(cfg, p, row, s, rq, allowRunning)
    ensures Continue(cfg, p, [P.FailBeforeClaim(s, endedAt, raised)])
            == Some(With(p, AfterFailure(row, false, OPERATIONAL_FAILURE, endedAt), s, P.Unlocking(rq, raised)))
  {
    OneMoreStep(cfg, p, [], P.FailBeforeClaim(s, endedAt, raised), p);
    assert [] + [P.FailBeforeClaim(s, endedAt, raised)] == [P.FailBeforeClaim(s, endedAt, raised)];
  }

  /** Trouble before the claim is stored leaves the row, or fails it if it was not finished. */
  lemma UnstoredClaimIsRun(cfg: P.Config, p: P.Preview, row: Row, s: P.SessionId, rq: P.RqId, allowRunning: bool,
                           rest: Rest, endedAt: int)
    requires Entered(cfg, p, row, s, rq, allowRunning)
    ensures Continue(cfg, p, [StoppingUnclaimed(rest, s, endedAt)])
            == Some(With(p, AfterUnclaimed(row, rest, endedAt), s, P.Unlocking(rq, rest.raised)))
  {
    if rest.failure.Some? {
      FailingUnclaimedIsRun(cfg, p, row, s, rq, allowRunning, rest.raised, endedAt);
    } else {
      StoppingUnclaimedIsRun(cfg, p, row, s, rq, allowRunning, rest.raised);
    }
  }

  function AfterUnclaimed(row: Row, rest: Rest, endedAt: int): Row {
    if rest.failure.Some? then AfterFailure(row, false, OPERATIONAL_FAILURE, endedAt) else row
  }

  /** The same for the call: what is left to be done after trouble is what it does. */
  lemma TroubledCallIsRest(row: Row, allowRunning: bool, call: JobCall, s: P.SessionId, startedAt: int, endedAt: int)
    requires call.before.None? && (call.between.Some? || call.run.claim.Some?)
    ensures var claimed := call.between.None? && call.run.claimStored && Claimable(row, allowRunning);
            var rest := if call.between.Some? then RestUnstored(call.between.value, call.lastResort)
                        else RestOfClaim(call);
            Processed(Some(row), true, allowRunning, call, startedAt, endedAt)
            == (Some(if claimed then Stopped(Claim(row, startedAt), Stopping(rest, s, endedAt), endedAt)
                     else AfterUnclaimed(row, rest, endedAt)),
                rest.raised)
  {
  }

  lemma TroubledCallIsRun(cfg: P.Config, p: P.Preview, row: Row, s: P.SessionId, rq: P.RqId, allowRunning: bool,
                          call: JobCall, startedAt: int, endedAt: int)
    requires Entered(cfg, p, row, s, rq, allowRunning) && call.before.None?
    requires call.between.Some? || call.run.claim.Some?
    ensures var (next, raised) := Processed(Some(row), true, allowRunning, call, startedAt, endedAt);
            && next.Some?
            && Continue(cfg, p, StepsOf(row, allowRunning, call, s, startedAt, endedAt))
               == Some(With(p, next.value, s, P.Unlocking(rq, raised)))
  {
    TroubledCallIsRest(row, allowRunning, call, s, startedAt, endedAt);
    if call.between.Some? {
      UnstoredClaimIsRun(cfg, p, row, s, rq, allowRunning, RestUnstored(call.between.value, call.lastResort), endedAt);
    } else if call.run.claimStored && Claimable(row, allowRunning) {
      StoredClaimIsRun(cfg, p, row, s, rq, allowRunning, RestOfClaim(call), startedAt, endedAt);
    } else {
      UnstoredClaimIsRun(cfg, p, row, s, rq, allowRunning, RestOfClaim(call), endedAt);
    }
  }

  /** Under the lock, the call does to the row what a run of the protocol does, and raises if that run raises. */
  lemma CallIsRun(cfg: P.Config, p: P.Preview, row: Row, s: P.SessionId, rq: P.RqId, allowRunning: bool, call: JobCall,
                  startedAt: int, endedAt: int)
    requires Entered(cfg, p, row, s, rq, allowRunning) && call.before.None?
    requires !(Executes(row, true, allowRunning, call) && call.run.FailsAfterCompleting())
    ensures var (next, raised) := Processed(Some(row), true, allowRunning, call, startedAt, endedAt);
            && next.Some?
            && Continue(cfg, p, StepsOf(row, allowRunning, call, s, startedAt, endedAt))
               == Some(With(p, next.value, s, P.Unlocking(rq, raised)))
  {
    if call.between.Some? || call.run.claim.Some? {
      TroubledCallIsRun(cfg, p, row, s, rq, allowRunning, call, startedAt, endedAt);
    } else {
      ClaimingIsRun(cfg, p, row, s, rq, allowRunning, startedAt);
      if Claimable(row, allowRunning) {
        var k := call.run.StageReached();
        var claimed := Claim(row, startedAt);
        UpdatesAreRun(cfg, p, [P.ClaimJob(s, startedAt)], claimed, s, rq, k);
        EndingIsRun(cfg, p, [P.ClaimJob(s, startedAt)] + Updates(s, k), Advance(claimed, k), s, rq, call, endedAt);
        EndingIsEnd(row, allowRunning, call, s, startedAt, endedAt);
      }
    }
  }
}
