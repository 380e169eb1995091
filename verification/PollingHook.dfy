/** The dashboard's hook that submits a preview and polls its job, with stale answers ignored by generation. */
module PollingHook {
  import opened Wrappers
  import opened JobRow

  /** A preview job as the API shows it. */
  datatype PreviewJob = PreviewJob(id: JobId, status: Status, error: Option<string>, result: Option<int>)
  {
    predicate Active() {
      status.Queued? || status.Running?
    }
  }

  /** Why a request failed. */
  datatype Problem = AbortError | ApiError(message: string) | OtherError

  const POLL_FAILURE := "Unable to check the preview job. Please try again."

  function GetErrorMessage(problem: Problem): string {
    match problem
    case AbortError => ""
    case ApiError(message) => message
    case OtherError => POLL_FAILURE
  }

  function FailureMessage(job: PreviewJob): string {
    if job.error.Some? then job.error.value else OPERATIONAL_FAILURE
  }

  function QueuedJob(id: JobId): PreviewJob {
    PreviewJob(id, Queued, None, None)
  }

  type RequestId = nat

  /** A request that has not been answered yet, with the generation in which it was sent. */
  datatype Request = SubmitRequest(generation: nat) | PollRequest(generation: nat, id: JobId)

  datatype Timer = Timer(id: JobId, generation: nat)

  /** The hook's cells, and what the browser keeps for it: unanswered requests, aborted ones, and a count of all. */
  datatype State = State(
    generation: nat, timer: Option<Timer>, request: Option<RequestId>,
    job: Option<PreviewJob>, preview: Option<int>, error: Option<string>, isSubmitting: bool,
    pending: map<RequestId, Request>, aborted: set<RequestId>, sent: nat)
  {
    predicate IsActive() {
      isSubmitting || (job.Some? && job.value.Active())
    }
  }

  const MOUNTED := State(0, None, None, None, None, None, false, map[], {}, 0)

  datatype Event =
    | Submit
    | Reset
    | SubmitAnswered(request: RequestId, id: JobId)
    | SubmitFailed(request: RequestId, problem: Problem)
    | PollAnswered(request: RequestId, job: PreviewJob)
    | PollFailed(request: RequestId, problem: Problem)
    | TimerFires

  /** What can happen: any unanswered request may be answered, however late; the API answers with the job asked for. */
  predicate Possible(s: State, event: Event) {
    match event
    case Submit => true
    case Reset => true
    case SubmitAnswered(r, _) => r in s.pending && s.pending[r].SubmitRequest?
    case SubmitFailed(r, _) => r in s.pending && s.pending[r].SubmitRequest?
    case PollAnswered(r, job) => r in s.pending && s.pending[r].PollRequest? && job.id == s.pending[r].id
    case PollFailed(r, _) => r in s.pending && s.pending[r].PollRequest?
    case TimerFires => s.timer.Some?
  }

  // ----- what happens, as functions of the state -----

  function Stopped(s: State): State {
    s.(generation := s.generation + 1, timer := None, request := None,
       aborted := if s.request.Some? then s.aborted + {s.request.value} else s.aborted)
  }

  function Sent(s: State, request: Request): State {
    s.(request := Some(s.sent), pending := s.pending[s.sent := request], sent := s.sent + 1)
  }

  function Polling(s: State, id: JobId, generation: nat): State {
    if generation != s.generation then s else Sent(s, PollRequest(generation, id))
  }

  function Answered(s: State, r: RequestId): State {
    s.(pending := s.pending - {r})
  }

  function PollAgain(s: State, id: JobId): State {
    s.(request := None, timer := Some(Timer(id, s.generation)))
  }

  function Apply(s: State, event: Event): State
    requires Possible(s, event)
  {
    match event
    case Submit =>
      Sent(Stopped(s).(job := None, preview := None, error := None, isSubmitting := true),
          SubmitRequest(s.generation + 1))
    case Reset => Stopped(s).(job := None, preview := None, error := None, isSubmitting := false)
    case SubmitAnswered(r, id) =>
      if s.pending[r].generation != s.generation then Answered(s, r)
      else Polling(Answered(s, r).(job := Some(QueuedJob(id)), isSubmitting := false, request := None), id,
          s.generation)
    case SubmitFailed(r, problem) =>
      if s.pending[r].generation != s.generation || r in s.aborted then Answered(s, r)
      else Answered(s, r).(error := Some(GetErrorMessage(problem)), isSubmitting := false, request := None)
    case PollAnswered(r, job) =>
      if s.pending[r].generation != s.generation then Answered(s, r)
      else
        var next := Answered(s, r).(job := Some(job), error := None);
        if job.status.Completed? then next.(preview := job.result, request := None)
        else if job.status.Failed? then next.(error := Some(FailureMessage(job)), request := None)
        else PollAgain(next, s.pending[r].id)
    case PollFailed(r, problem) =>
      if s.pending[r].generation != s.generation || r in s.aborted then Answered(s, r)
      else PollAgain(Answered(s, r).(error := Some(GetErrorMessage(problem))), s.pending[r].id)
    case TimerFires => Polling(s.(timer := None), s.timer.value.id, s.timer.value.generation)
  }

  // ----- the hook -----

  class PreviewJobPolling {
    var generation: nat
    var timer: Option<Timer>
    var request: Option<RequestId>
    var job: Option<PreviewJob>
    var preview: Option<int>
    var error: Option<string>
    var isSubmitting: bool
    var pending: map<RequestId, Request>
    var aborted: set<RequestId>
    var sent: nat

    constructor ()
      ensures Now() == MOUNTED
    {
      generation, timer, request, job, preview, error, isSubmitting := 0, None, None, None, None, None, false;
      pending, aborted, sent := map[], {}, 0;
    }

    ghost function Now(): State
      reads this
    {
      State(generation, timer, request, job, preview, error, isSubmitting, pending, aborted, sent)
    }

    predicate IsActive()
      reads this
      ensures IsActive() == Now().IsActive()
    {
      isSubmitting || (job.Some? && (job.value.status.Queued? || job.value.status.Running?))
    }

    method StopCurrentRequest()
      modifies this
      ensures Now() == Stopped(old(Now()))
    {
      generation := generation + 1;
      timer := None;
      if request.Some? {
        aborted := aborted + {request.value};
      }
      request := None;
    }

    method Reset()
      modifies this
      ensures Now() == Apply(old(Now()), Event.Reset)
    {
      StopCurrentRequest();
      job, preview, error, isSubmitting := None, None, None, false;
    }

    /** Sends a request under a new controller, which becomes the current one. */
    method Send(r: Request)
      modifies this
      ensures Now() == Sent(old(Now()), r)
    {
      request := Some(sent);
      pending := pending[sent := r];
      sent := sent + 1;
    }

    method Submit()
      modifies this
      ensures Now() == Apply(old(Now()), Event.Submit)
    {
      StopCurrentRequest();
      job, preview, error, isSubmitting := None, None, None, true;
      Send(SubmitRequest(generation));
    }

    method Poll(id: JobId, ofGeneration: nat)
      modifies this
      ensures Now() == Polling(old(Now()), id, ofGeneration)
    {
      if ofGeneration != generation {
        return;
      }
      Send(PollRequest(ofGeneration, id));
    }

    method OnSubmitAnswered(r: RequestId, id: JobId) returns (accepted: bool)
      requires Possible(Now(), SubmitAnswered(r, id))
      modifies this
      ensures Now() == Apply(old(Now()), SubmitAnswered(r, id))
      ensures accepted == (old(pending)[r].generation == old(generation))
    {
      var ofGeneration := pending[r].generation;
      pending := pending - {r};
      if ofGeneration != generation {
        return false;
      }
      job := Some(QueuedJob(id));
      isSubmitting := false;
      request := None;
      Poll(id, ofGeneration);
      return true;
    }

    method OnSubmitFailed(r: RequestId, problem: Problem)
      requires Possible(Now(), SubmitFailed(r, problem))
      modifies this
      ensures Now() == Apply(old(Now()), SubmitFailed(r, problem))
    {
      var ofGeneration := pending[r].generation;
      pending := pending - {r};
      if ofGeneration != generation || r in aborted {
        return;
      }
      error := Some(GetErrorMessage(problem));
      isSubmitting := false;
      request := None;
    }

    method OnPollAnswered(r: RequestId, nextJob: PreviewJob)
      requires Possible(Now(), PollAnswered(r, nextJob))
      modifies this
      ensures Now() == Apply(old(Now()), PollAnswered(r, nextJob))
    {
      var poll := pending[r];
      pending := pending - {r};
      if poll.generation != generation {
        return;
      }
      job := Some(nextJob);
      error := None;
      if nextJob.status.Completed? {
        preview := nextJob.result;
        request := None;
        return;
      }
      if nextJob.status.Failed? {
        error := Some(FailureMessage(nextJob));
        request := None;
        return;
      }
      request := None;
      timer := Some(Timer(poll.id, poll.generation));
    }

    method OnPollFailed(r: RequestId, problem: Problem)
      requires Possible(Now(), PollFailed(r, problem))
      modifies this
      ensures Now() == Apply(old(Now()), PollFailed(r, problem))
    {
      var poll := pending[r];
      pending := pending - {r};
      if poll.generation != generation || r in aborted {
        return;
      }
      error := Some(GetErrorMessage(problem));
      request := None;
      timer := Some(Timer(poll.id, poll.generation));
    }

    method OnTimer()
      requires Possible(Now(), TimerFires)
      modifies this
      ensures Now() == Apply(old(Now()), TimerFires)
    {
      var due := timer.value;
      timer := None;
      Poll(due.id, due.generation);
    }
  }
}
