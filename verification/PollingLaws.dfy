/** What a reader of the polling hook may rely on, over any interleaving of actions, timers and late answers. */
module PollingLaws {
  import opened Wrappers
  import opened JobRow
  import opened PollingHook

  /** The state after a sequence of events, if each was possible in its turn. */
  function Continue(s: State, events: seq<Event>): Option<State> {
    if events == [] then Some(s)
    else
      var before := Continue(s, events[..|events| - 1]);
      var event := events[|events| - 1];
      if before.Some? && Possible(before.value, event) then Some(Apply(before.value, event)) else None
  }

  ghost predicate RequestsOk(s: State) {
    && (forall r :: r in s.pending ==> r < s.sent && s.pending[r].generation <= s.generation)
    && (forall r :: r in s.pending && s.pending[r].generation < s.generation ==> r in s.aborted)
    && (forall r :: r in s.aborted ==> r < s.sent)
    && (forall r :: r in s.pending && s.pending[r].generation == s.generation ==> s.request == Some(r))
    && (s.request.Some? ==>
          s.request.value in s.pending && s.pending[s.request.value].generation == s.generation
              && s.request.value !in s.aborted)
    && (s.timer.Some? ==> s.request.None? && s.timer.value.generation == s.generation)
  }

  /** What the hook waits for fits what it shows. */
  ghost predicate CellsOk(s: State)
    requires RequestsOk(s)
  {
    && (s.isSubmitting <==> s.request.Some? && s.pending[s.request.value].SubmitRequest?)
    && (s.isSubmitting ==> s.job.None?)
    && (s.request.Some? && !s.isSubmitting ==>
          s.job.Some? && s.job.value.Active() && s.pending[s.request.value]
              == PollRequest(s.generation, s.job.value.id))
    && (s.timer.Some? ==> s.job.Some? && s.job.value.Active() && s.timer.value.id == s.job.value.id)
    && (s.job.Some? && s.job.value.Active() ==> s.request.Some? || s.timer.Some?)
    && s.preview == (if s.job.Some? && s.job.value.status.Completed? then s.job.value.result else None)
    && (s.job.Some? && s.job.value.status.Completed? ==> s.error.None?)
    && (s.job.Some? && s.job.value.status.Failed? ==> s.error == Some(FailureMessage(s.job.value)))
  }

  ghost predicate Inv(s: State) {
    RequestsOk(s) && CellsOk(s)
  }

  lemma StartsKeep(s: State, event: Event)
    requires Inv(s) && Possible(s, event) && (event.Submit? || event.Reset? || event.TimerFires?)
    ensures Inv(Apply(s, event))
  {
  }

  lemma SubmitAnswersKeep(s: State, event: Event)
    requires Inv(s) && Possible(s, event) && (event.SubmitAnswered? || event.SubmitFailed?)
    ensures Inv(Apply(s, event))
  {
  }

  lemma PollAnswersKeep(s: State, event: Event)
    requires Inv(s) && Possible(s, event) && (event.PollAnswered? || event.PollFailed?)
    ensures Inv(Apply(s, event))
  {
  }

  lemma EventKeeps(s: State, event: Event)
    requires Inv(s) && Possible(s, event)
    ensures Inv(Apply(s, event))
  {
    match event
    case Submit => StartsKeep(s, event);
    case Reset => StartsKeep(s, event);
    case TimerFires => StartsKeep(s, event);
    case SubmitAnswered(_, _) => SubmitAnswersKeep(s, event);
    case SubmitFailed(_, _) => SubmitAnswersKeep(s, event);
    case PollAnswered(_, _) => PollAnswersKeep(s, event);
    case PollFailed(_, _) => PollAnswersKeep(s, event);
  }

  lemma {:induction false} RunKeeps(s: State, events: seq<Event>)
    requires Inv(s) && Continue(s, events).Some?
    ensures Inv(Continue(s, events).value)
  {
    if events != [] {
      RunKeeps(s, events[..|events| - 1]);
      EventKeeps(Continue(s, events[..|events| - 1]).value, events[|events| - 1]);
    }
  }

  // ----- what an answer shows -----

  function TextOf(problem: Problem): string {
    match problem
    case AbortError => ""
    case ApiError(message) => message
    case OtherError => "Unable to check the preview job. Please try again."
  }

  /** After its own submit's or poll's failure the hook shows that failure; after an answer, what was answered. */
  lemma AnswersAreShown(s: State, event: Event)
    requires Inv(s) && Possible(s, event)
    requires event.SubmitFailed? || event.PollFailed? || event.SubmitAnswered? || event.PollAnswered?
    requires s.pending[event.request].generation == s.generation
    ensures var t := Apply(s, event);
            match event
            case SubmitFailed(_, problem) =>
              t.error == Some(TextOf(problem)) && t.job == s.job && t.preview == s.preview && !t.IsActive()
            case PollFailed(_, problem) =>
              && t.error == Some(TextOf(problem)) && t.job == s.job && t.preview == s.preview
              && t.timer == Some(Timer(s.pending[event.request].id, s.generation))
            case SubmitAnswered(_, id) =>
              t.job == Some(PreviewJob(id, Queued, None, None)) && !t.isSubmitting && t.error == s.error
            case PollAnswered(_, job) =>
              && t.job == Some(job)
              && t.preview == (if job.status.Completed? then job.result else s.preview)
              && t.error == (if !job.status.Failed? then None
                             else if job.error.Some? then job.error
                             else Some("Unable to complete the strategy preview."))
              && (t.timer.Some? <==> job.status.Queued? || job.status.Running?)
            case _ => true
  {
  }

  // ----- what the hook is waiting for -----

  /** The unanswered requests of the current generation. */
  function LiveRequests(s: State): set<RequestId> {
    set r | r in s.pending && s.pending[r].generation == s.generation
  }

  /** How many things can still wake the hook: requests and a timer of the current generation. */
  function Awaited(s: State): nat {
    |LiveRequests(s)| + if s.timer.Some? && s.timer.value.generation == s.generation then 1 else 0
  }

  /** The hook says that it is active exactly when one request or timer of the current generation is outstanding. */
  lemma ActiveMeansOneAwaited(events: seq<Event>)
    requires Continue(MOUNTED, events).Some?
    ensures var s := Continue(MOUNTED, events).value;
            && (s.IsActive() <==> Awaited(s) == 1)
            && (!s.IsActive() <==> Awaited(s) == 0)
  {
    RunKeeps(MOUNTED, events);
    var s := Continue(MOUNTED, events).value;
    assert LiveRequests(s) == if s.request.Some? then {s.request.value} else {};
  }

  /** A preview is shown only for a completed job, and is that job's own result. */
  lemma PreviewMeansCompleted(events: seq<Event>)
    requires Continue(MOUNTED, events).Some?
    ensures var s := Continue(MOUNTED, events).value;
            && (s.preview.Some? ==>
                  && s.job.Some? && s.job.value.status.Completed?
                  && s.preview == s.job.value.result && s.error.None?)
            && (s.job.Some? && s.job.value.status.Failed? ==> s.preview.None? && s.error.Some?)
  {
    RunKeeps(MOUNTED, events);
  }

  // ----- late answers and quiet times -----

  predicate SameView(s: State, t: State) {
    s.job == t.job && s.preview == t.preview && s.error == t.error && s.isSubmitting == t.isSubmitting
  }

  /** The answer to a request of an earlier generation changes nothing that is shown, nor what is awaited. */
  lemma LateAnswersAreIgnored(s: State, event: Event)
    requires Inv(s) && Possible(s, event)
    requires event.SubmitAnswered? || event.SubmitFailed? || event.PollAnswered? || event.PollFailed?
    requires s.pending[event.request].generation != s.generation
    ensures SameView(s, Apply(s, event)) && Apply(s, event).timer == s.timer && Apply(s, event).request == s.request
  {
  }

  /** Once inactive, after a reset, an error or a finished job, the hook shows the same until it is used again. */
  lemma {:induction false} InactiveStaysQuiet(s: State, events: seq<Event>)
    requires Inv(s) && !s.IsActive() && Continue(s, events).Some?
    requires forall i :: 0 <= i < |events| ==> !events[i].Submit? && !events[i].Reset?
    ensures SameView(s, Continue(s, events).value) && !Continue(s, events).value.IsActive()
  {
    if events != [] {
      var shorter := events[..|events| - 1];
      InactiveStaysQuiet(s, shorter);
      RunKeeps(s, shorter);
      var before := Continue(s, shorter).value;
      assert before.request.None? && before.timer.None?;
    }
  }

  // ----- whose job is shown -----

  /** The request that the latest submit sent, unless a reset came after it. */
  function LatestSubmit(events: seq<Event>): Option<RequestId>
    requires Continue(MOUNTED, events).Some?
  {
    if events == [] then None
    else
      var shorter := events[..|events| - 1];
      match events[|events| - 1]
      case Submit => Some(Continue(MOUNTED, shorter).value.sent)
      case Reset => None
      case _ => LatestSubmit(shorter)
  }

  /** The job that the API has given that submit, if it has answered. */
  function LatestJob(events: seq<Event>): Option<JobId>
    requires Continue(MOUNTED, events).Some?
  {
    if events == [] then None
    else
      var shorter := events[..|events| - 1];
      match events[|events| - 1]
      case Submit => None
      case Reset => None
      case SubmitAnswered(r, id) => if LatestSubmit(shorter) == Some(r) then Some(id) else LatestJob(shorter)
      case _ => LatestJob(shorter)
  }

  /** The latest submit's request is the one of the current generation. */
  ghost predicate Linked(s: State, latest: Option<RequestId>, given: Option<JobId>) {
    && given == (if s.job.Some? then Some(s.job.value.id) else None)
    && (latest.Some? ==> latest.value < s.sent)
    && (latest.Some? && latest.value in s.pending ==> s.pending[latest.value] == SubmitRequest(s.generation))
    && (forall r :: r in s.pending && s.pending[r] == SubmitRequest(s.generation) ==> latest == Some(r))
  }

  lemma StartsStayLinked(s: State, event: Event, latest: Option<RequestId>, given: Option<JobId>)
    requires Inv(s) && Possible(s, event) && Linked(s, latest, given)
    ensures event.Submit? ==> Linked(Apply(s, event), Some(s.sent), None)
    ensures event.Reset? ==> Linked(Apply(s, event), None, None)
    ensures event.TimerFires? ==> Linked(Apply(s, event), latest, given)
  {
  }

  lemma AnswersStayLinked(s: State, event: Event, latest: Option<RequestId>, given: Option<JobId>)
    requires Inv(s) && Possible(s, event) && Linked(s, latest, given) && !event.Submit? && !event.Reset?
        && !event.TimerFires?
    ensures Linked(Apply(s, event), latest, if event.SubmitAnswered?
        && latest == Some(event.request) then Some(event.id) else given)
  {
  }

  /** The job shown, and with it the preview, is always the one that the latest submit was given. */
  lemma {:induction false} ShowsLatestSubmit(events: seq<Event>)
    requires Continue(MOUNTED, events).Some?
    ensures Linked(Continue(MOUNTED, events).value, LatestSubmit(events), LatestJob(events))
  {
    if events != [] {
      var shorter := events[..|events| - 1];
      var event := events[|events| - 1];
      var s := Continue(MOUNTED, shorter).value;
      ShowsLatestSubmit(shorter);
      RunKeeps(MOUNTED, shorter);
      if event.Submit? || event.Reset? || event.TimerFires? {
        StartsStayLinked(s, event, LatestSubmit(shorter), LatestJob(shorter));
      } else {
        AnswersStayLinked(s, event, LatestSubmit(shorter), LatestJob(shorter));
      }
    }
  }
}
