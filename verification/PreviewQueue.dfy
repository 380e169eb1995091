/** The RQ adapter: what it enqueues with which retries, and the bounded scan for live previews. */
module PreviewQueue {
  import opened Wrappers
  import opened JobRow

  type RqId = nat

  /** The first argument of an RQ call, as far as it reads as a UUID. */
  datatype Argument = Missing | Malformed | Uuid(id: JobId)

  datatype RetryPolicy = RetryPolicy(max: nat, intervals: seq<nat>)

  /** An RQ job: whether it calls `process_preview_job`, with what, and how it is retried. */
  datatype RqCall = RqCall(isPreview: bool, argument: Argument, retry: Option<RetryPolicy>)
  {
    predicate Concerns(id: JobId) {
      isPreview && argument == Uuid(id)
    }
  }

  const QUEUE_TOO_LONG := "Preview queue exceeds the bounded reconciliation scan limit."
  const REGISTRIES_TOO_LONG := "Preview registries exceed the reconciliation scan limit."

  /** Python's `intervals[-retries:]`. */
  function LastIntervals(intervals: seq<nat>, retries: nat): seq<nat>
    requires retries > 0
  {
    if retries <= |intervals| then intervals[|intervals| - retries..] else intervals
  }

  /** The settings guarantee `maxRetries <= |intervals|`; then each remaining retry keeps its own interval. */
  lemma RetriesKeepTheirIntervals(intervals: seq<nat>, maxRetries: nat, retries: nat, left: nat)
    requires 0 < left <= retries <= maxRetries <= |intervals|
    ensures |LastIntervals(intervals, retries)| == retries
    ensures LastIntervals(intervals, retries)[retries - left]
            == LastIntervals(intervals, maxRetries)[maxRetries - left]
  {
  }

  function PolicyFor(intervals: seq<nat>, retries: int): Option<RetryPolicy> {
    if retries > 0 then Some(RetryPolicy(retries, LastIntervals(intervals, retries))) else None
  }

  /** As many retries as are asked for, each keeping its own interval; none for a count that is not positive. */
  predicate IsPolicy(policy: Option<RetryPolicy>, intervals: seq<nat>, retries: int) {
    if retries <= 0 then policy == None
    else
      && policy.Some? && policy.value.max == retries
      && policy.value.intervals == if retries <= |intervals| then intervals[|intervals| - retries..] else intervals
  }

  /** The previews that the listed RQ jobs are for; a job that has vanished, or is something else, counts for none. */
  function PreviewsOf(jobs: map<RqId, RqCall>, rqIds: set<RqId>): set<JobId> {
    set r | r in rqIds && r in jobs && jobs[r].isPreview && jobs[r].argument.Uuid? :: jobs[r].argument.id
  }

  function Members<T>(s: seq<T>): set<T> {
    set x | x in s
  }

  lemma EntryAdded(jobs: map<RqId, RqCall>, entries: seq<RqId>, rq: RqId, id: JobId, jobs': map<RqId, RqCall>,
                   entries': seq<RqId>)
    requires rq !in jobs && rq in jobs' && jobs' == jobs[rq := jobs'[rq]] && jobs'[rq].Concerns(id)
    requires forall r :: r in entries' <==> r in entries || r == rq
    ensures PreviewsOf(jobs', Members(entries')) == PreviewsOf(jobs, Members(entries)) + {id}
  {
    var before, after := PreviewsOf(jobs, Members(entries)), PreviewsOf(jobs', Members(entries'));
    assert id in after by {
      assert rq in Members(entries') && jobs'[rq].argument.id == id;
    }
    forall x | x in before
      ensures x in after
    {
      var r :| r in Members(entries) && r in jobs && jobs[r].Concerns(x);
      assert r in Members(entries') && jobs'[r].Concerns(x);
    }
  }

  class RqPreviewQueue {
    const maxRetries: nat
    const retryIntervals: seq<nat>

    // RQ's own state: the queue, its registries, and the stored jobs.
    var queued: seq<RqId>
    var started: seq<RqId>
    var deferred: seq<RqId>
    var scheduled: seq<RqId>
    var jobs: map<RqId, RqCall>

    constructor (maxRetries: nat, retryIntervals: seq<nat>)
      ensures this.maxRetries == maxRetries && this.retryIntervals == retryIntervals
      ensures Entries() == [] && jobs == map[]
    {
      this.maxRetries, this.retryIntervals := maxRetries, retryIntervals;
      queued, started, deferred, scheduled, jobs := [], [], [], [], map[];
    }

    /** Every RQ job that is queued, executing, deferred or scheduled. */
    function Entries(): seq<RqId>
      reads this
    {
      queued + started + deferred + scheduled
    }

    /** The previews with a live RQ job. */
    function LivePreviews(): set<JobId>
      reads this
    {
      PreviewsOf(jobs, Members(Entries()))
    }

    /** No preview has two live RQ jobs. */
    ghost predicate AtMostOneEach()
      reads this
    {
      forall r1, r2 :: r1 in Entries() && r2 in Entries() && r1 in jobs && r2 in jobs
                       && jobs[r1].isPreview && jobs[r1].argument.Uuid? && jobs[r2].Concerns(jobs[r1].argument.id) ==>
        r1 == r2
    }

    /** RQ stores the job under a fresh id and puts it at the end of the queue. */
    method Enqueue(rq: RqId, id: JobId, retryCount: Option<int> := None)
      requires rq !in jobs
      modifies this`queued, this`jobs
      ensures queued == old(queued) + [rq]
      ensures jobs == old(jobs)[rq := RqCall(true, Uuid(id),
          PolicyFor(retryIntervals, if retryCount.None? then maxRetries else retryCount.value))]
      ensures IsPolicy(jobs[rq].retry, retryIntervals, if retryCount.None? then maxRetries else retryCount.value)
      ensures LivePreviews() == old(LivePreviews()) + {id}
      ensures old(AtMostOneEach()) && id !in old(LivePreviews()) ==> AtMostOneEach()
    {
      var retries := if retryCount.None? then maxRetries else retryCount.value;
      var retry := None;
      if retries > 0 {
        retry := Some(RetryPolicy(retries, LastIntervals(retryIntervals, retries)));
      }
      jobs := jobs[rq := RqCall(true, Uuid(id), retry)];
      queued := queued + [rq];
      EntryAdded(old(jobs), old(Entries()), rq, id, jobs, Entries());
    }

    /** All live previews, or an error exactly when there are more entries than may be scanned. */
    method ActivePreviewJobIds(scanLimit: nat) returns (result: Result<set<JobId>, string>)
      ensures result.Ok? <==> |Entries()| <= scanLimit
      ensures result.Ok? ==> result.value == LivePreviews()
      ensures result.Err? ==> result.error == if |queued| > scanLimit then QUEUE_TOO_LONG else REGISTRIES_TOO_LONG
    {
      var registries := [started, deferred, scheduled];
      var rqIds := AtMost(queued, scanLimit + 1);
      if |rqIds| > scanLimit {
        return Err(QUEUE_TOO_LONG);
      }
      for i := 0 to 3
        invariant rqIds == [queued, queued + started, queued + started + deferred, Entries()][i]
        invariant |rqIds| <= scanLimit
      {
        var remaining := scanLimit - |rqIds|;
        // The registry's end index is inclusive, so one entry too many can show.
        rqIds := rqIds + AtMost(registries[i], remaining + 1);
        if |rqIds| > scanLimit {
          return Err(REGISTRIES_TOO_LONG);
        }
      }

      var previewIds := {};
      var unseen := Members(rqIds);
      while unseen != {}
        invariant unseen <= Members(rqIds)
        invariant previewIds == PreviewsOf(jobs, Members(rqIds) - unseen)
        decreases |unseen|
      {
        var rq :| rq in unseen;
        if rq in jobs && jobs[rq].isPreview && jobs[rq].argument.Uuid? {
          previewIds := previewIds + {jobs[rq].argument.id};
        }
        unseen := unseen - {rq};
      }
      assert Members(rqIds) - unseen == Members(Entries());
      return Ok(previewIds);
    }
  }

  /** What a bounded listing returns: everything, or the first `length`. */
  function AtMost<T>(s: seq<T>, length: nat): seq<T> {
    if |s| <= length then s else s[..length]
  }
}
