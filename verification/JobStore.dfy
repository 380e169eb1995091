/** The durable store: its rows, its advisory locks, and the functions that change them. */
module JobStore {
  import opened Wrappers
  import opened JobRow

  type SessionId = nat

  datatype StoredJob = StoredJob(userId: JobId, strategyText: string, strategyName: Option<string>, row: Row)

  /** Times are whole microseconds, as the source's are. */
  const MICROS_PER_SECOND := 1_000_000
  const MICROS_PER_HOUR := 3600 * MICROS_PER_SECOND

  // ----- advisory lock keys -----

  const TWO_TO_THE_31 := 0x8000_0000
  const TWO_TO_THE_32 := 0x1_0000_0000
  const TWO_TO_THE_64 := 0x1_0000_0000_0000_0000

  function Signed(value: int): int {
    if value < TWO_TO_THE_31 then value else value - TWO_TO_THE_32
  }

  /** `(id >> 32) & 0xFFFFFFFF` and `id & 0xFFFFFFFF`, each as a signed 32-bit integer. */
  function AdvisoryLockKeys(id: JobId): (int, int) {
    (Signed((id / TWO_TO_THE_32) % TWO_TO_THE_32), Signed(id % TWO_TO_THE_32))
  }

  lemma LowHalf(id: JobId)
    ensures id % TWO_TO_THE_64 == (id / TWO_TO_THE_32) % TWO_TO_THE_32 * TWO_TO_THE_32 + id % TWO_TO_THE_32
  {
    var low, rest := id % TWO_TO_THE_32, id / TWO_TO_THE_32;
    var middle, high := rest % TWO_TO_THE_32, rest / TWO_TO_THE_32;
    assert id == high * TWO_TO_THE_64 + (middle * TWO_TO_THE_32 + low);
  }

  /** The keys fit PostgreSQL's types, and two previews share a lock exactly when their ids share the low 64 bits. */
  lemma LockKeysAreLowHalf(a: JobId, b: JobId)
    ensures var (first, second) := AdvisoryLockKeys(a);
            -TWO_TO_THE_31 <= first < TWO_TO_THE_31 && -TWO_TO_THE_31 <= second < TWO_TO_THE_31
    ensures AdvisoryLockKeys(a) == AdvisoryLockKeys(b) <==> a % TWO_TO_THE_64 == b % TWO_TO_THE_64
  {
    LowHalf(a);
    LowHalf(b);
  }

  function RowOf(rows: map<JobId, StoredJob>, id: JobId): Option<Row> {
    if id in rows then Some(rows[id].row) else None
  }

  // ----- reconciliation candidates -----

  predicate Nonterminal(rows: map<JobId, StoredJob>, id: JobId) {
    id in rows && !rows[id].row.Terminal()
  }

  /** The order of a batch: oldest first, then by id. */
  predicate Before(rows: map<JobId, StoredJob>, a: JobId, b: JobId)
    requires a in rows && b in rows
  {
    || rows[a].row.createdAt < rows[b].row.createdAt
    || (rows[a].row.createdAt == rows[b].row.createdAt && a < b)
  }

  /** The first `limit` nonterminal rows in order. */
  ghost predicate IsBatch(rows: map<JobId, StoredJob>, limit: nat, ids: seq<JobId>) {
    && |ids| <= limit
    && (forall i :: 0 <= i < |ids| ==> Nonterminal(rows, ids[i]))
    && (forall i, j :: 0 <= i < j < |ids| ==> Before(rows, ids[i], ids[j]))
    && (forall id :: Nonterminal(rows, id) && id !in ids ==>
          |ids| == limit && forall i :: 0 <= i < |ids| ==> Before(rows, ids[i], id))
  }

  /** A batch starts with the oldest rows, those of one time in the order of their ids. */
  lemma BatchIsOrdered(rows: map<JobId, StoredJob>, limit: nat, ids: seq<JobId>, i: nat, j: nat)
    requires IsBatch(rows, limit, ids) && i < j < |ids|
    ensures ids[i] in rows && ids[j] in rows
    ensures var a, b := rows[ids[i]].row.createdAt, rows[ids[j]].row.createdAt; a < b || (a == b && ids[i] < ids[j])
  {
    assert Nonterminal(rows, ids[i]) && Nonterminal(rows, ids[j]);
    assert Before(rows, ids[i], ids[j]);
  }

  /** A row is only left out of a full batch, and is no older than any row in it. */
  lemma BatchIsOldest(rows: map<JobId, StoredJob>, limit: nat, ids: seq<JobId>, i: nat, id: JobId)
    requires IsBatch(rows, limit, ids) && i < |ids| && Nonterminal(rows, id) && id !in ids
    ensures |ids| == limit && ids[i] in rows && rows[ids[i]].row.createdAt <= rows[id].row.createdAt
  {
    assert Nonterminal(rows, ids[i]);
    assert Before(rows, ids[i], id);
  }

  predicate IsEarliest(rows: map<JobId, StoredJob>, ids: set<JobId>, id: JobId)
    requires ids <= rows.Keys
  {
    id in ids && forall other :: other in ids && other != id ==> Before(rows, id, other)
  }

  lemma {:induction false} EarliestExists(rows: map<JobId, StoredJob>, ids: set<JobId>) returns (id: JobId)
    requires ids != {} && ids <= rows.Keys
    ensures IsEarliest(rows, ids, id)
    decreases |ids|
  {
    var some :| some in ids;
    var others := ids - {some};
    id := some;
    if others != {} {
      var least := EarliestExists(rows, others);
      if Before(rows, least, some) {
        id := least;
      }
      forall other | other in ids && other != id
        ensures Before(rows, id, other)
      {
        assert other == some || other in others;
      }
    }
  }

  // ----- the store -----

  type Positive = n: nat | n > 0 witness 1

  class JobStore {
    var rows: map<JobId, StoredJob>
    // Which session holds an advisory lock, and how many times over.
    var locks: map<(int, int), (SessionId, Positive)>

    constructor ()
      ensures rows == map[] && locks == map[]
    {
      rows, locks := map[], map[];
    }

    /** Whether an attempt to lock the id would succeed: locks belong to sessions and nest. */
    predicate Lockable(session: SessionId, id: JobId)
      reads this
    {
      AdvisoryLockKeys(id) in locks ==> locks[AdvisoryLockKeys(id)].0 == session
    }

    method CreateJob(id: JobId, userId: JobId, strategyText: string, strategyName: Option<string>, ttlHours: nat,
                     now: int)
      returns (created: bool)
      modifies this`rows
      ensures created <==> id !in old(rows)
      ensures rows == if created
                      then old(rows)[id := StoredJob(userId, strategyText, strategyName,
                          NewRow(now, ttlHours * MICROS_PER_HOUR))]
                      else old(rows)
      ensures created ==>
                var row := rows[id].row;
                && row.status.Queued? && row.stage.QueuedStage? && row.progress == 5 && row.attempts == 0
                && row.createdAt == now && row.expiresAt == now + ttlHours * 3_600_000_000
    {
      created := id !in rows;
      if created {
        rows := rows[id := StoredJob(userId, strategyText, strategyName,
          Row(Queued, QueuedStage, 5, 0, now, None, None, None, None, now + ttlHours * MICROS_PER_HOUR))];
      }
    }

    /** The row, if it is this user's. */
    method GetJob(id: JobId, userId: JobId) returns (job: Option<StoredJob>)
      ensures job == if id in rows && rows[id].userId == userId then Some(rows[id]) else None
    {
      job := None;
      if id in rows && rows[id].userId == userId {
        job := Some(rows[id]);
      }
    }

    /** Claims a queued row, or also a running one if allowed; never a finished one. */
    method ClaimJob(id: JobId, allowRunning: bool, now: int) returns (job: Option<StoredJob>)
      modifies this`rows
      ensures job.Some? <==> id in old(rows) && Claimable(old(rows)[id].row, allowRunning)
      ensures job.Some? ==> job.value == old(rows)[id].(row := Claim(old(rows)[id].row, now))
      ensures job.Some? ==>
                job.value.row == old(rows)[id].row.(status := Running, stage := Parsing, progress := 20,
                    startedAt := Some(now), completedAt := None, error := None,
                    attempts := old(rows)[id].row.attempts + 1)
      ensures rows == if job.Some? then old(rows)[id := job.value] else old(rows)
    {
      job := None;
      if id in rows && (rows[id].row.status.Queued? || (allowRunning && rows[id].row.status.Running?)) {
        var row := rows[id].row;
        rows := rows[id := rows[id].(row := row.(
          status := Running, stage := Parsing, progress := 20, startedAt := Some(now), completedAt := None,
          error := None,
          attempts := row.attempts + 1))];
        job := Some(rows[id]);
      }
    }

    /** The unguarded writes of a claimed job; they find nothing to change in a row that was deleted. */
    method UpdateProgress(id: JobId, k: nat) returns (written: bool)
      requires k <= LAST_STAGE
      modifies this`rows
      ensures written <==> id in old(rows)
      ensures rows == if written then old(rows)[id := old(rows)[id].(row := Advance(old(rows)[id].row, k))]
          else old(rows)
    {
      written := id in rows;
      if written {
        var (stage, progress) := StageAt(k);
        rows := rows[id := rows[id].(row := rows[id].row.(stage := stage, progress := progress))];
      }
    }

    method CompleteJob(id: JobId, result: int, now: int) returns (written: bool)
      modifies this`rows
      ensures written <==> id in old(rows)
      ensures rows == if written then old(rows)[id := old(rows)[id].(row := Complete(old(rows)[id].row, result,
          now))] else old(rows)
    {
      written := id in rows;
      if written {
        rows := rows[id := rows[id].(row := rows[id].row.(
          status := Completed, stage := CompletedStage, progress := 100, result := Some(result),
          completedAt := Some(now)))];
      }
    }

    method FailJob(id: JobId, error: string, now: int) returns (written: bool)
      modifies this`rows
      ensures written <==> id in old(rows)
      ensures rows == if written then old(rows)[id := old(rows)[id].(row := Fail(old(rows)[id].row, error, now))]
          else old(rows)
    {
      written := id in rows;
      if written {
        rows := rows[id := rows[id].(row := rows[id].row.(
          status := Failed, stage := FailedStage, progress := 100, error := Some(error), completedAt := Some(now)))];
      }
    }

    /** The guarded write: it changes nonterminal rows only, and says whether it did. */
    method TransitionAfterOperationalFailure(id: JobId, willRetry: bool, finalError: string, now: int)
      returns (changed: bool)
      modifies this`rows
      ensures changed <==> Nonterminal(old(rows), id)
      ensures rows == if id in old(rows)
                      then old(rows)[id := old(rows)[id].(row := AfterFailure(old(rows)[id].row, willRetry,
                          finalError, now))]
                      else old(rows)
    {
      changed := id in rows && (rows[id].row.status.Queued? || rows[id].row.status.Running?);
      if changed {
        var row := rows[id].row;
        if willRetry {
          row := row.(status := Queued, stage := QueuedStage, progress := 5, startedAt := None, completedAt := None,
              error := None);
        } else {
          row := row.(status := Failed, stage := FailedStage, progress := 100, completedAt := Some(now),
              error := Some(finalError));
        }
        rows := rows[id := rows[id].(row := row)];
      }
    }

    /** The oldest nonterminal rows, at most `limit`. */
    method ListReconciliationCandidates(limit: nat) returns (ids: seq<JobId>)
      ensures IsBatch(rows, limit, ids)
    {
      ids := [];
      var rest := set id | id in rows && !rows[id].row.Terminal();
      while |ids| < limit && rest != {}
        invariant |ids| <= limit
        invariant rest <= rows.Keys && forall id :: Nonterminal(rows, id) <==> id in ids || id in rest
        invariant forall i, j :: 0 <= i < j < |ids| ==> Before(rows, ids[i], ids[j])
        invariant forall i, id :: 0 <= i < |ids| && id in rest ==> Before(rows, ids[i], id)
        decreases |rest|
      {
        ghost var _ := EarliestExists(rows, rest);
        var next :| next in rest && IsEarliest(rows, rest, next);
        assert IsEarliest(rows, rest, next);
        ids := ids + [next];
        rest := rest - {next};
      }
    }

    method TryAcquirePreviewJobLock(session: SessionId, id: JobId) returns (acquired: bool)
      modifies this`locks
      ensures acquired <==> old(Lockable(session, id))
      ensures var keys := AdvisoryLockKeys(id);
              locks == if !acquired then old(locks)
                       else if keys in old(locks) then old(locks)[keys := (session, old(locks)[keys].1 + 1)]
                       else old(locks)[keys := (session, 1)]
    {
      var keys := AdvisoryLockKeys(id);
      acquired := true;
      if keys !in locks {
        locks := locks[keys := (session, 1)];
      } else if locks[keys].0 == session {
        locks := locks[keys := (session, locks[keys].1 + 1)];
      } else {
        acquired := false;
      }
    }

    /** Gives back one hold of the session on the lock; of a lock that is not its own it changes nothing. */
    method ReleasePreviewJobLock(session: SessionId, id: JobId)
      modifies this`locks
      ensures var keys := AdvisoryLockKeys(id);
              locks == if keys !in old(locks) || old(locks)[keys].0 != session then old(locks)
                       else if old(locks)[keys].1 == 1 then old(locks) - {keys}
                       else old(locks)[keys := (session, old(locks)[keys].1 - 1)]
    {
      var keys := AdvisoryLockKeys(id);
      if keys in locks && locks[keys].0 == session {
        if locks[keys].1 == 1 {
          locks := locks - {keys};
        } else {
          locks := locks[keys := (session, locks[keys].1 - 1)];
        }
      }
    }

    /** Rows past their expiry go, whatever their state. */
    method DeleteExpiredJobs(now: int) returns (deleted: nat)
      modifies this`rows
      ensures rows == map id | id in old(rows) && old(rows)[id].row.expiresAt >= now :: old(rows)[id]
      ensures deleted == |old(rows)| - |rows|
    {
      var kept := map id | id in rows && rows[id].row.expiresAt >= now :: rows[id];
      assert kept.Keys <= rows.Keys;
      deleted := |rows.Keys - kept.Keys|;
      assert |rows.Keys| == |kept.Keys| + |rows.Keys - kept.Keys|;
      rows := kept;
    }
  }
}
