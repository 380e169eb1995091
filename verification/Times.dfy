/** Comparing the reconciler's clock with stored times, which may or may not carry a time zone. */
module Times {
  import opened Wrappers
  import opened JobRow
  import P = Protocol

  /** Microseconds on a wall clock somewhere, or at an instant as shown `offset` away from UTC. */
  datatype Time = Naive(wall: int) | Aware(instant: int, offset: int)

  function ComparableTime(reference: Time, value: Time): Time {
    if value.Naive? then Naive(if reference.Naive? then reference.wall else reference.instant + reference.offset)
    else reference
  }

  /** Python orders and subtracts two times only if both carry a zone or neither does. */
  predicate Comparable(a: Time, b: Time) {
    a.Naive? == b.Naive?
  }

  function Minus(a: Time, b: Time): int
    requires Comparable(a, b)
  {
    if a.Naive? then a.wall - b.wall else a.instant - b.instant
  }

  /** `None` for Python's type error. */
  function IsStale(now: Time, startedAt: Option<Time>, after: nat): Option<bool> {
    if startedAt.None? then Some(true)
    else
      var reference := ComparableTime(now, startedAt.value);
      if Comparable(reference, startedAt.value) then Some(Minus(reference, startedAt.value) >= after) else None
  }

  /** The instant of a stored time, a time without a zone being stored in UTC. */
  function Stored(t: Time): int {
    if t.Naive? then t.wall else t.instant
  }

  /** A reference with a zone can be compared with every stored time; one without, only with its like. */
  lemma ComparableExactlyIf(reference: Time, value: Time)
    ensures Comparable(ComparableTime(reference, value), value) <==> reference.Aware? || value.Naive?
  {
  }

  /** Against a UTC clock staleness is the time elapsed since the start, whichever way the start is stored. */
  lemma StaleIsElapsed(cfg: P.Config, row: Row, now: int, startedAt: Option<Time>)
    requires row.status.Running?
    requires row.startedAt == if startedAt.Some? then Some(Stored(startedAt.value)) else None
    ensures IsStale(Aware(now, 0), startedAt, cfg.staleAfter) == Some(P.Stale(cfg, row, now))
  {
  }

  /** Against a clock in another zone it is off by that zone's offset for times stored without one, and only then. */
  lemma OffsetMatters(now: int, offset: int, startedAt: Time, after: nat)
    ensures IsStale(Aware(now, offset), Some(startedAt), after)
            == Some(now + (if startedAt.Naive? then offset else 0) - Stored(startedAt) >= after)
  {
  }
}
