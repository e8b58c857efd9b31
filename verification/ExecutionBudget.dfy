/** How long an operation may run: a wire duration, never the host clock. */
module ExecutionBudget {
  import opened Wrappers

  /** Times are integers on one axis per clock: wall time and the event loop's clock. */
  datatype Budget = Budget(localDeadline: int, monotonicDeadline: int)

  /** The receipt time the journal holds; `Unreadable` when it cannot be read as one. */
  datatype Origin = NotAsked | Unreadable | At(time: int)

  function Min(a: int, b: int): int {
    if a <= b then a else b
  }

  /** The budget of one delivery, received at `at` on the wall and `mono` on the loop's clock. */
  function FromEnvelope(sentAt: int, deadline: int, at: int, mono: int, origin: Origin): Budget {
    var duration := deadline - sentAt;
    var first := Min(deadline, at + duration);
    var local := match origin
      case NotAsked => first
      case Unreadable => at
      case At(time) => Min(first, time + duration);
    Budget(local, mono + (local - at))
  }

  function Tighter(a: Budget, b: Budget): Budget {
    Budget(Min(a.localDeadline, b.localDeadline), Min(a.monotonicDeadline, b.monotonicDeadline))
  }

  /** Whatever the two clocks say, a delivery grants no more time than its own
    wire duration, and one that was overdue when it was sent grants none. */
  lemma NoMoreThanTheWire(sentAt: int, deadline: int, at: int, mono: int, origin: Origin)
    requires origin.Unreadable? ==> sentAt <= deadline
    ensures FromEnvelope(sentAt, deadline, at, mono, origin).monotonicDeadline <= mono + (deadline - sentAt)
    ensures FromEnvelope(sentAt, deadline, at, mono, origin).localDeadline <= deadline || origin == Unreadable
  {
  }
}
