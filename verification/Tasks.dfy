/** The daemon's task journal (services/daemon/internal/state/tasks.go): one row per task,
    which only moves forward. */
module Tasks {
  import opened Wrappers

  datatype Status = Accepted | Running | Succeeded | Failed

  datatype Rollback = NotNeeded | RollbackSucceeded | RollbackFailed

  /** A task's row, with the rollback state of its last report. */
  datatype Journal = Journal(status: Status, rollback: Rollback, sequence: nat, acknowledged: bool)

  const NewTask := Journal(Accepted, NotNeeded, 0, false)

  predicate Terminal(j: Journal) { j.status.Succeeded? || j.status.Failed? }

  /** Transition: a terminal row is never overwritten. */
  function Moved(j: Journal, status: Status, rollback: Rollback): Journal {
    if Terminal(j) then j else j.(status := status, rollback := rollback, sequence := j.sequence + 1)
  }

  /** What may become of a row: a terminal result stays, an acknowledgement stays. */
  predicate Forward(before: Journal, after: Journal) {
    && (Terminal(before) ==> after == before.(acknowledged := after.acknowledged))
    && before.sequence <= after.sequence
    && (before.acknowledged ==> after.acknowledged)
  }
}
