/**
  The `tasks` and `dead_letter_tasks` tables: rows, and one function per SQL statement that
  writes them. A function takes the table before the statement and gives the table after it.
 */
module TaskTable {
  import opened Wrappers

  /** Identities are only compared, so UUIDs and worker names are numbers here. */
  type TaskId = nat
  type DeadId = nat
  type WorkerId = nat
  /** Nanoseconds. */
  type Time = int

  datatype Status = Pending | Running | Completed | Failed

  /** A JSON payload: not the expected object, or an object with a possibly empty "type". */
  datatype Payload = Malformed(reason: string) | Typed(kind: string, body: nat)

  /** An error text, kept as its parts. */
  datatype Message =
    | InvalidPayload(reason: string)
    | MissingType
    | UnknownType(kind: string)
    | HandlerError(text: string)

  datatype Task = Task(
    status: Status,
    payload: Payload,
    createdAt: Time,
    lockedBy: Option<WorkerId>,
    lockedAt: Option<Time>,
    attempts: nat,
    maxRetries: nat,
    lastError: Option<Message>,
    nextRetryAt: Option<Time>,
    key: Option<string>)

  datatype DeadLetter = DeadLetter(
    original: TaskId,
    payload: Payload,
    lastError: Message,
    attempts: nat,
    failedAt: Time,
    retriedAt: Option<Time>)

  type Tasks = map<TaskId, Task>
  type DeadLetters = map<DeadId, DeadLetter>

  /** The default of column `max_retries`. */
  const DEFAULT_MAX_RETRIES: nat := 3

  // ---------------------------------------------------------------- one row

  /** The row an INSERT makes: columns it does not name take their defaults. */
  function NewTask(payload: Payload, key: Option<string>, maxRetries: nat, at: Time): Task {
    Task(Pending, payload, at, None, None, 0, maxRetries, None, None, key)
  }

  /** The guard both claim statements share. */
  predicate Eligible(t: Task, at: Time) {
    && t.status.Pending?
    && t.lockedBy.None?
    && (t.nextRetryAt.None? || t.nextRetryAt.value <= at)
  }

  function Claimed(t: Task, worker: WorkerId, at: Time): Task {
    t.(status := Running, lockedBy := Some(worker), lockedAt := Some(at))
  }

  function Done(t: Task): Task {
    t.(status := Completed, lockedBy := None, lockedAt := None)
  }

  function Retried(t: Task, message: Message, next: Time): Task {
    t.(status := Pending, lockedBy := None, lockedAt := None, attempts := t.attempts + 1,
       lastError := Some(message), nextRetryAt := Some(next))
  }

  function Rejected(t: Task, message: Message): Task {
    t.(status := Failed, lockedBy := None, lockedAt := None, attempts := t.attempts + 1,
       lastError := Some(message))
  }

  function Released(t: Task): Task {
    t.(status := Pending, lockedBy := None, lockedAt := None)
  }

  // ---------------------------------------------------------------- whole table

  function KeyHolders(tasks: Tasks, key: string): (ids: set<TaskId>)
    ensures forall id :: id in ids <==> id in tasks && tasks[id].key == Some(key)
  {
    set id | id in tasks && tasks[id].key == Some(key)
  }

  /** The partial unique index: one row per key that is not null. */
  ghost predicate UniqueKeys(tasks: Tasks) {
    forall i, j :: i in tasks && j in tasks && i != j && tasks[i].key.Some? ==> tasks[i].key != tasks[j].key
  }

  /** Creation times of the rows a polling SELECT can lock: eligible, and not locked by others. */
  function Claimable(tasks: Tasks, at: Time, skip: set<TaskId>): (stamps: map<TaskId, Time>)
    ensures forall id :: id in stamps <==> id in tasks && Eligible(tasks[id], at) && id !in skip
  {
    map id | id in tasks && Eligible(tasks[id], at) && id !in skip :: tasks[id].createdAt
  }

  function ClaimRows(tasks: Tasks, ids: set<TaskId>, worker: WorkerId, at: Time): Tasks {
    map id | id in tasks :: if id in ids then Claimed(tasks[id], worker, at) else tasks[id]
  }

  function CompleteRow(tasks: Tasks, id: TaskId): Tasks {
    if id in tasks then tasks[id := Done(tasks[id])] else tasks
  }

  function FailRow(tasks: Tasks, id: TaskId, message: Message, next: Option<Time>): Tasks {
    if id !in tasks then tasks
    else if next.Some? then tasks[id := Retried(tasks[id], message, next.value)]
    else tasks[id := Rejected(tasks[id], message)]
  }

  /** Rows that `UnlockStaleTasks` matches at time `at`. */
  function StaleRows(tasks: Tasks, at: Time, age: Time): (ids: set<TaskId>)
    ensures ids <= tasks.Keys
  {
    set id | id in tasks && tasks[id].status.Running? && tasks[id].lockedAt.Some? && tasks[id].lockedAt.value < at - age
  }

  /** Rows that `RecoverTasksByInstance` matches. */
  function RowsHeldBy(tasks: Tasks, worker: WorkerId): (ids: set<TaskId>)
    ensures ids <= tasks.Keys
  {
    set id | id in tasks && tasks[id].status.Running? && tasks[id].lockedBy == Some(worker)
  }

  function ReleaseRows(tasks: Tasks, ids: set<TaskId>): Tasks {
    map id | id in tasks :: if id in ids then Released(tasks[id]) else tasks[id]
  }

  /** The operator's status override: it leaves every other column alone. */
  function OverrideRow(tasks: Tasks, id: TaskId, status: Status): Tasks {
    if id in tasks then tasks[id := tasks[id].(status := status)] else tasks
  }

  // ---------------------------------------------------------------- lock columns

  /** The lock columns of a row, as every statement but the operator's override keeps them. */
  ghost predicate LockColumns(t: Task, now: Time) {
    && (t.status.Running? <==> t.lockedBy.Some?)
    && (t.lockedBy.Some? <==> t.lockedAt.Some?)
    && (t.status.Running? ==>
          && t.lockedAt.value <= now
          && (t.nextRetryAt.None? || t.nextRetryAt.value <= t.lockedAt.value))
  }

  /** What survives even the operator's override. */
  ghost predicate PairedLock(t: Task) {
    t.lockedBy.None? <==> t.lockedAt.None?
  }

  /** A row that recovery resets can be claimed at once, by any transaction begun after its old lock. */
  lemma ReleasedIsClaimable(t: Task, now: Time, at: Time)
    requires LockColumns(t, now) && t.status.Running? && t.lockedAt.value <= at
    ensures Eligible(Released(t), at) && LockColumns(Released(t), now)
  {
  }

  /** Every running row meets the stale test from some time on, whatever the age limit. */
  lemma RunningGoesStale(tasks: Tasks, id: TaskId, now: Time, age: Time, at: Time)
    requires id in tasks && LockColumns(tasks[id], now) && tasks[id].status.Running?
    ensures id in StaleRows(tasks, at, age) <==> tasks[id].lockedAt.value + age < at
    ensures now + age < at ==> id in StaleRows(tasks, at, age)
  {
  }
}
