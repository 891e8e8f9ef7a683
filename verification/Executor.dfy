/** The executor: runs one claimed task and writes its outcome. */
module Executor {
  import opened Wrappers
  import opened TaskTable
  import opened Decision
  import opened Backoff
  import opened Database

  /** rand.Int63n: a number from 0 up to a positive bound. */
  ghost predicate RandomBelow(rand: int -> int) {
    forall n :: 0 < n ==> 0 <= rand(n) < n
  }

  datatype Tables = Tables(tasks: Tasks, dead: DeadLetters)

  /** After MoveToDLQ: one row turned into a dead letter, or, when it fails, no change at all. */
  function Buried(t: Tables, id: TaskId, letter: DeadId, at: Time, faults: set<Call>): Tables {
    if id in t.tasks && t.tasks[id].lastError.Some? && faults !! {Begin, Query, Announce, Remove, CommitTx} then
      Tables(t.tasks - {id}, t.dead[letter := Letter(id, t.tasks[id], at)])
    else t
  }

  /** After the write that the verdict calls for, or, when it fails, no change at all. */
  function Outcome(t: Tables, id: TaskId, verdict: Verdict, next: Time, letter: DeadId, at: Time, faults: set<Call>)
    : Tables
  {
    if verdict.Bury? then Buried(t, id, letter, at, faults)
    else if Query in faults then t
    else t.(tasks := Write(t.tasks, id, verdict, next))
  }

  /** An object with a type that is registered. */
  predicate HasHandler(handlers: set<string>, task: Task) {
    task.payload.Typed? && task.payload.kind != "" && task.payload.kind in handlers
  }

  /** The reason for rejecting a payload that no handler takes. */
  predicate Reason(payload: Payload, message: Message) {
    match payload
    case Malformed(reason) => message == InvalidPayload(reason)
    case Typed(kind, _) => message == if kind == "" then MissingType else UnknownType(kind)
  }

  /** The row after a rejection: one attempt more, its reason stored, no lock, no further run. */
  ghost predicate RejectedRow(was: Task, row: Task) {
    && row.status == Failed && row.lockedBy == None && row.lockedAt == None
    && row.attempts == was.attempts + 1 && row.nextRetryAt == was.nextRetryAt
    && row.lastError.Some? && Reason(was.payload, row.lastError.value) && SameBirth(was, row)
  }

  /** The row after a failed attempt that will be retried. */
  ghost predicate RetriedRow(was: Task, row: Task, text: string, next: Time) {
    && row.status == Pending && row.lockedBy == None && row.lockedAt == None
    && row.attempts == was.attempts + 1 && row.nextRetryAt == Some(next)
    && row.lastError == Some(HandlerError(text)) && SameBirth(was, row)
  }

  ghost predicate CompletedRow(was: Task, row: Task) {
    && row.status == Completed && row.lockedBy == None && row.lockedAt == None
    && row.attempts == was.attempts && row.nextRetryAt == was.nextRetryAt
    && row.lastError == was.lastError && SameBirth(was, row)
  }

  ghost predicate SameBirth(was: Task, row: Task) {
    && row.payload == was.payload && row.createdAt == was.createdAt
    && row.maxRetries == was.maxRetries && row.key == was.key
  }

  /** The row as a dead letter. */
  ghost predicate LetterOf(id: TaskId, was: Task, letter: DeadLetter, at: Time) {
    && letter.original == id && letter.payload == was.payload && letter.attempts == was.attempts
    && Some(letter.lastError) == was.lastError && letter.failedAt == at && letter.retriedAt == None
  }

  /** What an execution whose calls all work does to a task that is in the table, in terms of rows and columns. */
  ghost predicate Ran(before: Tables, after: Tables, id: TaskId, task: Task, handlers: set<string>,
                      failure: Option<string>, next: Time, letter: DeadId, at: Time)
    requires id in before.tasks
  {
    var was := before.tasks[id];
    if HasHandler(handlers, task) && failure.Some? && task.attempts + 1 >= task.maxRetries then
      if was.lastError == None then after == before
      else
        && after.tasks == before.tasks - {id}
        && after.dead.Keys == before.dead.Keys + {letter} && LetterOf(id, was, after.dead[letter], at)
        && (forall d :: d in before.dead && d != letter ==> after.dead[d] == before.dead[d])
    else
      && after.dead == before.dead && Others(before.tasks, after.tasks, id)
      && (if !HasHandler(handlers, task) then RejectedRow(was, after.tasks[id])
          else if failure.None? then CompletedRow(was, after.tasks[id])
          else RetriedRow(was, after.tasks[id], failure.value, next))
  }

  /** The verdict and its write, together, do what an execution is to do. */
  lemma OutcomeRan(t: Tables, id: TaskId, task: Task, handlers: set<string>, failure: Option<string>, next: Time,
                   letter: DeadId, at: Time)
    requires id in t.tasks && t.tasks[id].payload == task.payload
    ensures Ran(t, Outcome(t, id, Decide(handlers, task, failure), next, letter, at, {}), id, task, handlers, failure,
                next, letter, at)
  {
  }

  class Executor {
    var handlers: set<string>
    const repo: Store

    constructor (repo: Store)
      ensures this.repo == repo && handlers == {}
    {
      this.repo := repo;
      handlers := {};
    }

    method Register(kind: string)
      modifies this`handlers
      ensures handlers == old(handlers) + {kind}
    {
      handlers := handlers + {kind};
    }

    /** The delay until the next attempt. The generator is asked for a number below a positive bound. */
    method RetryDelay(attempt: nat, rand: int -> int) returns (delay: int)
      requires 1 <= attempt && RandomBelow(rand)
      ensures Near(attempt, delay)
    {
      BackoffInRange(attempt, 0);
      var draw := rand(JitterBound(attempt));
      BackoffInRange(attempt, draw);
      delay := CalculateBackoff(attempt, draw);
    }

    function Now(): Tables
      reads repo
    {
      Tables(repo.tasks, repo.dead)
    }

    /** The branch for a handler that returned an error. */
    method HandleFailure(id: TaskId, task: Task, text: string, clock: Time, rand: int -> int, at: Time,
                         faults: set<Call>)
      returns (delay: int)
      requires repo.Valid() && RandomBelow(rand)
      modifies repo`tasks, repo`dead, repo`nextLetter
      ensures repo.Valid()
      ensures task.attempts + 1 < task.maxRetries ==> Near(task.attempts + 1, delay)
      ensures var verdict := if task.attempts + 1 < task.maxRetries then Verdict.Retry(HandlerError(text)) else Bury;
              Now() == Outcome(old(Now()), id, verdict, clock + delay, old(repo.nextLetter), at, faults)
    {
      delay := 0;
      if task.attempts + 1 < task.maxRetries {
        delay := RetryDelay(task.attempts + 1, rand);
        var r := repo.FailTask(id, HandlerError(text), Some(clock + delay), faults);
      } else {
        var r := repo.MoveToDLQ(id, at, faults);
      }
    }

    /**
      `failure` is what the handler returns and `clock` the process's clock after the handler; `delay`
      is the delay of a retry. The table ends up as the verdict says, or, when the write fails, as it was.
     */
    method Execute(id: TaskId, task: Task, failure: Option<string>, clock: Time, rand: int -> int, at: Time,
                   faults: set<Call>)
      returns (delay: int)
      requires repo.Valid() && RandomBelow(rand)
      modifies repo`tasks, repo`dead, repo`nextLetter
      ensures repo.Valid()
      ensures Now() == Outcome(old(Now()), id, Decide(handlers, task, failure), clock + delay,
                                 old(repo.nextLetter), at, faults)
      ensures Decide(handlers, task, failure).Retry? ==> Near(task.attempts + 1, delay)
      ensures faults == {} && id in old(repo.tasks) && old(repo.tasks)[id].payload == task.payload ==>
                Ran(old(Now()), Now(), id, task, handlers, failure, clock + delay, old(repo.nextLetter), at)
      ensures faults == {} && id !in old(repo.tasks) ==> Now() == old(Now())
    {
      if id in repo.tasks && repo.tasks[id].payload == task.payload {
        forall next | true
          ensures Ran(Now(), Outcome(Now(), id, Decide(handlers, task, failure), next, repo.nextLetter, at, {}), id,
                      task, handlers, failure, next, repo.nextLetter, at)
        {
          OutcomeRan(Now(), id, task, handlers, failure, next, repo.nextLetter, at);
        }
      }
      delay := 0;
      if task.payload.Malformed? {
        var r := repo.FailTask(id, InvalidPayload(task.payload.reason), None, faults);
        return;
      }
      if task.payload.kind == "" {
        var r := repo.FailTask(id, MissingType, None, faults);
        return;
      }
      if task.payload.kind !in handlers {
        var r := repo.FailTask(id, UnknownType(task.payload.kind), None, faults);
        return;
      }
      if failure.Some? {
        delay := HandleFailure(id, task, failure.value, clock, rand, at, faults);
        return;
      }
      var r := repo.CompleteTask(id, faults);
    }
  }
}
