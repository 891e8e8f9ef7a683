/** The executor's choice of what to do with a task it has run. */
module Decision {
  import opened Wrappers
  import opened TaskTable

  datatype Verdict = Complete | Retry(message: Message) | Reject(message: Message) | Bury

  /**
    `known` is the process's handler table, `task` the row as it was read by the claim, and
    `failure` the handler's error, if any.
   */
  function Decide(known: set<string>, task: Task, failure: Option<string>): Verdict {
    match task.payload
    case Malformed(reason) => Reject(InvalidPayload(reason))
    case Typed(kind, _) =>
      if kind == "" then Reject(MissingType)
      else if kind !in known then Reject(UnknownType(kind))
      else if failure.None? then Complete
      else if task.attempts + 1 < task.maxRetries then Retry(HandlerError(failure.value))
      else Bury
  }

  /** The tasks table after the write of a verdict that keeps the row. Every statement matches on id alone. */
  function Write(tasks: Tasks, id: TaskId, verdict: Verdict, next: Time): Tasks {
    match verdict
    case Complete => CompleteRow(tasks, id)
    case Retry(message) => FailRow(tasks, id, message, Some(next))
    case Reject(message) => FailRow(tasks, id, message, None)
    case Bury => tasks
  }
}
