/**
  What a row tells about its past, in every run. Attempt count, error and retry time are read off the
  run's executions alone, by what an execution is to do and not by how it is coded.
 */
module Records {
  import opened Wrappers
  import opened TaskTable
  import opened Decision
  import opened TaskLife
  import opened Board
  import opened Invariants
  import opened Guarantees
  import opened Verdicts

  // ---------------------------------------------------------------- one execution

  predicate HasHandler(known: set<string>, payload: Payload) {
    payload.Typed? && payload.kind != "" && payload.kind in known
  }

  /** The error that an execution stores: the handler's text, or the reason why there is no handler. */
  function ErrorOf(known: set<string>, payload: Payload, text: string): Message {
    match payload
    case Malformed(reason) => InvalidPayload(reason)
    case Typed(kind, _) =>
      if kind == "" then MissingType else if kind !in known then UnknownType(kind) else HandlerError(text)
  }

  /** A handler failed, and its snapshot allows another attempt. */
  predicate Retries(task: Task, known: set<string>, failure: Option<string>) {
    HasHandler(known, task.payload) && failure.Some? && task.attempts + 1 < task.maxRetries
  }

  /** A handler failed on the last attempt. */
  predicate GivesUp(task: Task, known: set<string>, failure: Option<string>) {
    HasHandler(known, task.payload) && failure.Some? && task.attempts + 1 >= task.maxRetries
  }

  /** The execution of envelope `n` writes a failure to the row. */
  predicate RecordsFailure(task: Task, known: set<string>, failure: Option<string>) {
    !HasHandler(known, task.payload) || Retries(task, known, failure)
  }

  function TextOf(failure: Option<string>): string {
    if failure.Some? then failure.value else ""
  }

  /** What the settling of a carried envelope does to a row that is there. */
  lemma SettleMeans(c: Cell, n: nat, known: set<string>, failure: Option<string>, next: Time)
    requires Faithful(c) && n in c.live && c.live[n].stage.Executing? && c.row.Some?
    ensures var d, task, was := Apply(c, Move.Settle(n, known, failure, next)), c.live[n].task, c.row.value;
            && d.row.Some?
            && var row := d.row.value;
               if GivesUp(task, known, failure) then
                 row == was && n in d.live && d.live[n] == c.live[n].(stage := Moving(was))
               else
                 && n !in d.live && row.lockedBy == None && row.lockedAt == None
                 && (if RecordsFailure(task, known, failure) then
                       && row.attempts == was.attempts + 1
                       && row.lastError == Some(ErrorOf(known, was.payload, TextOf(failure)))
                       && row.status == (if Retries(task, known, failure) then Pending else Failed)
                       && row.nextRetryAt == (if Retries(task, known, failure) then Some(next) else was.nextRetryAt)
                     else row == was.(status := Completed, lockedBy := None, lockedAt := None))
  {
    assert BornAs(c.live[n].task, c.life) && BornAs(c.row.value, c.life);
  }

  // ---------------------------------------------------------------- the record of a run

  datatype Record = Record(attempts: nat, lastError: Option<Message>, nextRetryAt: Option<Time>)

  const BLANK := Record(0, None, None)

  /** The record after one step. */
  ghost function Noted(b: Board, s: Step, id: TaskId, r: Record): Record {
    if s.Settle? && s.id == id && id in b.tasks && Carried(b, id, s.n)
       && RecordsFailure(b.live[id][s.n].task, s.known, s.failure)
    then
      var task := b.live[id][s.n].task;
      Record(r.attempts + 1, Some(ErrorOf(s.known, task.payload, TextOf(s.failure))),
             if Retries(task, s.known, s.failure) then Some(s.next) else r.nextRetryAt)
    else r
  }

  /** Failures so far, the last one's error, and the time that the last retry was given. */
  ghost function RecordOf(b: Board, steps: seq<Step>, id: TaskId): Record
    requires Valid(b, steps)
    decreases |steps|
  {
    if steps == [] then BLANK
    else
      var n := |steps| - 1;
      Noted(Exec(b, steps[..n]), steps[n], id, RecordOf(b, steps[..n], id))
  }

  ghost predicate Tells(row: Task, r: Record) {
    row.attempts == r.attempts && row.lastError == r.lastError && row.nextRetryAt == r.nextRetryAt
  }

  ghost predicate RecordKept(b: Board, id: TaskId, r: Record) {
    (id in b.tasks ==> Tells(b.tasks[id], r)) && (id !in b.life ==> r == BLANK)
  }

  lemma OtherMovesKeepRecord(c: Cell, mv: Move)
    requires Possible(c, mv) && !mv.Settle? && Apply(c, mv).row.Some?
    ensures c.row.Some?
    ensures Apply(c, mv).row.value.attempts == c.row.value.attempts
    ensures Apply(c, mv).row.value.lastError == c.row.value.lastError
    ensures Apply(c, mv).row.value.nextRetryAt == c.row.value.nextRetryAt
  {
  }

  lemma StepKeepsRecord(b: Board, s: Step, id: TaskId, r: Record)
    requires AllFaithful(b) && Enabled(b, s) && RecordKept(b, id, r)
    ensures RecordKept(Next(b, s), id, Noted(b, s, id, r))
  {
    StaysShaped(b, s);
    if id in b.life {
      Projection(b, s, id);
      CellKeepsRecord(b, s, id, r);
    } else if id in Next(b, s).life {
      Birth(b, s, id);
    }
  }

  lemma CellKeepsRecord(b: Board, s: Step, id: TaskId, r: Record)
    requires Shaped(b) && Enabled(b, s) && id in b.life && Faithful(At(b, id)) && Projects(b, s, id)
    requires id in b.tasks ==> Tells(b.tasks[id], r)
    ensures id in Next(b, s).tasks ==> Tells(Next(b, s).tasks[id], Noted(b, s, id, r))
  {
    var c, mv := At(b, id), MoveOf(b, s, id);
    assert id in Next(b, s).tasks ==> At(Next(b, s), id).row == Some(Next(b, s).tasks[id]);
    if mv.Settle? {
      if c.row.Some? {
        SettleMeans(c, mv.n, mv.known, mv.failure, mv.next);
        assert BornAs(c.live[mv.n].task, c.life) && BornAs(c.row.value, c.life);
      }
    } else if id in Next(b, s).tasks {
      OtherMovesKeepRecord(c, mv);
    }
  }

  /**
    In every run, the override included: a row's attempt count is the number of failures that
    executions have written to it, its error is the last one's, and its retry time is the one that the
    last retry was given.
   */
  lemma {:induction false} RowTellsRecord(batch: nat, maxRetries: nat, now: Time, steps: seq<Step>, id: TaskId)
    requires Valid(Empty(batch, maxRetries, now), steps)
    ensures var b := Empty(batch, maxRetries, now); RecordKept(Exec(b, steps), id, RecordOf(b, steps, id))
    decreases |steps|
  {
    if steps != [] {
      var b, n := Empty(batch, maxRetries, now), |steps| - 1;
      RowTellsRecord(batch, maxRetries, now, steps[..n], id);
      AlwaysFaithful(batch, maxRetries, now, steps[..n]);
      StepKeepsRecord(Exec(b, steps[..n]), steps[n], id, RecordOf(b, steps[..n], id));
    }
  }

  predicate ClaimsAt(s: Step, id: TaskId, at: Time) {
    (s.ClaimBatch? && id in s.ids && s.at == at) || (s.ClaimOne? && s.id == id && s.at == at)
  }

  /** No task is claimed before the time that its last retry was given, by poll or by message, in any run. */
  lemma NoEarlyClaim(batch: nat, maxRetries: nat, now: Time, steps: seq<Step>, k: nat, id: TaskId, at: Time)
    requires Valid(Empty(batch, maxRetries, now), steps) && k < |steps| && ClaimsAt(steps[k], id, at)
    ensures Valid(Empty(batch, maxRetries, now), steps[..k])
    ensures var r := RecordOf(Empty(batch, maxRetries, now), steps[..k], id);
            r.nextRetryAt.Some? ==> r.nextRetryAt.value <= at
  {
    var b := Empty(batch, maxRetries, now);
    Prefix(b, steps, k);
    RowTellsRecord(batch, maxRetries, now, steps[..k], id);
    ClaimsTheDue(Exec(b, steps[..k]), steps[k], id, at);
  }

  lemma ClaimsTheDue(b: Board, s: Step, id: TaskId, at: Time)
    requires Shaped(b) && Enabled(b, s) && ClaimsAt(s, id, at)
    ensures id in b.tasks && (b.tasks[id].nextRetryAt.Some? ==> b.tasks[id].nextRetryAt.value <= at)
  {
    if s.ClaimBatch? {
      assert id in Claimable(b.tasks, s.at, s.skip);
    }
  }

  // ---------------------------------------------------------------- why a task was dead-lettered

  /** At step `k` a handler of the task failed on its last attempt, and this was the row then. */
  ghost predicate ReadAt(b: Board, steps: seq<Step>, k: nat, id: TaskId, read: Task) {
    && k < |steps| && Valid(b, steps[..k])
    && var p, s := Exec(b, steps[..k]), steps[k];
       && s.Settle? && s.id == id && id in p.tasks && read == p.tasks[id] && Carried(p, id, s.n)
       && GivesUp(p.live[id][s.n].task, s.known, s.failure)
  }

  ghost predicate Reads(b: Board, steps: seq<Step>, id: TaskId, read: Task) {
    exists k: nat :: ReadAt(b, steps, k, id, read)
  }

  /** The letter is a copy of the row. */
  ghost predicate Copies(letter: DeadLetter, read: Task) {
    letter.payload == read.payload && letter.attempts == read.attempts && Some(letter.lastError) == read.lastError
  }

  ghost predicate MovesExplained(b: Board, steps: seq<Step>, r: Board, id: TaskId) {
    forall n :: Carried(r, id, n) && r.live[id][n].stage.Moving? ==> Reads(b, steps, id, r.live[id][n].stage.read)
  }

  ghost predicate LettersExplained(b: Board, steps: seq<Step>, r: Board, id: TaskId) {
    forall d :: d in r.dead && r.dead[d].original == id ==>
      exists read :: Copies(r.dead[d], read) && Reads(b, steps, id, read)
  }

  lemma ReadsStay(b: Board, steps: seq<Step>, s: Step, id: TaskId, read: Task)
    requires Reads(b, steps, id, read)
    ensures Reads(b, steps + [s], id, read)
  {
    var k: nat :| ReadAt(b, steps, k, id, read);
    assert (steps + [s])[..k] == steps[..k] && (steps + [s])[k] == steps[k];
    assert ReadAt(b, steps + [s], k, id, read);
  }

  lemma MoveStartsMoving(c: Cell, mv: Move, n: nat)
    requires Faithful(c) && Possible(c, mv) && n in Apply(c, mv).live && Apply(c, mv).live[n].stage.Moving?
    ensures (n in c.live && c.live[n].stage == Apply(c, mv).live[n].stage)
            || (mv.Settle? && mv.n == n && n in c.live && c.row == Some(Apply(c, mv).live[n].stage.read)
                && GivesUp(c.live[n].task, mv.known, mv.failure))
  {
    if mv.Settle? && mv.n in c.live {
      assert BornAs(c.live[mv.n].task, c.life);
    }
  }

  lemma StepStartsMoving(p: Board, s: Step, id: TaskId, n: nat)
    requires AllFaithful(p) && Enabled(p, s) && id in p.life
    requires Carried(Next(p, s), id, n) && Next(p, s).live[id][n].stage.Moving?
    ensures Carried(p, id, n)
    ensures p.live[id][n].stage == Next(p, s).live[id][n].stage
            || (s.Settle? && s.id == id && s.n == n && id in p.tasks && p.tasks[id] == Next(p, s).live[id][n].stage.read
                && GivesUp(p.live[id][n].task, s.known, s.failure))
  {
    Projection(p, s, id);
    assert At(Next(p, s), id).live == Next(p, s).live[id] && At(p, id).live == p.live[id];
    MoveStartsMoving(At(p, id), MoveOf(p, s, id), n);
  }

  lemma StepExplainsMoves(b: Board, steps: seq<Step>, p: Board, s: Step, id: TaskId, n: nat)
    requires Valid(b, steps) && p == Exec(b, steps) && AllFaithful(p) && Enabled(p, s)
    requires MovesExplained(b, steps, p, id)
    requires Carried(Next(p, s), id, n) && Next(p, s).live[id][n].stage.Moving?
    ensures Reads(b, steps + [s], id, Next(p, s).live[id][n].stage.read)
  {
    StaysShaped(p, s);
    if id in p.life {
      StepStartsMoving(p, s, id, n);
      if n in p.live[id] && p.live[id][n].stage == Next(p, s).live[id][n].stage {
        assert Carried(p, id, n);
        ReadsStay(b, steps, s, id, p.live[id][n].stage.read);
      } else {
        assert (steps + [s])[..|steps|] == steps;
        assert ReadAt(b, steps + [s], |steps|, id, p.tasks[id]);
      }
    } else {
      Birth(p, s, id);
    }
  }

  lemma StepExplainsLetters(b: Board, steps: seq<Step>, p: Board, s: Step, id: TaskId, d: DeadId)
    requires Valid(b, steps) && p == Exec(b, steps) && Shaped(p) && Enabled(p, s)
    requires MovesExplained(b, steps, p, id) && LettersExplained(b, steps, p, id)
    requires d in Next(p, s).dead && Next(p, s).dead[d].original == id
    ensures exists read :: Copies(Next(p, s).dead[d], read) && Reads(b, steps + [s], id, read)
  {
    if s.Transfer? && s.letter == d && d !in p.dead {
      var read := p.live[id][s.n].stage.read;
      assert Copies(Next(p, s).dead[d], read);
      ReadsStay(b, steps, s, id, read);
    } else {
      StepEffect(p, s);
      var was, letter := p.dead[d], Next(p, s).dead[d];
      assert letter == was || letter.(retriedAt := None) == was.(retriedAt := None);
      assert letter.(retriedAt := None).original == was.(retriedAt := None).original
          && letter.(retriedAt := None).payload == was.(retriedAt := None).payload
          && letter.(retriedAt := None).attempts == was.(retriedAt := None).attempts
          && letter.(retriedAt := None).lastError == was.(retriedAt := None).lastError;
      var read :| Copies(was, read) && Reads(b, steps, id, read);
      ReadsStay(b, steps, s, id, read);
      assert Copies(letter, read);
    }
  }

  /**
    In every run a dead letter is a copy of its task's row at a moment at which a handler failed on its
    last attempt: success, and a payload without a handler, never lead there.
   */
  lemma {:induction false} BurialsFollowFailures(batch: nat, maxRetries: nat, now: Time, steps: seq<Step>, id: TaskId)
    requires Valid(Empty(batch, maxRetries, now), steps)
    ensures MovesExplained(Empty(batch, maxRetries, now), steps, Exec(Empty(batch, maxRetries, now), steps), id)
    ensures LettersExplained(Empty(batch, maxRetries, now), steps, Exec(Empty(batch, maxRetries, now), steps), id)
    decreases |steps|
  {
    if steps != [] {
      var b, n := Empty(batch, maxRetries, now), |steps| - 1;
      BurialsFollowFailures(batch, maxRetries, now, steps[..n], id);
      AlwaysFaithful(batch, maxRetries, now, steps[..n]);
      StepExplains(b, steps, id);
    }
  }

  lemma StepExplains(b: Board, steps: seq<Step>, id: TaskId)
    requires steps != [] && Valid(b, steps)
    requires var p := Exec(b, steps[..|steps| - 1]);
             && AllFaithful(p) && MovesExplained(b, steps[..|steps| - 1], p, id)
             && LettersExplained(b, steps[..|steps| - 1], p, id)
    ensures MovesExplained(b, steps, Exec(b, steps), id) && LettersExplained(b, steps, Exec(b, steps), id)
  {
    var before, s := steps[..|steps| - 1], steps[|steps| - 1];
    var p, r := Exec(b, before), Exec(b, steps);
    assert before + [s] == steps;
    forall n | Carried(r, id, n) && r.live[id][n].stage.Moving?
      ensures Reads(b, steps, id, r.live[id][n].stage.read)
    {
      StepExplainsMoves(b, before, p, s, id, n);
    }
    forall d | d in r.dead && r.dead[d].original == id
      ensures exists read :: Copies(r.dead[d], read) && Reads(b, steps, id, read)
    {
      StepExplainsLetters(b, before, p, s, id, d);
    }
  }
}
