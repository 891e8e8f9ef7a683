/**
  The shared task tables together with every envelope in every process. One `Step` is one
  committed SQL statement or transaction, one channel operation, or one fault; a run is any
  sequence of enabled steps, so it interleaves any number of processes in any way.
 */
module Board {
  import opened Wrappers
  import opened Oldest
  import opened TaskTable
  import opened Decision
  import opened TaskLife

  /**
    `live` and `life` are kept for every id ever inserted, `batch` is the poll size, and
    `maxRetries` the column default. A create ends in Insert or, when its key is taken, in Reply.
   */
  datatype Board = Board(
    now: Time,
    tasks: Tasks,
    dead: DeadLetters,
    live: map<TaskId, map<nat, Envelope>>,
    life: map<TaskId, Life>,
    batch: nat,
    maxRetries: nat)

  datatype Step =
    | Insert(id: TaskId, payload: Payload, key: Option<string>, at: Time)
    | Reply(under: string, id: TaskId)
    | Redrive(id: TaskId, letter: DeadId, at: Time)
    | ClaimBatch(worker: WorkerId, at: Time, skip: set<TaskId>, ids: seq<TaskId>)
    | ClaimOne(worker: WorkerId, at: Time, id: TaskId)
    | Shift(id: TaskId, n: nat)
    | Settle(id: TaskId, n: nat, known: set<string>, failure: Option<string>, next: Time)
    | Transfer(id: TaskId, n: nat, letter: DeadId, at: Time)
    | Lose(id: TaskId, n: nat)
    | Crash(worker: WorkerId)
    | UnlockStale(at: Time, age: Time)
    | Recover(worker: WorkerId)
    | Override(id: TaskId, status: Status)
    | Tick(passing: nat)

  function Empty(batch: nat, maxRetries: nat, now: Time): Board {
    Board(now, map[], map[], map[], map[], batch, maxRetries)
  }

  ghost predicate Shaped(b: Board) {
    b.live.Keys == b.life.Keys && b.tasks.Keys <= b.life.Keys
  }

  ghost predicate Carried(b: Board, id: TaskId, n: nat) {
    id in b.live && n in b.live[id]
  }

  ghost predicate Enabled(b: Board, s: Step) {
    match s
    case Insert(id, _, key, at) => id !in b.life && at <= b.now && (key.Some? ==> KeyHolders(b.tasks, key.value) == {})
    case Reply(under, id) => id in KeyHolders(b.tasks, under)
    case Redrive(id, letter, at) => id !in b.life && letter in b.dead && at <= b.now
    case ClaimBatch(_, at, skip, ids) => at <= b.now && OldestFirst(Claimable(b.tasks, at, skip), b.batch, ids)
    case ClaimOne(_, at, id) => at <= b.now && id in b.tasks && Eligible(b.tasks[id], at)
    case Shift(id, n) => Carried(b, id, n) && (b.live[id][n].stage.Unsent? || b.live[id][n].stage.Queued?)
    case Settle(id, n, _, _, _) => Carried(b, id, n) && b.live[id][n].stage.Executing?
    case Transfer(id, n, letter, _) => Carried(b, id, n) && b.live[id][n].stage.Moving? && letter !in b.dead
    case Lose(id, n) => Carried(b, id, n)
    case Crash(_) => true
    case UnlockStale(at, _) => at <= b.now
    case Recover(_) => true
    case Override(_, _) => true
    case Tick(_) => true
  }

  function Newborn(payload: Payload, key: Option<string>, at: Time, maxRetries: nat, origin: TaskId): Life {
    Life(payload, key, at, maxRetries, origin, 0, 0, 0, 0)
  }

  function Add(b: Board, id: TaskId, payload: Payload, key: Option<string>, at: Time, origin: TaskId): Board {
    b.(tasks := b.tasks[id := NewTask(payload, key, b.maxRetries, at)],
       live := b.live[id := map[]],
       life := b.life[id := Newborn(payload, key, at, b.maxRetries, origin)])
  }

  function Release(b: Board, ids: set<TaskId>): Board {
    b.(tasks := ReleaseRows(b.tasks, ids),
       life := map id | id in b.life :: if id in ids then b.life[id].(resets := b.life[id].resets + 1) else b.life[id])
  }

  ghost function Next(b: Board, s: Step): Board
    requires Shaped(b) && Enabled(b, s)
  {
    match s
    case Insert(id, payload, key, at) => Add(b, id, payload, key, at, id)
    case Reply(_, _) => b
    case Redrive(id, letter, at) =>
      var original := b.dead[letter].original;
      var origin := if original in b.life then b.life[original].origin else original;
      Add(b, id, b.dead[letter].payload, None, at, origin).(
        dead := b.dead[letter := b.dead[letter].(retriedAt := Some(at))])
    case ClaimBatch(worker, at, skip, ids) => Batch(b, worker, at, skip, ids)
    case ClaimOne(worker, at, id) =>
      var row := Claimed(b.tasks[id], worker, at);
      b.(tasks := b.tasks[id := row],
         live := b.live[id := b.live[id][b.life[id].claims := Envelope(worker, row, Unsent)]],
         life := b.life[id := b.life[id].(claims := b.life[id].claims + 1)])
    case Shift(id, n) => b.(live := b.live[id := Restaged(b.live[id], n, Shifted(b.live[id][n]).stage)])
    case Settle(id, n, known, failure, next) =>
      Written(b, id, n, Decide(known, b.live[id][n].task, failure), next)
    case Transfer(id, n, letter, at) => Moved(b, id, n, letter, at)
    case Lose(id, n) => b.(live := b.live[id := b.live[id] - {n}])
    case Crash(worker) =>
      b.(live := map id | id in b.live :: b.live[id] - Of(b.live[id], worker))
    case UnlockStale(at, age) => Release(b, StaleRows(b.tasks, at, age))
    case Recover(worker) => Release(b, RowsHeldBy(b.tasks, worker))
    case Override(id, status) => b.(tasks := OverrideRow(b.tasks, id, status))
    case Tick(passing) => b.(now := b.now + passing)
  }

  function Restaged(live: map<nat, Envelope>, n: nat, stage: Stage): map<nat, Envelope>
    requires n in live
  {
    live[n := live[n].(stage := stage)]
  }

  function Of(live: map<nat, Envelope>, worker: WorkerId): set<nat> {
    set n | n in live && live[n].worker == worker
  }

  ghost function Batch(b: Board, worker: WorkerId, at: Time, skip: set<TaskId>, ids: seq<TaskId>): Board
    requires Shaped(b) && Enabled(b, ClaimBatch(worker, at, skip, ids))
  {
    var open := Claimable(b.tasks, at, skip);
    b.(tasks := ClaimRows(b.tasks, Elements(ids), worker, at),
       live := map id | id in b.live ::
         if id in ids then b.live[id][b.life[id].claims := Envelope(worker, b.tasks[id], Unsent)] else b.live[id],
       life := map id | id in b.life ::
         if id in ids then b.life[id].(claims := b.life[id].claims + 1)
         else if id in open then b.life[id].(passed := b.life[id].passed + 1)
         else b.life[id])
  }

  /** The statement that the executor's verdict calls for, or the read that opens MoveToDLQ. */
  function Written(b: Board, id: TaskId, n: nat, verdict: Verdict, next: Time): Board
    requires Shaped(b) && id in b.live && n in b.live[id]
  {
    if verdict.Bury? && id in b.tasks then
      b.(live := b.live[id := Restaged(b.live[id], n, Moving(b.tasks[id]))])
    else
      b.(tasks := Write(b.tasks, id, verdict, next),
         live := b.live[id := b.live[id] - {n}],
         life := if verdict.Retry? && id in b.tasks
                 then b.life[id := b.life[id].(retries := b.life[id].retries + 1)]
                 else b.life)
  }

  /** Insert of the row as it was read, and delete by id, in one transaction. */
  function Moved(b: Board, id: TaskId, n: nat, letter: DeadId, at: Time): Board
    requires id in b.live && n in b.live[id] && b.live[id][n].stage.Moving?
  {
    var read := b.live[id][n].stage.read;
    var rest := b.live[id := b.live[id] - {n}];
    if read.lastError.None? then b.(live := rest)
    else b.(tasks := b.tasks - {id}, live := rest,
            dead := b.dead[letter := DeadLetter(id, read.payload, read.lastError.value, read.attempts, at, None)])
  }

  // ---------------------------------------------------------------- projection to one task

  ghost function At(b: Board, id: TaskId): Cell
    requires Shaped(b) && id in b.life
  {
    Cell(if id in b.tasks then Some(b.tasks[id]) else None, b.live[id], b.life[id])
  }

  ghost function MoveOf(b: Board, s: Step, id: TaskId): Move
    requires Shaped(b) && id in b.life && Enabled(b, s)
  {
    match s
    case ClaimBatch(worker, at, skip, ids) =>
      if id in ids then Move.Claim(worker, at, false)
      else if id in Claimable(b.tasks, at, skip) then Pass
      else Stay
    case ClaimOne(worker, at, j) => if id == j then Move.Claim(worker, at, true) else Stay
    case Shift(j, n) => if id == j then Move.Shift(n) else Stay
    case Settle(j, n, known, failure, next) => if id == j then Move.Settle(n, known, failure, next) else Stay
    case Transfer(j, n, _, _) => if id == j then Move.Transfer(n) else Stay
    case Lose(j, n) => if id == j then Move.Lose({n}) else Stay
    case Crash(worker) => Move.Lose(Of(b.live[id], worker))
    case UnlockStale(at, age) => if id in StaleRows(b.tasks, at, age) then Move.Release else Stay
    case Recover(worker) => if id in RowsHeldBy(b.tasks, worker) then Move.Release else Stay
    case Override(j, status) => if id == j then Move.Override(status) else Stay
    case _ => Stay
  }

  ghost predicate Projects(b: Board, s: Step, id: TaskId)
    requires Shaped(b) && Enabled(b, s) && id in b.life
  {
    && Shaped(Next(b, s))
    && id in Next(b, s).life
    && Allowed(At(b, id), MoveOf(b, s, id), b.now)
    && At(Next(b, s), id) == Apply(At(b, id), MoveOf(b, s, id))
  }

  lemma ProjectsBirth(b: Board, s: Step, id: TaskId)
    requires Shaped(b) && Enabled(b, s) && id in b.life
    requires s.Insert? || s.Reply? || s.Redrive? || s.Tick? || s.Override?
    ensures Projects(b, s, id)
  {
  }

  lemma ProjectsBatch(b: Board, s: Step, id: TaskId)
    requires Shaped(b) && Enabled(b, s) && id in b.life && s.ClaimBatch?
    ensures Projects(b, s, id)
  {
    StaysShaped(b, s);
    if id in s.ids {
      assert id in b.tasks && Eligible(b.tasks[id], s.at);
    }
  }

  lemma ProjectsSingle(b: Board, s: Step, id: TaskId)
    requires Shaped(b) && Enabled(b, s) && id in b.life && s.ClaimOne?
    ensures Projects(b, s, id)
  {
  }

  lemma ProjectsEnvelope(b: Board, s: Step, id: TaskId)
    requires Shaped(b) && Enabled(b, s) && id in b.life
    requires s.Shift? || s.Lose? || s.Crash?
    ensures Projects(b, s, id)
  {
  }

  lemma ProjectsTransfer(b: Board, s: Step, id: TaskId)
    requires Shaped(b) && Enabled(b, s) && id in b.life && s.Transfer?
    ensures Projects(b, s, id)
  {
  }

  lemma WrittenHere(b: Board, id: TaskId, n: nat, verdict: Verdict, next: Time)
    requires Shaped(b) && id in b.live && n in b.live[id]
    ensures Shaped(Written(b, id, n, verdict, next))
    ensures Written(b, id, n, verdict, next).life.Keys == b.life.Keys
    ensures At(Written(b, id, n, verdict, next), id) == Settled(At(b, id), n, verdict, next)
  {
    match verdict
    case Complete =>
    case Retry(message) =>
    case Reject(message) =>
    case Bury =>
  }

  lemma WrittenElsewhere(b: Board, id: TaskId, n: nat, verdict: Verdict, next: Time, j: TaskId)
    requires Shaped(b) && id in b.live && n in b.live[id] && j in b.life && j != id
    ensures Shaped(Written(b, id, n, verdict, next))
    ensures At(Written(b, id, n, verdict, next), j) == At(b, j)
  {
  }

  lemma ProjectsSettle(b: Board, s: Step, id: TaskId)
    requires Shaped(b) && Enabled(b, s) && id in b.life && s.Settle?
    ensures Projects(b, s, id)
  {
    var verdict := Decide(s.known, b.live[s.id][s.n].task, s.failure);
    if id == s.id {
      WrittenHere(b, id, s.n, verdict, s.next);
      assert MoveOf(b, s, id) == Move.Settle(s.n, s.known, s.failure, s.next);
    } else {
      WrittenElsewhere(b, s.id, s.n, verdict, s.next, id);
    }
  }

  lemma ProjectsRelease(b: Board, s: Step, id: TaskId)
    requires Shaped(b) && Enabled(b, s) && id in b.life
    requires s.UnlockStale? || s.Recover?
    ensures Projects(b, s, id)
  {
  }

  /** Whatever a step does to the cluster, it does to each task as one of that task's moves. */
  lemma Projection(b: Board, s: Step, id: TaskId)
    requires Shaped(b) && Enabled(b, s) && id in b.life
    ensures Projects(b, s, id)
  {
    match s
    case Insert(_, _, _, _) => ProjectsBirth(b, s, id);
    case Reply(_, _) => ProjectsBirth(b, s, id);
    case Redrive(_, _, _) => ProjectsBirth(b, s, id);
    case Tick(_) => ProjectsBirth(b, s, id);
    case Override(_, _) => ProjectsBirth(b, s, id);
    case ClaimBatch(_, _, _, _) => ProjectsBatch(b, s, id);
    case ClaimOne(_, _, _) => ProjectsSingle(b, s, id);
    case Settle(_, _, _, _, _) => ProjectsSettle(b, s, id);
    case Transfer(_, _, _, _) => ProjectsTransfer(b, s, id);
    case UnlockStale(_, _) => ProjectsRelease(b, s, id);
    case Recover(_) => ProjectsRelease(b, s, id);
    case _ => ProjectsEnvelope(b, s, id);
  }

  lemma StaysShaped(b: Board, s: Step)
    requires Shaped(b) && Enabled(b, s)
    ensures Shaped(Next(b, s))
    ensures b.life.Keys <= Next(b, s).life.Keys
  {
  }
}
