/**
  One task as the whole cluster sees it: its row, every live envelope that carries it in any
  process, and its history. Everything any process can do to a task is a `Move`.
 */
module TaskLife {
  import opened Wrappers
  import opened TaskTable
  import opened Decision
  import Oldest

  /** Where an envelope is. `Moving` holds the row that an open MoveToDLQ transaction has read. */
  datatype Stage = Unsent | Queued | Executing | Moving(read: Task)

  /** A claimed task inside a process; `task` is the row that the claim returned. */
  datatype Envelope = Envelope(worker: WorkerId, task: Task, stage: Stage)

  /** What was true at birth, and how often things happened since. `origin` is the create a DLQ retry goes back to. */
  datatype Life = Life(
    payload: Payload,
    key: Option<string>,
    createdAt: Time,
    maxRetries: nat,
    origin: TaskId,
    claims: nat,
    resets: nat,
    retries: nat,
    passed: nat)

  /** Live envelopes are numbered by the claim that made them. */
  datatype Cell = Cell(row: Option<Task>, live: map<nat, Envelope>, life: Life)

  datatype Move =
    | Stay
    | Pass
    | Claim(worker: WorkerId, at: Time, updated: bool)
    | Shift(n: nat)
    | Settle(n: nat, known: set<string>, failure: Option<string>, next: Time)
    | Transfer(n: nat)
    | Lose(gone: set<nat>)
    | Release
    | Override(status: Status)

  ghost predicate Possible(c: Cell, mv: Move) {
    match mv
    case Claim(_, at, _) => c.row.Some? && Eligible(c.row.value, at)
    case Shift(n) => n in c.live && (c.live[n].stage.Unsent? || c.live[n].stage.Queued?)
    case Settle(n, _, _, _) => n in c.live && c.live[n].stage.Executing?
    case Transfer(n) => n in c.live && c.live[n].stage.Moving?
    case Release => c.row.Some? && c.row.value.status.Running?
    case _ => true
  }

  /** A claim's timestamp is the start of its transaction, never later than now. */
  ghost predicate Allowed(c: Cell, mv: Move, now: Time) {
    Possible(c, mv) && (mv.Claim? ==> mv.at <= now)
  }

  ghost function Apply(c: Cell, mv: Move): Cell
    requires Possible(c, mv)
  {
    match mv
    case Stay => c
    case Pass => c.(life := c.life.(passed := c.life.passed + 1))
    case Claim(worker, at, updated) =>
      var after := Claimed(c.row.value, worker, at);
      Cell(Some(after),
           c.live[c.life.claims := Envelope(worker, if updated then after else c.row.value, Unsent)],
           c.life.(claims := c.life.claims + 1))
    case Shift(n) => c.(live := c.live[n := Shifted(c.live[n])])
    case Settle(n, known, failure, next) => Settled(c, n, Decide(known, c.live[n].task, failure), next)
    case Transfer(n) => Transferred(c, n)
    case Lose(gone) => c.(live := c.live - gone)
    case Release => c.(row := Some(Released(c.row.value)), life := c.life.(resets := c.life.resets + 1))
    case Override(status) =>
      if c.row.None? then c else c.(row := Some(c.row.value.(status := status)))
  }

  function Shifted(e: Envelope): Envelope {
    e.(stage := if e.stage.Unsent? then Queued else Executing)
  }

  /** The executor's write. It matches on id alone, so it lands on whatever the row has become. */
  function Settled(c: Cell, n: nat, verdict: Verdict, next: Time): Cell
    requires n in c.live
  {
    var rest := c.live - {n};
    if c.row.None? then c.(live := rest)
    else
      match verdict
      case Complete => c.(row := Some(Done(c.row.value)), live := rest)
      case Retry(message) =>
        Cell(Some(Retried(c.row.value, message, next)), rest, c.life.(retries := c.life.retries + 1))
      case Reject(message) => c.(row := Some(Rejected(c.row.value, message)), live := rest)
      case Bury => c.(live := c.live[n := c.live[n].(stage := Moving(c.row.value))])
  }

  /** The end of MoveToDLQ. A read row without last_error breaks the NOT NULL and rolls back. */
  function Transferred(c: Cell, n: nat): Cell
    requires n in c.live && c.live[n].stage.Moving?
  {
    if c.live[n].stage.read.lastError.None? then c.(live := c.live - {n})
    else c.(row := None, live := c.live - {n})
  }

  // ---------------------------------------------------------------- birth columns

  ghost predicate BornAs(t: Task, life: Life) {
    && t.payload == life.payload
    && t.key == life.key
    && t.createdAt == life.createdAt
    && t.maxRetries == life.maxRetries
    && (t.attempts > 0 ==> t.lastError.Some?)
  }

  /** Rows and snapshots keep their birth columns, and no snapshot is ahead of the row. */
  ghost predicate Faithful(c: Cell) {
    && (c.row.Some? ==> BornAs(c.row.value, c.life))
    && (forall n :: n in c.live ==>
          && n < c.life.claims
          && BornAs(c.live[n].task, c.life)
          && (c.row.Some? ==> c.live[n].task.attempts <= c.row.value.attempts)
          && (c.live[n].stage.Moving? ==>
                && BornAs(c.live[n].stage.read, c.life)
                && c.live[n].task.attempts <= c.live[n].stage.read.attempts
                && c.live[n].task.attempts + 1 >= c.life.maxRetries))
  }

  lemma FaithfulSettle(c: Cell, n: nat, verdict: Verdict, next: Time)
    requires Faithful(c) && n in c.live
    requires verdict.Bury? ==> c.live[n].task.attempts + 1 >= c.life.maxRetries
    ensures Faithful(Settled(c, n, verdict, next))
  {
  }

  lemma FaithfulStep(c: Cell, mv: Move, now: Time)
    requires Faithful(c) && Allowed(c, mv, now)
    ensures Faithful(Apply(c, mv))
  {
    if mv.Settle? {
      FaithfulSettle(c, mv.n, Decide(mv.known, c.live[mv.n].task, mv.failure), mv.next);
    }
  }

  /** The birth half of a history never changes. */
  lemma BirthStep(c: Cell, mv: Move)
    requires Possible(c, mv)
    ensures var a, b := c.life, Apply(c, mv).life;
            && b.payload == a.payload && b.key == a.key && b.createdAt == a.createdAt
            && b.maxRetries == a.maxRetries && b.origin == a.origin
  {
  }

  // ---------------------------------------------------------------- lock columns

  ghost predicate LocksKept(c: Cell, now: Time) {
    c.row.Some? ==> LockColumns(c.row.value, now)
  }

  lemma LocksStep(c: Cell, mv: Move, now: Time)
    requires LocksKept(c, now) && Allowed(c, mv, now) && !mv.Override?
    ensures LocksKept(Apply(c, mv), now)
  {
  }

  lemma PairedStep(c: Cell, mv: Move, now: Time)
    requires Allowed(c, mv, now)
    requires c.row.Some? ==> PairedLock(c.row.value)
    ensures Apply(c, mv).row.Some? ==> PairedLock(Apply(c, mv).row.value)
  {
  }

  // ---------------------------------------------------------------- counting claims

  function Waiting(c: Cell): nat {
    if c.row.Some? && c.row.value.status.Pending? then 1 else 0
  }

  /** Live envelopes whose snapshot still lets the executor schedule a retry. */
  function Fresh(c: Cell): (s: set<nat>)
    ensures s <= c.live.Keys
  {
    set n | n in c.live && c.live[n].task.attempts + 1 < c.life.maxRetries
  }

  ghost predicate Young(c: Cell) {
    c.row.Some? && c.row.value.attempts + 1 < c.life.maxRetries
  }

  function Limit(c: Cell): nat {
    if c.life.maxRetries == 0 then 1 else c.life.maxRetries
  }

  ghost predicate Counted(c: Cell) {
    && |c.live.Keys| + Waiting(c) <= 1 + c.life.resets
    && c.life.claims + Waiting(c) <= 1 + c.life.resets + c.life.retries
    && (Young(c) ==> c.life.retries <= c.row.value.attempts)
    && (!Young(c) ==> c.life.retries + |Fresh(c)| <= Limit(c) - 1 + c.life.resets)
    && (c.life.maxRetries <= 1 ==> c.life.retries == 0)
  }

  /**
    The most claims that a retry limit and a number of resets allow; without retries a reset costs one
    claim, else two.
   */
  function MostClaims(maxRetries: nat, resets: nat): nat {
    if maxRetries <= 1 then 1 + resets else maxRetries + 2 * resets
  }

  lemma CountedBound(c: Cell)
    requires Counted(c)
    ensures c.life.claims <= MostClaims(c.life.maxRetries, c.life.resets)
  {
  }

  lemma CountedClaim(c: Cell, mv: Move, now: Time)
    requires Faithful(c) && Counted(c) && Allowed(c, mv, now) && mv.Claim?
    ensures Counted(Apply(c, mv))
  {
    var d := Apply(c, mv);
    assert c.life.claims !in c.live;
    assert d.live.Keys == c.live.Keys + {c.life.claims};
    assert !Young(c) ==> Fresh(d) == Fresh(c);
  }

  lemma FreshIsFew(c: Cell)
    ensures |Fresh(c)| <= |c.live.Keys|
  {
    Oldest.CardSubset(Fresh(c), c.live.Keys);
  }

  lemma CountedLose(c: Cell, gone: set<nat>)
    requires Counted(c)
    ensures Counted(c.(live := c.live - gone))
  {
    var d := c.(live := c.live - gone);
    Oldest.CardSubset(d.live.Keys, c.live.Keys);
    Oldest.CardSubset(Fresh(d), Fresh(c));
  }

  /** Removing envelope `n` after its write, which touched the row. */
  lemma CountedSettle(c: Cell, n: nat, verdict: Verdict, next: Time)
    requires Faithful(c) && Counted(c) && n in c.live && c.row.Some? && !verdict.Bury?
    requires verdict.Retry? ==> n in Fresh(c)
    ensures Counted(Settled(c, n, verdict, next))
  {
    var d := Settled(c, n, verdict, next);
    assert d.live.Keys == c.live.Keys - {n};
    assert Fresh(d) == Fresh(c) - {n};
    FreshIsFew(d);
    assert |Fresh(d)| == |Fresh(c)| - if n in Fresh(c) then 1 else 0;
  }

  lemma CountedStage(c: Cell, n: nat, stage: Stage)
    requires Counted(c) && n in c.live
    ensures Counted(c.(live := c.live[n := c.live[n].(stage := stage)]))
  {
    var d := c.(live := c.live[n := c.live[n].(stage := stage)]);
    assert d.live.Keys == c.live.Keys;
    assert Fresh(d) == Fresh(c);
  }

  lemma CountedTransfer(c: Cell, n: nat)
    requires Faithful(c) && Counted(c) && n in c.live && c.live[n].stage.Moving?
    ensures Counted(Transferred(c, n))
  {
    var d := Transferred(c, n);
    CountedLose(c, {n});
    assert d.live == c.live - {n};
    assert Fresh(d) == Fresh(c.(live := c.live - {n}));
  }

  lemma CountedRelease(c: Cell, mv: Move, now: Time)
    requires Counted(c) && Allowed(c, mv, now) && (mv.Release? || mv.Stay? || mv.Pass?)
    ensures Counted(Apply(c, mv))
  {
    assert Fresh(Apply(c, mv)) == Fresh(c);
  }

  lemma CountedStep(c: Cell, mv: Move, now: Time)
    requires Faithful(c) && Counted(c) && Allowed(c, mv, now) && !mv.Override?
    ensures Counted(Apply(c, mv))
  {
    match mv
    case Claim(_, _, _) => CountedClaim(c, mv, now);
    case Shift(n) => CountedStage(c, n, Shifted(c.live[n]).stage);
    case Settle(n, known, failure, next) =>
      var verdict := Decide(known, c.live[n].task, failure);
      if c.row.None? {
        CountedLose(c, {n});
      } else if verdict.Bury? {
        CountedStage(c, n, Moving(c.row.value));
      } else {
        CountedSettle(c, n, verdict, next);
      }
    case Transfer(n) => CountedTransfer(c, n);
    case Lose(gone) => CountedLose(c, gone);
    case _ => CountedRelease(c, mv, now);
  }

  // ---------------------------------------------------------------- safe recovery

  /** Recovery that only resets a task no process still carries. */
  ghost predicate SafeMove(c: Cell, mv: Move) {
    && !mv.Override?
    && (mv.Release? ==> c.live.Keys == {})
  }

  /** At most one envelope carries the task, and then the row is running and locked by its worker. */
  ghost predicate Owned(c: Cell) {
    && (forall i, j :: i in c.live && j in c.live ==> i == j)
    && (forall n :: n in c.live ==>
          && c.row.Some?
          && c.row.value.status.Running?
          && c.row.value.lockedBy == Some(c.live[n].worker)
          && c.live[n].task.attempts == c.row.value.attempts
          && (c.live[n].stage.Moving? ==> c.live[n].stage.read == c.row.value))
    && (c.row.Some? && (c.row.value.status.Pending? || c.row.value.status.Running?) ==>
          c.row.value.attempts + 1 <= Limit(c))
  }

  lemma OwnedStep(c: Cell, mv: Move, now: Time)
    requires Faithful(c) && Owned(c) && Allowed(c, mv, now) && SafeMove(c, mv)
    ensures Owned(Apply(c, mv))
  {
  }

  /** In a safely recovered cell, the row that MoveToDLQ read has used up all attempts but one. */
  lemma BuriedAttempts(c: Cell, n: nat)
    requires Faithful(c) && Owned(c) && n in c.live && c.live[n].stage.Moving?
    ensures c.live[n].stage.read.attempts == Limit(c) - 1
  {
  }

  // ---------------------------------------------------------------- the six-state machine

  datatype Phase = Unborn | Waits | Runs | Succeeded | GivenUp | Buried

  function PhaseOf(c: Cell): Phase {
    match c.row
    case None => Buried
    case Some(t) =>
      match t.status
      case Pending => Waits
      case Running => Runs
      case Completed => Succeeded
      case Failed => GivenUp
  }

  predicate Edge(a: Phase, b: Phase) {
    match a
    case Unborn => b == Waits
    case Waits => b == Runs
    case Runs => b in {Waits, Succeeded, GivenUp, Buried}
    case _ => false
  }

  predicate Terminal(p: Phase) {
    p in {Succeeded, GivenUp, Buried}
  }

  lemma OnlyEdges(c: Cell, mv: Move, now: Time)
    requires Owned(c) && Allowed(c, mv, now) && SafeMove(c, mv)
    ensures var a, b := PhaseOf(c), PhaseOf(Apply(c, mv)); a == b || Edge(a, b)
  {
  }
}
