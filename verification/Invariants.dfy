/** What every step of the board keeps: for all steps, for steps without the override, and under safe recovery. */
module Invariants {
  import opened Wrappers
  import opened TaskTable
  import opened TaskLife
  import opened Board

  // ---------------------------------------------------------------- the predicates

  ghost predicate AllFaithful(b: Board) {
    && Shaped(b)
    && (forall id :: id in b.life ==> Faithful(At(b, id)) && b.life[id].maxRetries == b.maxRetries)
  }

  ghost predicate AllPaired(b: Board) {
    forall id :: id in b.tasks ==> PairedLock(b.tasks[id])
  }

  ghost predicate AllLocksKept(b: Board) {
    forall id :: id in b.tasks ==> LockColumns(b.tasks[id], b.now)
  }

  ghost predicate AllCounted(b: Board) {
    Shaped(b) && forall id :: id in b.life ==> Counted(At(b, id))
  }

  ghost predicate AllOwned(b: Board) {
    Shaped(b) && forall id :: id in b.life ==> Owned(At(b, id))
  }

  function Originals(dead: DeadLetters): (ids: set<TaskId>)
    ensures forall d :: d in dead ==> dead[d].original in ids
    ensures forall id :: id in ids ==> exists d :: d in dead && dead[d].original == id
  {
    set d | d in dead :: dead[d].original
  }

  /** Every id ever inserted is in `tasks` or dead-lettered, and never both. */
  ghost predicate Conserved(b: Board) {
    && b.tasks.Keys !! Originals(b.dead)
    && b.tasks.Keys + Originals(b.dead) == b.life.Keys
  }

  /** No task has two dead letters. */
  ghost predicate OneLetterEach(dead: DeadLetters) {
    forall d, e :: d in dead && e in dead && dead[d].original == dead[e].original ==> d == e
  }

  function LastAttempt(maxRetries: nat): nat {
    if maxRetries == 0 then 0 else maxRetries - 1
  }

  ghost predicate LettersSpent(b: Board) {
    forall d :: d in b.dead ==> b.dead[d].attempts == LastAttempt(b.maxRetries)
  }

  /** Nothing is lost or doubled in the two tables together. */
  ghost predicate Balanced(b: Board) {
    |b.tasks.Keys| + |b.dead.Keys| == |b.life.Keys|
  }

  ghost predicate ExactlyConserved(b: Board) {
    OneLetterEach(b.dead) && LettersSpent(b) && Balanced(b)
  }

  /** Payloads never change: not in rows, not in dead letters, and not along a chain of DLQ retries. */
  ghost predicate PayloadsKept(b: Board) {
    LetterPayloadsKept(b) && ChainPayloadsKept(b)
  }

  ghost predicate LetterPayloadsKept(b: Board) {
    forall d :: d in b.dead ==>
      b.dead[d].original in b.life && b.dead[d].payload == b.life[b.dead[d].original].payload
  }

  ghost predicate ChainPayloadsKept(b: Board) {
    forall id {:trigger Chained(b, id)} :: id in b.life ==> Chained(b, id)
  }

  /** The origin of a task is a create, and its payload is the task's. */
  ghost predicate Chained(b: Board, id: TaskId)
    requires id in b.life
  {
    var origin := b.life[id].origin;
    origin in b.life && b.life[origin].origin == origin && b.life[origin].payload == b.life[id].payload
  }

  /** Everything that holds of every run, the operator's override included. */
  ghost predicate Sound(b: Board) {
    AllFaithful(b) && AllPaired(b) && Conserved(b) && PayloadsKept(b) && UniqueKeys(b.tasks)
  }

  /** What holds of every run without the override. */
  ghost predicate Regular(b: Board) {
    Sound(b) && AllLocksKept(b) && AllCounted(b)
  }

  /** What holds of every run with safe recovery. */
  ghost predicate Safe(b: Board) {
    Regular(b) && AllOwned(b) && ExactlyConserved(b)
  }

  /** Recovery that resets only tasks without a live envelope. */
  ghost predicate SafeStep(b: Board, s: Step)
    requires Shaped(b) && Enabled(b, s)
  {
    && !s.Override?
    && (s.UnlockStale? ==> forall id :: id in StaleRows(b.tasks, s.at, s.age) ==> b.live[id] == map[])
    && (s.Recover? ==> forall id :: id in RowsHeldBy(b.tasks, s.worker) ==> b.live[id] == map[])
  }

  // ---------------------------------------------------------------- births

  lemma Birth(b: Board, s: Step, id: TaskId)
    requires Shaped(b) && Enabled(b, s) && id in Next(b, s).life && id !in b.life
    ensures s.Insert? || s.Redrive?
    ensures s.id == id
    ensures Shaped(Next(b, s))
    ensures At(Next(b, s), id).live == map[]
    ensures var life := Next(b, s).life[id];
            && life == Newborn(life.payload, life.key, life.createdAt, b.maxRetries, life.origin)
            && At(Next(b, s), id).row == Some(NewTask(life.payload, life.key, b.maxRetries, life.createdAt))
  {
  }

  lemma BirthIsWell(c: Cell, now: Time)
    requires c.live == map[]
    requires c.life == Newborn(c.life.payload, c.life.key, c.life.createdAt, c.life.maxRetries, c.life.origin)
    requires c.row == Some(NewTask(c.life.payload, c.life.key, c.life.maxRetries, c.life.createdAt))
    ensures Faithful(c) && Counted(c) && Owned(c) && LocksKept(c, now)
  {
    assert Fresh(c) == {};
    assert c.live.Keys == {};
  }

  lemma NewbornIsWell(b: Board, s: Step, id: TaskId)
    requires Shaped(b) && Enabled(b, s) && id in Next(b, s).life && id !in b.life
    ensures Shaped(Next(b, s))
    ensures var c := At(Next(b, s), id); Faithful(c) && Counted(c) && Owned(c) && LocksKept(c, Next(b, s).now)
  {
    Birth(b, s, id);
    BirthIsWell(At(Next(b, s), id), Next(b, s).now);
  }

  // ---------------------------------------------------------------- preservation, cell by cell

  lemma KeepsFaithful(b: Board, s: Step)
    requires AllFaithful(b) && Enabled(b, s)
    ensures AllFaithful(Next(b, s))
  {
    StaysShaped(b, s);
    var d := Next(b, s);
    forall id | id in d.life
      ensures Faithful(At(d, id)) && d.life[id].maxRetries == d.maxRetries
    {
      if id in b.life {
        Projection(b, s, id);
        FaithfulStep(At(b, id), MoveOf(b, s, id), b.now);
        KeepsBirth(b, s, id);
      } else {
        Birth(b, s, id);
        NewbornIsWell(b, s, id);
      }
      ConstantsKept(b, s);
    }
  }

  /** No step changes the birth columns, the key, the payload or the column default. */
  lemma KeepsBirth(b: Board, s: Step, id: TaskId)
    requires Shaped(b) && Enabled(b, s) && id in b.life
    ensures id in Next(b, s).life
    ensures var a, c := b.life[id], Next(b, s).life[id];
            && c.payload == a.payload && c.key == a.key && c.createdAt == a.createdAt
            && c.maxRetries == a.maxRetries && c.origin == a.origin
  {
    Projection(b, s, id);
    BirthStep(At(b, id), MoveOf(b, s, id));
    assert At(Next(b, s), id).life == Next(b, s).life[id];
  }

  lemma ConstantsKept(b: Board, s: Step)
    requires Shaped(b) && Enabled(b, s)
    ensures Next(b, s).maxRetries == b.maxRetries && Next(b, s).batch == b.batch
    ensures b.now <= Next(b, s).now
  {
  }

  lemma KeepsPaired(b: Board, s: Step)
    requires Shaped(b) && AllPaired(b) && Enabled(b, s)
    ensures AllPaired(Next(b, s))
  {
    StaysShaped(b, s);
    var d := Next(b, s);
    forall id | id in d.tasks
      ensures PairedLock(d.tasks[id])
    {
      if id in b.life {
        Projection(b, s, id);
        PairedStep(At(b, id), MoveOf(b, s, id), b.now);
        assert At(d, id).row == Some(d.tasks[id]);
      } else {
        Birth(b, s, id);
      }
    }
  }

  lemma StepKeepsLocks(b: Board, s: Step, id: TaskId)
    requires Shaped(b) && Enabled(b, s) && !s.Override? && id in b.life && id in Next(b, s).tasks
    requires LocksKept(At(b, id), b.now)
    ensures LockColumns(Next(b, s).tasks[id], Next(b, s).now)
  {
    Projection(b, s, id);
    ConstantsKept(b, s);
    LocksStep(At(b, id), MoveOf(b, s, id), b.now);
    assert At(Next(b, s), id).row == Some(Next(b, s).tasks[id]);
  }

  lemma KeepsLocks(b: Board, s: Step)
    requires Shaped(b) && AllLocksKept(b) && Enabled(b, s) && !s.Override?
    ensures AllLocksKept(Next(b, s))
  {
    StaysShaped(b, s);
    var d := Next(b, s);
    forall id | id in d.tasks
      ensures LockColumns(d.tasks[id], d.now)
    {
      if id in b.life {
        StepKeepsLocks(b, s, id);
      } else {
        Birth(b, s, id);
      }
    }
  }

  lemma StepKeepsCounted(b: Board, s: Step, id: TaskId)
    requires Shaped(b) && Enabled(b, s) && !s.Override? && id in b.life
    requires Faithful(At(b, id)) && Counted(At(b, id))
    ensures Shaped(Next(b, s)) && id in Next(b, s).life && Counted(At(Next(b, s), id))
  {
    Projection(b, s, id);
    CountedStep(At(b, id), MoveOf(b, s, id), b.now);
  }

  lemma KeepsCounted(b: Board, s: Step)
    requires AllFaithful(b) && AllCounted(b) && Enabled(b, s) && !s.Override?
    ensures AllCounted(Next(b, s))
  {
    StaysShaped(b, s);
    var d := Next(b, s);
    forall id | id in d.life
      ensures Counted(At(d, id))
    {
      if id in b.life {
        StepKeepsCounted(b, s, id);
      } else {
        NewbornIsWell(b, s, id);
      }
    }
  }

  lemma SafeMoves(b: Board, s: Step, id: TaskId)
    requires Shaped(b) && Enabled(b, s) && SafeStep(b, s) && id in b.life
    ensures SafeMove(At(b, id), MoveOf(b, s, id))
  {
  }

  lemma KeepsOwned(b: Board, s: Step)
    requires AllFaithful(b) && AllOwned(b) && Enabled(b, s) && SafeStep(b, s)
    ensures AllOwned(Next(b, s))
  {
    StaysShaped(b, s);
    var d := Next(b, s);
    forall id | id in d.life
      ensures Owned(At(d, id))
    {
      if id in b.life {
        Projection(b, s, id);
        SafeMoves(b, s, id);
        OwnedStep(At(b, id), MoveOf(b, s, id), b.now);
      } else {
        NewbornIsWell(b, s, id);
      }
    }
  }

  // ---------------------------------------------------------------- preservation, whole tables

  /** What a step does to the sets of rows: nothing, one row more, or one row turned into a dead letter. */
  datatype Effect = Quiet | Grown(id: TaskId) | Swapped(id: TaskId, letter: DeadId, row: DeadLetter)

  ghost function EffectOf(b: Board, s: Step): Effect
    requires Shaped(b) && Enabled(b, s)
  {
    match s
    case Insert(id, _, _, _) => Grown(id)
    case Redrive(id, _, _) => Grown(id)
    case Transfer(id, n, letter, at) =>
      var read := b.live[id][n].stage.read;
      if read.lastError.None? then Quiet
      else Swapped(id, letter, DeadLetter(id, read.payload, read.lastError.value, read.attempts, at, None))
    case _ => Quiet
  }

  ghost predicate SameLetters(a: DeadLetters, c: DeadLetters) {
    && a.Keys == c.Keys
    && (forall x :: x in a ==> c[x].(retriedAt := None) == a[x].(retriedAt := None))
  }

  ghost predicate Effected(b: Board, d: Board, e: Effect) {
    match e
    case Quiet =>
      d.tasks.Keys == b.tasks.Keys && d.life.Keys == b.life.Keys && SameLetters(b.dead, d.dead)
    case Grown(id) =>
      && id !in b.life
      && d.tasks.Keys == b.tasks.Keys + {id} && d.life.Keys == b.life.Keys + {id} && SameLetters(b.dead, d.dead)
    case Swapped(id, letter, row) =>
      && letter !in b.dead && row.original == id && id in b.life
      && d.tasks.Keys == b.tasks.Keys - {id} && d.life.Keys == b.life.Keys && d.dead == b.dead[letter := row]
  }

  lemma BirthEffect(b: Board, s: Step)
    requires Shaped(b) && Enabled(b, s) && (s.Insert? || s.Redrive?)
    ensures Effected(b, Next(b, s), EffectOf(b, s))
  {
  }

  lemma QuietEffect(b: Board, s: Step)
    requires Shaped(b) && Enabled(b, s) && !s.Insert? && !s.Redrive? && !s.Transfer? && !s.Settle?
    ensures Effected(b, Next(b, s), EffectOf(b, s))
  {
  }

  lemma WriteEffect(b: Board, s: Step)
    requires Shaped(b) && Enabled(b, s) && (s.Transfer? || s.Settle?)
    ensures Effected(b, Next(b, s), EffectOf(b, s))
  {
  }

  lemma StepEffect(b: Board, s: Step)
    requires Shaped(b) && Enabled(b, s)
    ensures Effected(b, Next(b, s), EffectOf(b, s))
  {
    if s.Insert? || s.Redrive? {
      BirthEffect(b, s);
    } else if s.Transfer? || s.Settle? {
      WriteEffect(b, s);
    } else {
      QuietEffect(b, s);
    }
  }

  lemma SameOriginals(a: DeadLetters, c: DeadLetters)
    requires SameLetters(a, c)
    ensures Originals(a) == Originals(c)
  {
    forall x | x in a ensures c[x].original == a[x].original {
      assert c[x].(retriedAt := None).original == a[x].(retriedAt := None).original;
    }
  }

  lemma MoreOriginals(a: DeadLetters, letter: DeadId, row: DeadLetter)
    requires letter !in a
    ensures Originals(a[letter := row]) == Originals(a) + {row.original}
  {
    var c := a[letter := row];
    assert forall x :: x in a ==> c[x] == a[x];
    assert c[letter] == row;
  }

  lemma EffectConserves(b: Board, d: Board, e: Effect)
    requires Conserved(b) && Effected(b, d, e)
    ensures Conserved(d)
  {
    match e
    case Swapped(id, letter, row) => MoreOriginals(b.dead, letter, row);
    case _ => SameOriginals(b.dead, d.dead);
  }

  lemma KeepsConserved(b: Board, s: Step)
    requires Shaped(b) && Conserved(b) && Enabled(b, s)
    ensures Conserved(Next(b, s))
  {
    StepEffect(b, s);
    EffectConserves(b, Next(b, s), EffectOf(b, s));
  }

  ghost predicate BirthsKept(b: Board, d: Board) {
    && b.life.Keys <= d.life.Keys
    && (forall id :: id in b.life ==>
          d.life[id].payload == b.life[id].payload && d.life[id].origin == b.life[id].origin)
  }

  lemma AllBirthsKept(b: Board, s: Step)
    requires Shaped(b) && Enabled(b, s)
    ensures BirthsKept(b, Next(b, s))
  {
    StaysShaped(b, s);
    var d := Next(b, s);
    forall id | id in b.life
      ensures d.life[id].payload == b.life[id].payload && d.life[id].origin == b.life[id].origin
    {
      KeepsBirth(b, s, id);
    }
  }

  /** What a newborn's payload and origin are. */
  lemma BirthCertificate(b: Board, s: Step)
    requires Shaped(b) && Enabled(b, s) && (s.Insert? || s.Redrive?)
    requires PayloadsKept(b)
    ensures s.id in Next(b, s).life
    ensures s.Insert? ==> Next(b, s).life[s.id].payload == s.payload && Next(b, s).life[s.id].origin == s.id
    ensures s.Redrive? ==>
              var original := b.dead[s.letter].original;
              && Next(b, s).life[s.id].payload == b.life[original].payload
              && Next(b, s).life[s.id].origin == b.life[original].origin
  {
  }

  lemma SameLettersKeepPayloads(b: Board, d: Board)
    requires LetterPayloadsKept(b) && BirthsKept(b, d) && SameLetters(b.dead, d.dead)
    ensures LetterPayloadsKept(d)
  {
    forall x | x in d.dead
      ensures d.dead[x].original == b.dead[x].original && d.dead[x].payload == b.dead[x].payload
    {
      assert d.dead[x].(retriedAt := None).original == b.dead[x].(retriedAt := None).original;
      assert d.dead[x].(retriedAt := None).payload == b.dead[x].(retriedAt := None).payload;
    }
  }

  lemma NewLetterKeepsPayloads(b: Board, d: Board, e: Effect)
    requires LetterPayloadsKept(b) && BirthsKept(b, d) && Effected(b, d, e)
    requires e.Swapped? && e.row.payload == b.life[e.id].payload
    ensures LetterPayloadsKept(d)
  {
  }

  lemma ChainsStay(b: Board, d: Board)
    requires ChainPayloadsKept(b) && BirthsKept(b, d) && d.life.Keys == b.life.Keys
    ensures ChainPayloadsKept(d)
  {
    forall x | x in d.life
      ensures Chained(d, x)
    {
      assert Chained(b, x);
    }
  }

  /** A newborn starts a chain of its own, or joins the one that its origin has started. */
  ghost predicate JoinsChain(b: Board, d: Board, id: TaskId)
    requires id in d.life
  {
    var origin := d.life[id].origin;
    origin == id ||
    (origin in b.life && b.life[origin].origin == origin && b.life[origin].payload == d.life[id].payload)
  }

  lemma ChainsGrow(b: Board, d: Board, id: TaskId)
    requires ChainPayloadsKept(b) && BirthsKept(b, d) && id !in b.life
    requires d.life.Keys == b.life.Keys + {id} && JoinsChain(b, d, id)
    ensures ChainPayloadsKept(d)
  {
    forall x | x in d.life
      ensures Chained(d, x)
    {
      assert x != id ==> Chained(b, x);
    }
  }

  lemma KeepsPayloads(b: Board, s: Step)
    requires AllFaithful(b) && PayloadsKept(b) && Enabled(b, s)
    ensures PayloadsKept(Next(b, s))
  {
    StepEffect(b, s);
    AllBirthsKept(b, s);
    var d, e := Next(b, s), EffectOf(b, s);
    if e.Grown? {
      BirthCertificate(b, s);
      assert s.Redrive? ==> Chained(b, b.dead[s.letter].original);
      ChainsGrow(b, d, e.id);
    } else {
      ChainsStay(b, d);
    }
    if e.Swapped? {
      SwappedPayload(b, s);
      NewLetterKeepsPayloads(b, d, e);
    } else {
      SameLettersKeepPayloads(b, d);
    }
  }

  lemma SwappedPayload(b: Board, s: Step)
    requires AllFaithful(b) && Enabled(b, s) && EffectOf(b, s).Swapped?
    ensures EffectOf(b, s).row.payload == b.life[s.id].payload
  {
    assert Faithful(At(b, s.id)) && s.n in At(b, s.id).live;
  }

  /** Rows carry their birth key, so uniqueness is about ids that are present. */
  lemma KeysFromBirth(b: Board)
    requires AllFaithful(b)
    ensures forall id :: id in b.tasks ==> b.tasks[id].key == b.life[id].key
  {
    forall id | id in b.tasks
      ensures b.tasks[id].key == b.life[id].key
    {
      assert Faithful(At(b, id));
      assert At(b, id).row == Some(b.tasks[id]);
    }
  }

  lemma NewKeyIsUnused(b: Board, s: Step)
    requires Shaped(b) && Enabled(b, s) && (s.Insert? || s.Redrive?)
    ensures s.id in Next(b, s).life
    ensures var key := Next(b, s).life[s.id].key;
            key.Some? ==> forall id :: id in b.tasks ==> b.tasks[id].key != key
  {
    if s.Insert? && s.key.Some? {
      assert forall id :: id in b.tasks ==> id !in KeyHolders(b.tasks, s.key.value);
    }
  }

  lemma EffectKeepsKeys(b: Board, d: Board, e: Effect)
    requires UniqueKeys(b.tasks) && Effected(b, d, e)
    requires b.tasks.Keys <= b.life.Keys && d.tasks.Keys <= d.life.Keys
    requires forall id :: id in b.tasks && id in d.tasks ==> b.tasks[id].key == d.tasks[id].key
    requires e.Grown? && d.tasks[e.id].key.Some? ==> forall id :: id in b.tasks ==> b.tasks[id].key != d.tasks[e.id].key
    ensures UniqueKeys(d.tasks)
  {
  }

  lemma KeepsUniqueKeys(b: Board, s: Step)
    requires AllFaithful(b) && UniqueKeys(b.tasks) && Enabled(b, s)
    ensures UniqueKeys(Next(b, s).tasks)
  {
    KeepsFaithful(b, s);
    StepEffect(b, s);
    KeysFromBirth(b);
    KeysFromBirth(Next(b, s));
    forall id | id in b.life
      ensures b.life[id].key == Next(b, s).life[id].key
    {
      KeepsBirth(b, s, id);
    }
    if EffectOf(b, s).Grown? {
      NewKeyIsUnused(b, s);
    }
    EffectKeepsKeys(b, Next(b, s), EffectOf(b, s));
  }

  lemma EffectKeepsOneLetterEach(b: Board, d: Board, e: Effect)
    requires Conserved(b) && OneLetterEach(b.dead) && Effected(b, d, e)
    requires e.Swapped? ==> e.id in b.tasks
    ensures OneLetterEach(d.dead)
  {
    forall x | x in d.dead && x in b.dead
      ensures d.dead[x].original == b.dead[x].original
    {
      if !e.Swapped? {
        assert d.dead[x].(retriedAt := None).original == b.dead[x].(retriedAt := None).original;
      }
    }
  }

  lemma EffectKeepsSpent(b: Board, d: Board, e: Effect)
    requires LettersSpent(b) && Effected(b, d, e) && d.maxRetries == b.maxRetries
    requires e.Swapped? ==> e.row.attempts == LastAttempt(b.maxRetries)
    ensures LettersSpent(d)
  {
    forall x | x in d.dead && x in b.dead
      ensures d.dead[x].attempts == b.dead[x].attempts
    {
      if !e.Swapped? {
        assert d.dead[x].(retriedAt := None).attempts == b.dead[x].(retriedAt := None).attempts;
      }
    }
  }

  lemma EffectKeepsBalance(b: Board, d: Board, e: Effect)
    requires Balanced(b) && Shaped(b) && Effected(b, d, e)
    requires e.Swapped? ==> e.id in b.tasks
    ensures Balanced(d)
  {
    if e.Swapped? {
      assert d.dead.Keys == b.dead.Keys + {e.letter};
    }
  }

  /** In a safe run MoveToDLQ buries a row that is there, on its last attempt. */
  lemma TransferIsTimely(b: Board, s: Step)
    requires AllFaithful(b) && AllOwned(b) && Enabled(b, s) && s.Transfer?
    ensures s.id in b.tasks
    ensures b.live[s.id][s.n].stage.read.attempts == LastAttempt(b.maxRetries)
  {
    assert Faithful(At(b, s.id)) && Owned(At(b, s.id));
    assert s.n in At(b, s.id).live;
    BuriedAttempts(At(b, s.id), s.n);
  }

  lemma KeepsExactlyConserved(b: Board, s: Step)
    requires Sound(b) && AllOwned(b) && ExactlyConserved(b) && Enabled(b, s)
    ensures ExactlyConserved(Next(b, s))
  {
    var d, e := Next(b, s), EffectOf(b, s);
    StepEffect(b, s);
    ConstantsKept(b, s);
    if e.Swapped? {
      TransferIsTimely(b, s);
    }
    EffectKeepsOneLetterEach(b, d, e);
    EffectKeepsSpent(b, d, e);
    EffectKeepsBalance(b, d, e);
  }

  // ---------------------------------------------------------------- the three levels

  lemma KeepsSound(b: Board, s: Step)
    requires Sound(b) && Enabled(b, s)
    ensures Sound(Next(b, s))
  {
    KeepsFaithful(b, s);
    KeepsPaired(b, s);
    KeepsConserved(b, s);
    KeepsPayloads(b, s);
    KeepsUniqueKeys(b, s);
  }

  lemma KeepsRegular(b: Board, s: Step)
    requires Regular(b) && Enabled(b, s) && !s.Override?
    ensures Regular(Next(b, s))
  {
    KeepsSound(b, s);
    KeepsLocks(b, s);
    KeepsCounted(b, s);
  }

  lemma KeepsSafe(b: Board, s: Step)
    requires Safe(b) && Enabled(b, s) && SafeStep(b, s)
    ensures Safe(Next(b, s))
  {
    KeepsRegular(b, s);
    KeepsOwned(b, s);
    KeepsExactlyConserved(b, s);
  }

  lemma EmptyIsSafe(batch: nat, maxRetries: nat, now: Time)
    ensures Safe(Empty(batch, maxRetries, now))
  {
    assert Originals(Empty(batch, maxRetries, now).dead) == {};
  }
}
