/**
  Exactly when a task gets one dead letter, and exactly when that letter tells its last attempt:
  after a safely recovered run, if and only if the next recovery spares the tasks that are carried,
  or for the attempt count those whose carrier may still retry.
 */
module Letters {
  import opened Wrappers
  import opened TaskTable
  import opened Decision
  import opened TaskLife
  import opened Board
  import opened Invariants
  import opened Guarantees
  import opened Scripts
  import opened Exactness

  ghost predicate Buried(dead: DeadLetters, d: DeadId, id: TaskId) {
    d in dead && dead[d].original == id
  }

  /** After `before`, some calm continuation gives the task a second dead letter. */
  ghost predicate DoublesLetter(b: Board, tables: iset<set<string>>, before: seq<Step>, more: seq<Step>, id: TaskId) {
    && Valid(b, before + more) && Calm(more, tables)
    && exists d, e :: Buried(Exec(b, before + more).dead, d, id) && Buried(Exec(b, before + more).dead, e, id) && d != e
  }

  /** Or a dead letter with another attempt count than the last. */
  ghost predicate MiscountsLetter(b: Board, tables: iset<set<string>>, before: seq<Step>, more: seq<Step>, id: TaskId) {
    && Valid(b, before + more) && Calm(more, tables)
    && exists d :: Buried(Exec(b, before + more).dead, d, id)
                   && Exec(b, before + more).dead[d].attempts != LastAttempt(b.maxRetries)
  }

  // ---------------------------------------------------------------- what rivals can do

  ghost predicate BothRun(c: Cell, x: nat, y: nat) {
    Rivals(c, x, y) && c.live[x].stage.Executing?
  }

  lemma RetryCell(c: Cell, x: nat, y: nat, known: set<string>, now: Time)
    requires BothRun(c, x, y) && Gap(c, x) > 0 && Serves(known, c.life.payload)
    ensures var d := Settled(c, x, Failing(c, x, known), now);
            && d.row.Some? && Eligible(d.row.value, now)
            && var e, z := Begun(d, 0, now), d.life.claims;
               && BothRun(e, z, y) && Gap(e, z) < Gap(c, x)
               && e.live[z].task.attempts == c.row.value.attempts + 1
               && e.live[y] == c.live[y] && e.life.maxRetries == c.life.maxRetries && e.life.payload == c.life.payload
  {
    assert BornAs(c.live[x].task, c.life);
    FaithfulSettle(c, x, Failing(c, x, known), now);
  }

  /** A rival fails with attempts left, and its task is claimed again. */
  lemma RetryRival(b: Board, before: seq<Step>, after: seq<Step>, id: TaskId, scene: Scene, x: nat, y: nat,
                   known: set<string>)
    returns (more: seq<Step>, c: Cell, z: nat)
    requires Leads(b, before, after, id, scene) && BothRun(scene.cell, x, y) && Gap(scene.cell, x) > 0
    requires known in scene.tables && Serves(known, scene.cell.life.payload)
    ensures Leads(b, before, more, id, scene.(cell := c)) && BothRun(c, z, y) && Gap(c, z) < Gap(scene.cell, x)
    ensures c.live[z].task.attempts == scene.cell.row.value.attempts + 1 && c.live[y] == scene.cell.live[y]
    ensures c.life.maxRetries == scene.cell.life.maxRetries && c.life.payload == scene.cell.life.payload
  {
    var d := Settled(scene.cell, x, Failing(scene.cell, x, known), scene.now);
    RetryCell(scene.cell, x, y, known, scene.now);
    more := Settles(b, before, after, id, scene, x, known, Some("no"));
    more := Begins(b, before, more, id, scene.(cell := d), 0);
    c, z := Begun(d, 0, scene.now), d.life.claims;
  }

  /** One rival fails and is claimed again until its claimant is on the last attempt; the other keeps its snapshot. */
  lemma {:induction false} OneLast(b: Board, before: seq<Step>, after: seq<Step>, id: TaskId, scene: Scene,
                                   x: nat, y: nat, known: set<string>)
    returns (more: seq<Step>, c: Cell, u: nat)
    requires Leads(b, before, after, id, scene) && BothRun(scene.cell, x, y)
    requires known in scene.tables && Serves(known, scene.cell.life.payload)
    ensures Leads(b, before, more, id, scene.(cell := c)) && BothRun(c, u, y) && Gap(c, u) == 0
    ensures c.live[y] == scene.cell.live[y]
    ensures c.life.maxRetries == scene.cell.life.maxRetries && c.life.payload == scene.cell.life.payload
    decreases Gap(scene.cell, x)
  {
    if Gap(scene.cell, x) > 0 {
      var d, z;
      more, d, z := RetryRival(b, before, after, id, scene, x, y, known);
      more, c, u := OneLast(b, before, more, id, scene.(cell := d), z, y, known);
    } else {
      more, c, u := after, scene.cell, x;
      assert scene.(cell := c) == scene;
    }
  }

  lemma Swap(c: Cell, x: nat, y: nat)
    requires BothRun(c, x, y)
    ensures BothRun(c, y, x)
  {
  }

  /** Both rivals on their last attempt. */
  lemma BothLast(b: Board, before: seq<Step>, after: seq<Step>, id: TaskId, scene: Scene, x: nat, y: nat,
                 known: set<string>)
    returns (more: seq<Step>, c: Cell, u: nat, v: nat)
    requires Leads(b, before, after, id, scene) && BothRun(scene.cell, x, y)
    requires known in scene.tables && Serves(known, scene.cell.life.payload)
    ensures Leads(b, before, more, id, scene.(cell := c)) && BothRun(c, u, v) && Gap(c, u) == Gap(c, v) == 0
    ensures c.life.maxRetries == scene.cell.life.maxRetries && c.life.payload == scene.cell.life.payload
  {
    var d;
    more, d, v := OneLast(b, before, after, id, scene, x, y, known);
    Swap(d, v, y);
    more, c, u := OneLast(b, before, more, id, scene.(cell := d), y, v, known);
  }

  /** Both have read the row for MoveToDLQ, and each read has an error to store. */
  ghost predicate BothMove(c: Cell, x: nat, y: nat) {
    && x in c.live && y in c.live && x != y
    && c.live[x].stage.Moving? && c.live[x].stage.read.lastError.Some?
    && c.live[y].stage.Moving? && c.live[y].stage.read.lastError.Some?
  }

  lemma MoversDoubleLetter(b: Board, before: seq<Step>, after: seq<Step>, id: TaskId, scene: Scene, x: nat, y: nat)
    returns (more: seq<Step>)
    requires Leads(b, before, after, id, scene) && BothMove(scene.cell, x, y)
    ensures DoublesLetter(b, scene.tables, before, more, id)
  {
    var c := scene.cell;
    var d, e;
    more, d := Transfers(b, before, after, id, scene, x);
    var letter := LetterOf(id, c.live[x].stage.read, scene.now);
    var next := scene.(cell := Transferred(c, x), dead := scene.dead[d := letter]);
    more, e := Transfers(b, before, more, id, next, y);
    var dead := next.dead[e := LetterOf(id, next.cell.live[y].stage.read, scene.now)];
    assert Buried(dead, d, id) && Buried(dead, e, id);
  }

  lemma RunnersDoubleLetter(b: Board, before: seq<Step>, after: seq<Step>, id: TaskId, scene: Scene, x: nat, y: nat,
                            known: set<string>)
    returns (more: seq<Step>)
    requires Leads(b, before, after, id, scene) && BothRun(scene.cell, x, y)
    requires Gap(scene.cell, x) == Gap(scene.cell, y) == 0
    requires known in scene.tables && Serves(known, scene.cell.life.payload)
    ensures DoublesLetter(b, scene.tables, before, more, id)
  {
    var c := scene.cell;
    RowHasError(c, x);
    LastMoves(c, x, known, scene.now);
    more := Settles(b, before, after, id, scene, x, known, Some("no"));
    var d := Settled(c, x, Failing(c, x, known), scene.now);
    FaithfulSettle(c, x, Failing(c, x, known), scene.now);
    LastMoves(d, y, known, scene.now);
    more := Settles(b, before, more, id, scene.(cell := d), y, known, Some("no"));
    var e := Settled(d, y, Failing(d, y, known), scene.now);
    more := MoversDoubleLetter(b, before, more, id, scene.(cell := e), x, y);
  }

  lemma MoverDoublesLetter(b: Board, before: seq<Step>, after: seq<Step>, id: TaskId, scene: Scene, x: nat, y: nat,
                           known: set<string>)
    returns (more: seq<Step>)
    requires Leads(b, before, after, id, scene) && Rivals(scene.cell, x, y) && scene.cell.live[x].stage.Moving?
    requires known in scene.tables && Serves(known, scene.cell.life.payload)
    ensures DoublesLetter(b, scene.tables, before, more, id)
  {
    var c := scene.cell;
    RowHasError(c, y);
    LastMoves(c, y, known, scene.now);
    more := Settles(b, before, after, id, scene, y, known, Some("no"));
    var d := Settled(c, y, Failing(c, y, known), scene.now);
    more := MoversDoubleLetter(b, before, more, id, scene.(cell := d), x, y);
  }

  lemma RivalsDoubleLetter(b: Board, before: seq<Step>, after: seq<Step>, id: TaskId, scene: Scene, x: nat, y: nat,
                           known: set<string>)
    returns (more: seq<Step>)
    requires Leads(b, before, after, id, scene) && Rivals(scene.cell, x, y)
    requires known in scene.tables && Serves(known, scene.cell.life.payload)
    ensures DoublesLetter(b, scene.tables, before, more, id)
  {
    if scene.cell.live[x].stage.Moving? {
      more := MoverDoublesLetter(b, before, after, id, scene, x, y, known);
    } else {
      var c, d, u, v;
      more, c := RivalProceeds(b, before, after, id, scene, x, y);
      more, d, u, v := BothLast(b, before, more, id, scene.(cell := c), x, y, known);
      more := RunnersDoubleLetter(b, before, more, id, scene.(cell := d), u, v, known);
    }
  }

  /** An envelope on its last attempt, and a row with more attempts than are allowed, make a wrong letter. */
  lemma LastMiscounts(b: Board, before: seq<Step>, after: seq<Step>, id: TaskId, scene: Scene, x: nat,
                      known: set<string>)
    returns (more: seq<Step>)
    requires Leads(b, before, after, id, scene) && known in scene.tables && Serves(known, scene.cell.life.payload)
    requires var c := scene.cell;
             && Faithful(c) && x in c.live && c.live[x].stage.Executing? && Gap(c, x) == 0
             && 2 <= c.life.maxRetries == b.maxRetries && c.row.Some? && c.row.value.attempts >= c.life.maxRetries
    ensures MiscountsLetter(b, scene.tables, before, more, id)
  {
    var c := scene.cell;
    RowHasError(c, x);
    LastMoves(c, x, known, scene.now);
    more := Settles(b, before, after, id, scene, x, known, Some("no"));
    var d := Settled(c, x, Failing(c, x, known), scene.now);
    var letter;
    more, letter := Transfers(b, before, more, id, scene.(cell := d), x);
    assert Buried(scene.dead[letter := LetterOf(id, d.live[x].stage.read, scene.now)], letter, id);
  }

  /**
    With a retry left in the old snapshot: its rival goes to the last attempt, the old one is then
    retried, and the task is claimed, failed and buried with one attempt too many.
   */
  lemma RetryMiscounts(b: Board, before: seq<Step>, after: seq<Step>, id: TaskId, scene: Scene, x: nat, y: nat,
                       known: set<string>)
    returns (more: seq<Step>)
    requires Leads(b, before, after, id, scene) && BothRun(scene.cell, x, y) && Gap(scene.cell, x) > 0
    requires known in scene.tables && Serves(known, scene.cell.life.payload)
    requires scene.cell.life.maxRetries == b.maxRetries
    ensures MiscountsLetter(b, scene.tables, before, more, id)
  {
    var c, u, d, z;
    Swap(scene.cell, x, y);
    more, c, u := OneLast(b, before, after, id, scene, y, x, known);
    RowHasError(c, u);
    Swap(c, u, x);
    more, d, z := RetryRival(b, before, more, id, scene.(cell := c), x, u, known);
    more := LastMiscounts(b, before, more, id, scene.(cell := d), z, known);
  }

  /** Or, where some process has no handler for it: one rival is rejected there, which spends an attempt more. */
  lemma RejectMiscounts(b: Board, before: seq<Step>, after: seq<Step>, id: TaskId, scene: Scene, x: nat, y: nat,
                        known: set<string>, other: set<string>)
    returns (more: seq<Step>)
    requires Leads(b, before, after, id, scene) && BothRun(scene.cell, x, y)
    requires Gap(scene.cell, x) == Gap(scene.cell, y) == 0 && scene.cell.life.maxRetries == b.maxRetries
    requires known in scene.tables && Serves(known, scene.cell.life.payload)
    requires other in scene.tables && !Serves(other, scene.cell.life.payload)
    ensures MiscountsLetter(b, scene.tables, before, more, id)
  {
    var c := scene.cell;
    var verdict := Decide(other, c.live[x].task, None);
    RowHasError(c, x);
    assert BornAs(c.live[x].task, c.life);
    more := Settles(b, before, after, id, scene, x, other, None);
    FaithfulSettle(c, x, verdict, scene.now);
    more := LastMiscounts(b, before, more, id, scene.(cell := Settled(c, x, verdict, scene.now)), y, known);
  }

  /** What makes a wrong letter possible: a retry left in the carried snapshot, or a process without a handler. */
  ghost predicate CanMiscount(c: Cell, n: nat, tables: iset<set<string>>)
    requires n in c.live
  {
    !c.live[n].stage.Moving? && (Gap(c, n) > 0 || exists other :: other in tables && !Serves(other, c.life.payload))
  }

  lemma RivalsMiscount(b: Board, before: seq<Step>, after: seq<Step>, id: TaskId, scene: Scene, x: nat, y: nat,
                       known: set<string>)
    returns (more: seq<Step>)
    requires Leads(b, before, after, id, scene) && Rivals(scene.cell, x, y) && CanMiscount(scene.cell, x, scene.tables)
    requires known in scene.tables && Serves(known, scene.cell.life.payload)
    requires scene.cell.life.maxRetries == b.maxRetries
    ensures MiscountsLetter(b, scene.tables, before, more, id)
  {
    var c;
    more, c := RivalProceeds(b, before, after, id, scene, x, y);
    if Gap(c, x) > 0 {
      more := RetryMiscounts(b, before, more, id, scene.(cell := c), x, y, known);
    } else {
      var other :| other in scene.tables && !Serves(other, scene.cell.life.payload);
      var d, u, v;
      more, d, u, v := BothLast(b, before, more, id, scene.(cell := c), x, y, known);
      more := RejectMiscounts(b, before, more, id, scene.(cell := d), u, v, known, other);
    }
  }

  // ---------------------------------------------------------------- what a steady task cannot do

  /** One letter at most, and none while the row is there. */
  ghost predicate Single(b: Board, id: TaskId) {
    && (forall d, e :: Buried(b.dead, d, id) && Buried(b.dead, e, id) ==> d == e)
    && (id in b.tasks ==> forall d :: !Buried(b.dead, d, id))
  }

  lemma LetterStep(b: Board, s: Step, id: TaskId, d: DeadId)
    requires Shaped(b) && Enabled(b, s) && Buried(Next(b, s).dead, d, id)
    ensures (Buried(b.dead, d, id) && Next(b, s).dead[d].attempts == b.dead[d].attempts)
            || (s.Transfer? && s.id == id && s.letter == d && id !in Next(b, s).tasks
                && Next(b, s).dead[d].attempts == b.live[id][s.n].stage.read.attempts)
  {
    if s.Transfer? {
    } else {
      StepEffect(b, s);
      assert b.dead[d].(retriedAt := None).original == Next(b, s).dead[d].(retriedAt := None).original;
      assert b.dead[d].(retriedAt := None).attempts == Next(b, s).dead[d].(retriedAt := None).attempts;
    }
  }

  lemma SteadyTransfer(b: Board, s: Step, id: TaskId, tables: iset<set<string>>)
    requires Steady(b, id, tables) && Enabled(b, s) && s.Transfer? && s.id == id
    ensures id in b.tasks
  {
    assert s.n in At(b, id).live;
  }

  lemma SteadySingle(b: Board, s: Step, id: TaskId, tables: iset<set<string>>)
    requires Steady(b, id, tables) && Single(b, id) && Enabled(b, s)
    ensures Single(Next(b, s), id)
  {
    var r := Next(b, s);
    StepEffect(b, s);
    if s.Transfer? && s.id == id {
      SteadyTransfer(b, s, id, tables);
    }
    forall d | Buried(r.dead, d, id)
      ensures Buried(b.dead, d, id) || (s.Transfer? && s.id == id && s.letter == d && id !in r.tasks)
    {
      LetterStep(b, s, id, d);
    }
  }

  ghost predicate SingleAfter(b: Board, steps: seq<Step>, id: TaskId, tables: iset<set<string>>) {
    Valid(b, steps) && Steady(Exec(b, steps), id, tables) && Single(Exec(b, steps), id)
  }

  lemma SingleOneMore(b: Board, steps: seq<Step>, s: Step, id: TaskId, tables: iset<set<string>>)
    requires SingleAfter(b, steps, id, tables) && Valid(b, steps + [s]) && Calm([s], tables)
    ensures SingleAfter(b, steps + [s], id, tables)
  {
    assert (steps + [s])[..|steps|] == steps && [s][0] == s;
    SteadyStep(Exec(b, steps), s, id, tables);
    SteadySingle(Exec(b, steps), s, id, tables);
  }

  lemma {:induction false} SingleRun(b: Board, before: seq<Step>, more: seq<Step>, id: TaskId,
                                     tables: iset<set<string>>)
    requires SingleAfter(b, before, id, tables) && Valid(b, before + more) && Calm(more, tables)
    ensures SingleAfter(b, before + more, id, tables)
    decreases |more|
  {
    if more == [] {
      assert before + more == before;
    } else {
      var n := |more| - 1;
      assert (before + more)[..|before + more| - 1] == before + more[..n];
      SingleRun(b, before, more[..n], id, tables);
      assert before + more[..n] + [more[n]] == before + more;
      SingleOneMore(b, before + more[..n], more[n], id, tables);
    }
  }

  lemma SingleNeverDoubles(b: Board, before: seq<Step>, more: seq<Step>, id: TaskId, tables: iset<set<string>>)
    requires SingleAfter(b, before, id, tables)
    ensures !DoublesLetter(b, tables, before, more, id)
  {
    if Valid(b, before + more) && Calm(more, tables) {
      SingleRun(b, before, more, id, tables);
    }
  }

  lemma ReachedSingle(b: Board, s: Step, id: TaskId, tables: iset<set<string>>)
    requires Reached(b, id, tables) && Enabled(b, s) && (s.UnlockStale? || s.Recover?)
    ensures Single(Next(b, s), id)
  {
    ReachedCell(b, id, tables);
    SingleHere(b, s, id);
  }

  lemma SingleHere(b: Board, s: Step, id: TaskId)
    requires Shaped(b) && Conserved(b) && OneLetterEach(b.dead) && Enabled(b, s) && (s.UnlockStale? || s.Recover?)
    ensures Single(Next(b, s), id)
  {
    if id in b.tasks {
      assert id !in Originals(b.dead);
    }
  }

  lemma EndangeredDoubles(b: Board, steps: seq<Step>, s: Step, id: TaskId, tables: iset<set<string>>)
    returns (more: seq<Step>)
    requires Valid(b, steps) && Reached(Exec(b, steps), id, tables) && Enabled(Exec(b, steps), s)
    requires Endangers(Exec(b, steps), s, id, tables)
    ensures DoublesLetter(b, tables, steps + [s], more, id)
  {
    var p := Exec(b, steps);
    var n :| n in p.live[id];
    var known :| known in tables && Serves(known, p.life[id].payload);
    ReachedCell(p, id, tables);
    ResetScene(b, steps, s, id, tables);
    var start := Scene(ResetCell(At(p, id)), p.dead, p.now, tables);
    var scene, y;
    more, scene, y := Contend(b, steps + [s], id, At(p, id), start, n);
    more := RivalsDoubleLetter(b, steps + [s], more, id, scene, n, y, known);
  }

  lemma OneLetterIffSafeHere(b: Board, steps: seq<Step>, s: Step, id: TaskId, tables: iset<set<string>>)
    requires Valid(b, steps) && Reached(Exec(b, steps), id, tables) && Enabled(Exec(b, steps), s)
    requires s.UnlockStale? || s.Recover?
    ensures (exists more :: DoublesLetter(b, tables, steps + [s], more, id)) <==>
            Endangers(Exec(b, steps), s, id, tables)
  {
    if Endangers(Exec(b, steps), s, id, tables) {
      var more := EndangeredDoubles(b, steps, s, id, tables);
    } else {
      Extend(b, steps, s);
      SteadyUnlessEndangered(Exec(b, steps), s, id, tables);
      ReachedSingle(Exec(b, steps), s, id, tables);
      forall more
        ensures !DoublesLetter(b, tables, steps + [s], more, id)
      {
        SingleNeverDoubles(b, steps + [s], more, id, tables);
      }
    }
  }

  /**
    A recovery step at the end of a safely recovered run, whatever handler tables the processes have:
    some continuation by the processes alone gives the task two dead letters if and only if the step
    resets it while it is carried and some table has a handler for it.
   */
  lemma OneLetterIffSafeFor(batch: nat, maxRetries: nat, now: Time, tables: iset<set<string>>, steps: seq<Step>,
                            s: Step, id: TaskId)
    requires SafeSoFar(batch, maxRetries, now, tables, steps)
    requires var r := Exec(Empty(batch, maxRetries, now), steps);
             Enabled(r, s) && (s.UnlockStale? || s.Recover?) && id in r.life
    ensures var b := Empty(batch, maxRetries, now);
            (exists more :: DoublesLetter(b, tables, steps + [s], more, id)) <==>
            Endangers(Exec(b, steps), s, id, tables)
  {
    RunReaches(batch, maxRetries, now, tables, steps, id);
    OneLetterIffSafeHere(Empty(batch, maxRetries, now), steps, s, id, tables);
  }

  /** With one handler table: reset while carried, and of a registered type. */
  lemma OneLetterIffSafe(batch: nat, maxRetries: nat, now: Time, known: set<string>, steps: seq<Step>, s: Step,
                         id: TaskId)
    requires SafeSoFar(batch, maxRetries, now, iset{known}, steps)
    requires var r := Exec(Empty(batch, maxRetries, now), steps);
             Enabled(r, s) && (s.UnlockStale? || s.Recover?) && id in r.life
    ensures var b := Empty(batch, maxRetries, now);
            (exists more :: DoublesLetter(b, iset{known}, steps + [s], more, id)) <==>
            ResetsCarried(Exec(b, steps), s, id, known)
  {
    var b := Empty(batch, maxRetries, now);
    OneLetterIffSafeFor(batch, maxRetries, now, iset{known}, steps, s, id);
    OneTable(known, Exec(b, steps).life[id].payload);
  }

  // ---------------------------------------------------------------- the attempts that a letter tells

  /**
    Weaker than single ownership: envelopes whose MoveToDLQ has read the row on its last attempt may
    be left behind, beside at most one that has not.
   */
  ghost predicate Spent(c: Cell) {
    && (forall m, n :: m in c.live && n in c.live && !c.live[m].stage.Moving? && !c.live[n].stage.Moving? ==> m == n)
    && (forall n :: n in c.live ==>
          if c.live[n].stage.Moving? then c.live[n].stage.read.attempts == Limit(c) - 1
          else c.row.Some? ==> c.row.value.status.Running? && c.live[n].task.attempts == c.row.value.attempts)
    && (c.row.Some? && (c.row.value.status.Pending? || c.row.value.status.Running?) ==>
          c.row.value.attempts + 1 <= Limit(c))
  }

  /** Every process can run the task, and all that carry it took it on its last attempt. */
  ghost predicate LastTry(c: Cell, tables: iset<set<string>>) {
    && (forall known :: known in tables ==> Serves(known, c.life.payload))
    && (c.row.Some? ==> c.row.value.attempts == Limit(c) - 1)
    && (forall n :: n in c.live ==>
          c.live[n].task.attempts == Limit(c) - 1
          && (c.live[n].stage.Moving? ==> c.live[n].stage.read.attempts == Limit(c) - 1))
  }

  ghost predicate SpentCell(c: Cell, tables: iset<set<string>>) {
    && Faithful(c) && ServedOnly(c, tables) && 2 <= c.life.maxRetries
    && (Spent(c) || LastTry(c, tables) || !Served(tables, c.life.payload))
  }

  lemma OwnedIsSpent(c: Cell)
    requires Faithful(c) && Owned(c)
    ensures Spent(c)
  {
    forall n | n in c.live && c.live[n].stage.Moving?
      ensures c.live[n].stage.read.attempts == Limit(c) - 1
    {
      BuriedAttempts(c, n);
    }
  }

  lemma SpentWrite(c: Cell, n: nat, verdict: Verdict, next: Time)
    requires Spent(c) && n in c.live && c.live[n].stage.Executing? && !verdict.Bury?
    requires verdict.Retry? ==> c.live[n].task.attempts + 1 < Limit(c)
    ensures Spent(Settled(c, n, verdict, next))
  {
    forall m | m in Settled(c, n, verdict, next).live
      ensures c.live[m].stage.Moving?
    {
    }
  }

  lemma SpentBury(c: Cell, n: nat, next: Time)
    requires Spent(c) && n in c.live && c.live[n].stage.Executing? && c.live[n].task.attempts + 1 >= Limit(c)
    ensures Spent(Settled(c, n, Bury, next))
  {
  }

  lemma SpentSettle(c: Cell, n: nat, known: set<string>, failure: Option<string>, next: Time)
    requires Faithful(c) && Spent(c) && n in c.live && c.live[n].stage.Executing? && 1 <= c.life.maxRetries
    ensures Spent(Settled(c, n, Decide(known, c.live[n].task, failure), next))
  {
    assert BornAs(c.live[n].task, c.life);
    var verdict := Decide(known, c.live[n].task, failure);
    if verdict.Bury? {
      SpentBury(c, n, next);
    } else {
      SpentWrite(c, n, verdict, next);
    }
  }

  lemma SpentClaim(c: Cell, mv: Move, now: Time)
    requires Faithful(c) && Spent(c) && Allowed(c, mv, now) && mv.Claim?
    ensures Spent(Apply(c, mv))
  {
  }

  lemma SpentOther(c: Cell, mv: Move, now: Time)
    requires Spent(c) && Allowed(c, mv, now) && !mv.Override? && !mv.Release? && !mv.Settle? && !mv.Claim?
    ensures Spent(Apply(c, mv))
  {
  }

  lemma LastTryMove(c: Cell, mv: Move, tables: iset<set<string>>)
    requires Faithful(c) && LastTry(c, tables) && 2 <= c.life.maxRetries
    requires Possible(c, mv) && !mv.Override? && (mv.Settle? ==> mv.known in tables)
    ensures LastTry(Apply(c, mv), tables)
  {
    BirthStep(c, mv);
    if mv.Settle? {
      assert BornAs(c.live[mv.n].task, c.life);
    }
  }

  lemma SpentMove(c: Cell, mv: Move, now: Time, tables: iset<set<string>>)
    requires SpentCell(c, tables) && Allowed(c, mv, now) && !mv.Override? && !mv.Release?
    requires mv.Settle? ==> mv.known in tables
    ensures SpentCell(Apply(c, mv), tables)
  {
    BirthStep(c, mv);
    FaithfulStep(c, mv, now);
    ServedMove(c, mv, tables);
    if LastTry(c, tables) {
      LastTryMove(c, mv, tables);
    } else if Spent(c) {
      if mv.Settle? {
        SpentSettle(c, mv.n, mv.known, mv.failure, mv.next);
      } else if mv.Claim? {
        SpentClaim(c, mv, now);
      } else {
        SpentOther(c, mv, now);
      }
    }
  }

  ghost predicate Counts(b: Board, id: TaskId, tables: iset<set<string>>) {
    && Shaped(b) && id in b.life && SpentCell(At(b, id), tables) && b.life[id].maxRetries == b.maxRetries
    && (forall d :: Buried(b.dead, d, id) ==> b.dead[d].attempts == LastAttempt(b.maxRetries))
  }

  lemma TransferTellsLast(c: Cell, n: nat, tables: iset<set<string>>)
    requires SpentCell(c, tables) && n in c.live && c.live[n].stage.Moving?
    ensures c.live[n].stage.read.attempts == Limit(c) - 1
  {
  }

  lemma CountsStep(b: Board, s: Step, id: TaskId, tables: iset<set<string>>)
    requires Counts(b, id, tables) && Enabled(b, s) && Calm([s], tables)
    ensures Counts(Next(b, s), id, tables)
  {
    assert [s][0] == s;
    Projection(b, s, id);
    SpentMove(At(b, id), MoveOf(b, s, id), b.now, tables);
    ConstantsKept(b, s);
    KeepsBirth(b, s, id);
    forall d | Buried(Next(b, s).dead, d, id)
      ensures Next(b, s).dead[d].attempts == LastAttempt(b.maxRetries)
    {
      LetterStep(b, s, id, d);
      if s.Transfer? && s.id == id {
        TransferTellsLast(At(b, id), s.n, tables);
      }
    }
  }

  ghost predicate CountsAfter(b: Board, steps: seq<Step>, id: TaskId, tables: iset<set<string>>) {
    Valid(b, steps) && Counts(Exec(b, steps), id, tables)
  }

  lemma CountsOneMore(b: Board, steps: seq<Step>, s: Step, id: TaskId, tables: iset<set<string>>)
    requires CountsAfter(b, steps, id, tables) && Valid(b, steps + [s]) && Calm([s], tables)
    ensures CountsAfter(b, steps + [s], id, tables)
  {
    assert (steps + [s])[..|steps|] == steps;
    CountsStep(Exec(b, steps), s, id, tables);
  }

  lemma {:induction false} CountsRun(b: Board, before: seq<Step>, more: seq<Step>, id: TaskId,
                                     tables: iset<set<string>>)
    requires CountsAfter(b, before, id, tables) && Valid(b, before + more) && Calm(more, tables)
    ensures CountsAfter(b, before + more, id, tables)
    decreases |more|
  {
    if more == [] {
      assert before + more == before;
    } else {
      var n := |more| - 1;
      assert (before + more)[..|before + more| - 1] == before + more[..n];
      CountsRun(b, before, more[..n], id, tables);
      assert before + more[..n] + [more[n]] == before + more;
      CountsOneMore(b, before + more[..n], more[n], id, tables);
    }
  }

  lemma CountsNeverMiscounts(b: Board, before: seq<Step>, more: seq<Step>, id: TaskId, tables: iset<set<string>>)
    requires CountsAfter(b, before, id, tables)
    ensures !MiscountsLetter(b, tables, before, more, id)
  {
    if Valid(b, before + more) && Calm(more, tables) {
      CountsRun(b, before, more, id, tables);
      ConstantsStay(b, before + more);
    }
  }

  /** The step resets a carried task, and the envelope that carries it makes a wrong letter possible. */
  ghost predicate EndangersCount(b: Board, s: Step, id: TaskId, tables: iset<set<string>>)
    requires Shaped(b)
  {
    Endangers(b, s, id, tables) && id in b.life && exists n :: n in b.live[id] && CanMiscount(At(b, id), n, tables)
  }

  lemma ReleaseKeepsSpent(c: Cell)
    requires Spent(c) && Possible(c, Move.Release) && forall n :: n in c.live ==> c.live[n].stage.Moving?
    ensures Spent(Apply(c, Move.Release))
  {
  }

  lemma ReleaseIsLastTry(c: Cell, n: nat, tables: iset<set<string>>)
    requires Faithful(c) && Owned(c) && n in c.live && 2 <= c.life.maxRetries && Possible(c, Move.Release)
    requires !c.live[n].stage.Moving? && !CanMiscount(c, n, tables)
    ensures LastTry(Apply(c, Move.Release), tables)
  {
  }

  lemma ReleaseUnlessEndangered(c: Cell, tables: iset<set<string>>)
    requires Faithful(c) && Owned(c) && 2 <= c.life.maxRetries && Possible(c, Move.Release)
    requires forall n :: n in c.live ==> !CanMiscount(c, n, tables)
    ensures Spent(Apply(c, Move.Release)) || LastTry(Apply(c, Move.Release), tables)
  {
    OwnedIsSpent(c);
    if n :| n in c.live && !c.live[n].stage.Moving? {
      ReleaseIsLastTry(c, n, tables);
    } else {
      ReleaseKeepsSpent(c);
    }
  }

  lemma CountsUnlessEndangered(b: Board, s: Step, id: TaskId, tables: iset<set<string>>)
    requires Shaped(b) && Enabled(b, s) && (s.UnlockStale? || s.Recover?) && id in b.life
    requires !EndangersCount(b, s, id, tables)
    requires Faithful(At(b, id)) && ServedOnly(At(b, id), tables) && Owned(At(b, id))
    requires b.life[id].maxRetries == b.maxRetries && 2 <= b.maxRetries && LettersSpent(b)
    ensures Counts(Next(b, s), id, tables)
  {
    var c, mv := At(b, id), MoveOf(b, s, id);
    Projection(b, s, id);
    OwnedIsSpent(c);
    FaithfulStep(c, mv, b.now);
    ServedMove(c, mv, tables);
    BirthStep(c, mv);
    if mv.Release? && Served(tables, c.life.payload) {
      assert c.live == b.live[id];
      ReleaseUnlessEndangered(c, tables);
    }
  }

  lemma ContendedMiscounts(b: Board, before: seq<Step>, id: TaskId, c: Cell, start: Scene, n: nat, known: set<string>)
    returns (more: seq<Step>)
    requires Faithful(c) && Owned(c) && 2 <= c.life.maxRetries == b.maxRetries
    requires n in c.live && c.row.Some? && Eligible(Released(c.row.value), start.now)
    requires Leads(b, before, [], id, start) && start.cell == ResetCell(c) && CanMiscount(c, n, start.tables)
    requires known in start.tables && Serves(known, c.life.payload)
    ensures MiscountsLetter(b, start.tables, before, more, id)
  {
    var scene, y;
    more, scene, y := Contend(b, before, id, c, start, n);
    more := RivalsMiscount(b, before, more, id, scene, n, y, known);
  }

  lemma EndangeredMiscounts(b: Board, steps: seq<Step>, s: Step, id: TaskId, tables: iset<set<string>>)
    returns (more: seq<Step>)
    requires Valid(b, steps) && Reached(Exec(b, steps), id, tables) && Enabled(Exec(b, steps), s)
    requires EndangersCount(Exec(b, steps), s, id, tables)
    ensures MiscountsLetter(b, tables, steps + [s], more, id)
  {
    var p := Exec(b, steps);
    var n :| n in p.live[id] && CanMiscount(At(p, id), n, tables);
    var known :| known in tables && Serves(known, p.life[id].payload);
    ReachedCell(p, id, tables);
    ConstantsStay(b, steps);
    ResetScene(b, steps, s, id, tables);
    var start := Scene(ResetCell(At(p, id)), p.dead, p.now, tables);
    more := ContendedMiscounts(b, steps + [s], id, At(p, id), start, n, known);
  }

  lemma AttemptsIffSafeHere(b: Board, steps: seq<Step>, s: Step, id: TaskId, tables: iset<set<string>>)
    requires Valid(b, steps) && Reached(Exec(b, steps), id, tables) && Enabled(Exec(b, steps), s)
    requires s.UnlockStale? || s.Recover?
    ensures (exists more :: MiscountsLetter(b, tables, steps + [s], more, id)) <==>
            EndangersCount(Exec(b, steps), s, id, tables)
  {
    if EndangersCount(Exec(b, steps), s, id, tables) {
      var more := EndangeredMiscounts(b, steps, s, id, tables);
    } else {
      Extend(b, steps, s);
      ReachedCell(Exec(b, steps), id, tables);
      CountsUnlessEndangered(Exec(b, steps), s, id, tables);
      forall more
        ensures !MiscountsLetter(b, tables, steps + [s], more, id)
      {
        CountsNeverMiscounts(b, steps + [s], more, id, tables);
      }
    }
  }

  /**
    Likewise some continuation gives the task a dead letter with another attempt count than
    maxRetries - 1 if and only if the step resets it, while an envelope carries it that MoveToDLQ has
    not yet taken over, some table has a handler for it, and either that envelope's snapshot allows a
    retry or another table has no handler, as in the middle of a rolling deployment.
   */
  lemma AttemptsIffSafeFor(batch: nat, maxRetries: nat, now: Time, tables: iset<set<string>>, steps: seq<Step>,
                           s: Step, id: TaskId)
    requires SafeSoFar(batch, maxRetries, now, tables, steps)
    requires var r := Exec(Empty(batch, maxRetries, now), steps);
             Enabled(r, s) && (s.UnlockStale? || s.Recover?) && id in r.life
    ensures var b := Empty(batch, maxRetries, now);
            (exists more :: MiscountsLetter(b, tables, steps + [s], more, id)) <==>
            EndangersCount(Exec(b, steps), s, id, tables)
  {
    RunReaches(batch, maxRetries, now, tables, steps, id);
    AttemptsIffSafeHere(Empty(batch, maxRetries, now), steps, s, id, tables);
  }

  /** The task is in some process that will still decide on it, by a snapshot that allows a retry. */
  ghost predicate RetryLeft(b: Board, id: TaskId) {
    && id in b.live
    && exists n :: n in b.live[id] && !b.live[id][n].stage.Moving? && b.live[id][n].task.attempts + 1 < b.maxRetries
  }

  lemma OneTableCounts(b: Board, s: Step, id: TaskId, known: set<string>)
    requires Shaped(b) && id in b.life && b.life[id].maxRetries == b.maxRetries
    ensures EndangersCount(b, s, id, iset{known}) <==> ResetsCarried(b, s, id, known) && RetryLeft(b, id)
  {
    OneTable(known, b.life[id].payload);
    if Serves(known, b.life[id].payload) {
      forall n | n in b.live[id]
        ensures CanMiscount(At(b, id), n, iset{known}) <==>
                !b.live[id][n].stage.Moving? && b.live[id][n].task.attempts + 1 < b.maxRetries
      {
      }
    }
  }

  /** With one handler table: reset while carried, of a registered type, and not on its last attempt. */
  lemma AttemptsIffSafe(batch: nat, maxRetries: nat, now: Time, known: set<string>, steps: seq<Step>, s: Step,
                        id: TaskId)
    requires SafeSoFar(batch, maxRetries, now, iset{known}, steps)
    requires var r := Exec(Empty(batch, maxRetries, now), steps);
             Enabled(r, s) && (s.UnlockStale? || s.Recover?) && id in r.life
    ensures var b := Empty(batch, maxRetries, now);
            (exists more :: MiscountsLetter(b, iset{known}, steps + [s], more, id)) <==>
            ResetsCarried(Exec(b, steps), s, id, known) && RetryLeft(Exec(b, steps), id)
  {
    var b := Empty(batch, maxRetries, now);
    AttemptsIffSafeFor(batch, maxRetries, now, iset{known}, steps, s, id);
    RunReaches(batch, maxRetries, now, iset{known}, steps, id);
    ReachedCell(Exec(b, steps), id, iset{known});
    OneTableCounts(Exec(b, steps), s, id, known);
  }
}
