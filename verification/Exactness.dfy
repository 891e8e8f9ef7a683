/**
  Exactly when the guarantees of safely recovered runs hold. The code does not meet them in every
  run: its writes match on id alone. Here they are shown to hold if and only if recovery spares the
  tasks that processes still carry.
 */
module Exactness {
  import opened Wrappers
  import opened TaskTable
  import opened Decision
  import opened TaskLife
  import opened Board
  import opened Invariants
  import opened Guarantees
  import opened Verdicts
  import opened Scripts

  // ---------------------------------------------------------------- ownership

  /** Every carried task is carried once, and its row is running and locked by the process that carries it. */
  ghost predicate Held(b: Board) {
    && Shaped(b)
    && (forall id, m, n :: Carried(b, id, m) && Carried(b, id, n) ==> m == n)
    && (forall id, n :: Carried(b, id, n) ==>
          id in b.tasks && b.tasks[id].status.Running? && b.tasks[id].lockedBy == Some(b.live[id][n].worker))
  }

  ghost predicate HeldThroughout(b: Board, steps: seq<Step>)
    requires Valid(b, steps)
    decreases |steps|
  {
    Held(Exec(b, steps)) && (steps != [] ==> HeldThroughout(b, steps[..|steps| - 1]))
  }

  lemma OwnedIsHeld(b: Board)
    requires AllOwned(b)
    ensures Held(b)
  {
    forall id, m | Carried(b, id, m)
      ensures Owned(At(b, id)) && m in At(b, id).live
    {
    }
  }

  /** The task's cell right after it was reset, seen from the cell before. */
  function ResetCell(c: Cell): Cell
    requires c.row.Some?
  {
    c.(row := Some(Released(c.row.value)), life := c.life.(resets := c.life.resets + 1))
  }

  lemma ResetProjects(b: Board, s: Step, id: TaskId)
    requires Shaped(b) && Enabled(b, s) && id in ResetBy(b, s)
    ensures id in b.tasks && id in b.life && b.tasks[id].status.Running?
    ensures Shaped(Next(b, s)) && id in Next(b, s).life
    ensures forall tables :: SceneOf(Next(b, s), id, tables) == Scene(ResetCell(At(b, id)), b.dead, b.now, tables)
  {
    Projection(b, s, id);
  }

  lemma UnsafeResetLosesHold(b: Board, s: Step)
    requires Shaped(b) && Enabled(b, s) && !s.Override? && !SafeStep(b, s)
    ensures !Held(Next(b, s))
  {
    var id :| id in ResetBy(b, s) && b.live[id] != map[];
    ResetProjects(b, s, id);
    var n :| n in b.live[id];
    assert At(Next(b, s), id).live == b.live[id];
    assert Carried(Next(b, s), id, n);
  }

  /** Single ownership holds throughout a run if and only if every recovery of the run spares carried tasks. */
  lemma {:induction false} OwnershipIffSafe(batch: nat, maxRetries: nat, now: Time, steps: seq<Step>)
    requires Valid(Empty(batch, maxRetries, now), steps) && NoOverride(steps)
    ensures HeldThroughout(Empty(batch, maxRetries, now), steps) <==>
              SafelyRecovered(Empty(batch, maxRetries, now), steps)
    decreases |steps|
  {
    var b := Empty(batch, maxRetries, now);
    if steps != [] {
      var n := |steps| - 1;
      OwnershipIffSafe(batch, maxRetries, now, steps[..n]);
      if SafelyRecovered(b, steps) {
        SafeRunHolds(batch, maxRetries, now, steps);
      } else if SafelyRecovered(b, steps[..n]) {
        UnsafeResetLosesHold(Exec(b, steps[..n]), steps[n]);
      }
    }
  }

  lemma SafeRunHolds(batch: nat, maxRetries: nat, now: Time, steps: seq<Step>)
    requires Valid(Empty(batch, maxRetries, now), steps)
    requires SafelyRecovered(Empty(batch, maxRetries, now), steps)
    ensures Held(Exec(Empty(batch, maxRetries, now), steps))
  {
    EmptyIsSafe(batch, maxRetries, now);
    AlwaysSafe(Empty(batch, maxRetries, now), steps);
    OwnedIsHeld(Exec(Empty(batch, maxRetries, now), steps));
  }

  // ---------------------------------------------------------------- one unsafe reset

  predicate Serves(known: set<string>, payload: Payload) {
    Runnable(payload) && payload.kind in known
  }

  ghost predicate Served(tables: iset<set<string>>, payload: Payload) {
    exists known :: known in tables && Serves(known, payload)
  }

  /** The step resets a task that a process still carries and that a handler of some process can run. */
  ghost predicate Endangers(b: Board, s: Step, id: TaskId, tables: iset<set<string>>)
    requires Shaped(b)
  {
    id in ResetBy(b, s) && id in b.live && b.live[id] != map[] && Served(tables, b.life[id].payload)
  }

  /** Only a task that some handler can run is ever completed or taken over by MoveToDLQ. */
  ghost predicate ServedOnly(c: Cell, tables: iset<set<string>>) {
    && (c.row.Some? && c.row.value.status.Completed? ==> Served(tables, c.life.payload))
    && (forall n :: n in c.live && c.live[n].stage.Moving? ==> Served(tables, c.life.payload))
  }

  lemma ServedMove(c: Cell, mv: Move, tables: iset<set<string>>)
    requires Faithful(c) && ServedOnly(c, tables)
    requires Possible(c, mv) && !mv.Override? && (mv.Settle? ==> mv.known in tables)
    ensures ServedOnly(Apply(c, mv), tables)
  {
    BirthStep(c, mv);
    if mv.Settle? && !Served(tables, c.life.payload) {
      UnservedRejected(c, mv.n, mv.known, mv.failure, tables);
    }
  }

  lemma UnservedRejected(c: Cell, n: nat, known: set<string>, failure: Option<string>, tables: iset<set<string>>)
    requires Faithful(c) && n in c.live && known in tables && !Served(tables, c.life.payload)
    ensures Decide(known, c.live[n].task, failure).Reject?
  {
    assert BornAs(c.live[n].task, c.life) && !Serves(known, c.life.payload);
  }

  lemma {:induction false} AlwaysServedOnly(batch: nat, maxRetries: nat, now: Time, tables: iset<set<string>>,
                                            steps: seq<Step>, id: TaskId)
    requires Valid(Empty(batch, maxRetries, now), steps) && NoOverride(steps) && Uses(steps, tables)
    ensures var r := Exec(Empty(batch, maxRetries, now), steps); id in r.life ==> ServedOnly(At(r, id), tables)
    decreases |steps|
  {
    if steps != [] {
      var n := |steps| - 1;
      AlwaysServedOnly(batch, maxRetries, now, tables, steps[..n], id);
      AlwaysFaithful(batch, maxRetries, now, steps[..n]);
      ServedStep(Exec(Empty(batch, maxRetries, now), steps[..n]), steps[n], id, tables);
    }
  }

  lemma ServedStep(b: Board, s: Step, id: TaskId, tables: iset<set<string>>)
    requires AllFaithful(b) && Enabled(b, s) && !s.Override? && (s.Settle? ==> s.known in tables)
    requires id in b.life ==> ServedOnly(At(b, id), tables)
    ensures Shaped(Next(b, s))
    ensures id in Next(b, s).life ==> ServedOnly(At(Next(b, s), id), tables)
  {
    StaysShaped(b, s);
    if id in b.life {
      Projection(b, s, id);
      ServedMove(At(b, id), MoveOf(b, s, id), tables);
    } else if id in Next(b, s).life {
      Birth(b, s, id);
    }
  }

  /** What is known of a board that a safely recovered run has reached. */
  ghost predicate Reached(b: Board, id: TaskId, tables: iset<set<string>>) {
    Safe(b) && id in b.life && ServedOnly(At(b, id), tables) && 2 <= b.maxRetries
  }

  /** The runs that the results below are about: safely recovered, without override, with these handler tables. */
  ghost predicate SafeSoFar(batch: nat, maxRetries: nat, now: Time, tables: iset<set<string>>, steps: seq<Step>) {
    && 2 <= maxRetries
    && Valid(Empty(batch, maxRetries, now), steps) && NoOverride(steps) && Uses(steps, tables)
    && SafelyRecovered(Empty(batch, maxRetries, now), steps)
  }

  lemma RunReaches(batch: nat, maxRetries: nat, now: Time, tables: iset<set<string>>, steps: seq<Step>, id: TaskId)
    requires SafeSoFar(batch, maxRetries, now, tables, steps)
    requires id in Exec(Empty(batch, maxRetries, now), steps).life
    ensures Reached(Exec(Empty(batch, maxRetries, now), steps), id, tables)
  {
    EmptyIsSafe(batch, maxRetries, now);
    AlwaysSafe(Empty(batch, maxRetries, now), steps);
    AlwaysServedOnly(batch, maxRetries, now, tables, steps, id);
    ConstantsStay(Empty(batch, maxRetries, now), steps);
  }

  /** The two envelopes that an unsafe reset and a new claim put side by side. */
  ghost predicate Rivals(c: Cell, x: nat, y: nat) {
    && x in c.live && y in c.live && x != y
    && c.row.Some? && c.row.value.status.Running?
    && Faithful(c) && 2 <= c.life.maxRetries
    && c.live[y].stage.Executing?
    && (c.live[x].stage.Moving? ==> c.live[x].stage.read.attempts == c.life.maxRetries - 1
                                    && c.live[y].task.attempts == c.life.maxRetries - 1
                                    && c.row.value.attempts == c.life.maxRetries - 1)
  }

  lemma ResetIsEligible(b: Board, s: Step, id: TaskId)
    requires Shaped(b) && AllLocksKept(b) && Enabled(b, s) && id in ResetBy(b, s)
    ensures id in b.tasks && Eligible(Released(b.tasks[id]), b.now)
  {
    ResetProjects(b, s, id);
    ReleasedIsClaimable(b.tasks[id], b.now, b.now);
  }

  lemma RivalsAfterReset(c: Cell, n: nat, w: WorkerId, now: Time)
    requires Faithful(c) && Owned(c) && 2 <= c.life.maxRetries
    requires n in c.live && c.row.Some? && Eligible(Released(c.row.value), now)
    ensures Rivals(Begun(ResetCell(c), w, now), n, c.life.claims)
  {
    if c.live[n].stage.Moving? {
      BuriedAttempts(c, n);
    }
  }

  lemma ReachedCell(b: Board, id: TaskId, tables: iset<set<string>>)
    requires Reached(b, id, tables)
    ensures Faithful(At(b, id)) && Owned(At(b, id)) && ServedOnly(At(b, id), tables)
    ensures b.life[id].maxRetries == b.maxRetries && AllLocksKept(b) && Sound(b) && OneLetterEach(b.dead)
            && LettersSpent(b)
  {
  }

  lemma ResetScene(b: Board, steps: seq<Step>, s: Step, id: TaskId, tables: iset<set<string>>)
    requires Valid(b, steps) && AllLocksKept(Exec(b, steps)) && Enabled(Exec(b, steps), s)
    requires id in ResetBy(Exec(b, steps), s)
    ensures var p := Exec(b, steps);
            && id in p.tasks && id in p.life && Eligible(Released(p.tasks[id]), p.now)
            && Leads(b, steps + [s], [], id, Scene(ResetCell(At(p, id)), p.dead, p.now, tables))
  {
    ResetProjects(Exec(b, steps), s, id);
    ResetIsEligible(Exec(b, steps), s, id);
    Extend(b, steps, s);
    Starts(b, steps + [s], id, tables);
  }

  /** After an unsafe reset a second process claims the task, and the two are rivals. */
  lemma Contend(b: Board, before: seq<Step>, id: TaskId, c: Cell, start: Scene, n: nat)
    returns (more: seq<Step>, scene: Scene, y: nat)
    requires Faithful(c) && Owned(c) && 2 <= c.life.maxRetries
    requires n in c.live && c.row.Some? && Eligible(Released(c.row.value), start.now)
    requires Leads(b, before, [], id, start) && start.cell == ResetCell(c)
    ensures Leads(b, before, more, id, scene) && Rivals(scene.cell, n, y)
    ensures scene == start.(cell := scene.cell) && scene.cell.live[n] == c.live[n]
    ensures scene.cell.life.maxRetries == c.life.maxRetries && scene.cell.life.payload == c.life.payload
  {
    more := Begins(b, before, [], id, start, 0);
    scene := start.(cell := Begun(ResetCell(c), 0, start.now));
    y := c.life.claims;
    RivalsAfterReset(c, n, 0, start.now);
  }

  // ---------------------------------------------------------------- failing handlers

  /** Retries that the snapshot of an envelope still allows. */
  function Gap(c: Cell, n: nat): nat
    requires n in c.live
  {
    if c.live[n].task.attempts + 1 < c.life.maxRetries then c.life.maxRetries - 1 - c.live[n].task.attempts else 0
  }

  /** The verdict on a failing handler. */
  function Failing(c: Cell, n: nat, known: set<string>): Verdict
    requires n in c.live
  {
    Decide(known, c.live[n].task, Some("no"))
  }

  lemma LastMoves(c: Cell, n: nat, known: set<string>, now: Time)
    requires Faithful(c) && n in c.live && Gap(c, n) == 0 && Serves(known, c.life.payload) && c.row.Some?
    ensures Settled(c, n, Failing(c, n, known), now) ==
            c.(live := c.live[n := c.live[n].(stage := Moving(c.row.value))])
  {
    assert BornAs(c.live[n].task, c.life);
  }

  lemma RowHasError(c: Cell, n: nat)
    requires Faithful(c) && n in c.live && Gap(c, n) == 0 && 2 <= c.life.maxRetries && c.row.Some?
    ensures c.row.value.lastError.Some? && c.row.value.attempts >= c.life.maxRetries - 1
  {
  }

  // ---------------------------------------------------------------- terminal states

  /** The task's phase after a run. */
  ghost function PhaseAfter(b: Board, steps: seq<Step>, id: TaskId): Phase {
    if Valid(b, steps) then PhaseIn(Exec(b, steps), id) else Unborn
  }

  /** After `before`, some calm continuation ends the task and then changes how it ended. */
  ghost predicate LeavesTerminal(b: Board, tables: iset<set<string>>, before: seq<Step>, more: seq<Step>, id: TaskId) {
    && Valid(b, before + more) && Calm(more, tables)
    && exists k :: 0 <= k <= |more| && Terminal(PhaseAfter(b, before + more[..k], id))
                   && PhaseAfter(b, before + more, id) != PhaseAfter(b, before + more[..k], id)
  }

  lemma EndsTwice(b: Board, before: seq<Step>, first: seq<Step>, s: Step, id: TaskId, one: Scene, two: Scene)
    requires Leads(b, before, first, id, one) && Leads(b, before, first + [s], id, two)
    requires Terminal(PhaseOf(one.cell)) && PhaseOf(two.cell) != PhaseOf(one.cell)
    ensures LeavesTerminal(b, two.tables, before, first + [s], id)
  {
    var more := first + [s];
    assert more[..|first|] == first;
  }

  /** The task completed by one rival, and still in the hands of the other. */
  ghost predicate DoneButCarried(c: Cell, x: nat) {
    && Faithful(c) && 2 <= c.life.maxRetries && x in c.live && !c.live[x].stage.Unsent? && !c.live[x].stage.Queued?
    && c.row.Some? && c.row.value.status.Completed?
    && (c.live[x].stage.Moving? ==> c.live[x].stage.read.lastError.Some?)
  }

  lemma RivalCompletes(c: Cell, x: nat, y: nat, known: set<string>, now: Time)
    requires Rivals(c, x, y) && Serves(known, c.life.payload)
    requires c.live[x].stage.Executing? || c.live[x].stage.Moving?
    ensures var done := Settled(c, y, Decide(known, c.live[y].task, None), now);
            DoneButCarried(done, x) && done.life.payload == c.life.payload
  {
    assert BornAs(c.live[y].task, c.life);
    FaithfulSettle(c, y, Complete, now);
  }

  /** The other rival then takes the row away: MoveToDLQ has read it already. */
  lemma MoverTakesAway(b: Board, before: seq<Step>, after: seq<Step>, id: TaskId, scene: Scene, x: nat)
    returns (more: seq<Step>)
    requires Leads(b, before, after, id, scene) && DoneButCarried(scene.cell, x) && scene.cell.live[x].stage.Moving?
    ensures LeavesTerminal(b, scene.tables, before, more, id)
  {
    var letter;
    more, letter := Transfers(b, before, after, id, scene, x);
    var dead := scene.dead[letter := LetterOf(id, scene.cell.live[x].stage.read, scene.now)];
    EndsTwice(b, before, after, Step.Transfer(id, x, letter, scene.now), id, scene,
              scene.(cell := Transferred(scene.cell, x), dead := dead));
  }

  /** Or it fails: the row goes back to pending while its snapshot allows a retry, else it is buried. */
  lemma RunnerTakesBack(b: Board, before: seq<Step>, after: seq<Step>, id: TaskId, scene: Scene, x: nat,
                        known: set<string>)
    returns (more: seq<Step>)
    requires Leads(b, before, after, id, scene) && DoneButCarried(scene.cell, x) && scene.cell.live[x].stage.Executing?
    requires known in scene.tables && Serves(known, scene.cell.life.payload)
    ensures LeavesTerminal(b, scene.tables, before, more, id)
  {
    var c := scene.cell;
    var d := Settled(c, x, Failing(c, x, known), scene.now);
    assert BornAs(c.live[x].task, c.life);
    more := Settles(b, before, after, id, scene, x, known, Some("no"));
    if Gap(c, x) > 0 {
      EndsTwice(b, before, after, Step.Settle(id, x, known, Some("no"), scene.now), id, scene, scene.(cell := d));
    } else {
      RowHasError(c, x);
      LastMoves(c, x, known, scene.now);
      FaithfulSettle(c, x, Bury, scene.now);
      more := MoverTakesAway(b, before, more, id, scene.(cell := d), x);
    }
  }

  /** A rival that is not yet executing gets there. */
  lemma RivalProceeds(b: Board, before: seq<Step>, after: seq<Step>, id: TaskId, scene: Scene, x: nat, y: nat)
    returns (more: seq<Step>, c: Cell)
    requires Leads(b, before, after, id, scene) && Rivals(scene.cell, x, y) && !scene.cell.live[x].stage.Moving?
    ensures Leads(b, before, more, id, scene.(cell := c)) && Rivals(c, x, y) && c.live[x].stage.Executing?
    ensures c.life == scene.cell.life && c.live[x].task == scene.cell.live[x].task
  {
    c := InHandler(scene.cell, x);
    more := Proceeds(b, before, after, id, scene, x);
  }

  lemma RivalsLeaveTerminal(b: Board, before: seq<Step>, after: seq<Step>, id: TaskId, scene: Scene, x: nat, y: nat,
                            known: set<string>)
    returns (more: seq<Step>)
    requires Leads(b, before, after, id, scene) && Rivals(scene.cell, x, y)
    requires known in scene.tables && Serves(known, scene.cell.life.payload)
    ensures LeavesTerminal(b, scene.tables, before, more, id)
  {
    var c := scene.cell;
    more := after;
    if !c.live[x].stage.Moving? {
      more, c := RivalProceeds(b, before, after, id, scene, x, y);
    }
    assert scene.(cell := scene.cell) == scene;
    var done := Settled(c, y, Decide(known, c.live[y].task, None), scene.now);
    RivalCompletes(c, x, y, known, scene.now);
    more := Settles(b, before, more, id, scene.(cell := c), y, known, None);
    if c.live[x].stage.Moving? {
      more := MoverTakesAway(b, before, more, id, scene.(cell := done), x);
    } else {
      more := RunnerTakesBack(b, before, more, id, scene.(cell := done), x, known);
    }
  }

  /** A task that is singly owned, or that no handler can run. */
  ghost predicate SteadyCell(c: Cell, tables: iset<set<string>>) {
    Faithful(c) && ServedOnly(c, tables) && (Owned(c) || !Served(tables, c.life.payload))
  }

  lemma UnservedMove(c: Cell, mv: Move, tables: iset<set<string>>)
    requires Faithful(c) && ServedOnly(c, tables) && !Served(tables, c.life.payload)
    requires Possible(c, mv) && !mv.Override? && !mv.Release? && (mv.Settle? ==> mv.known in tables)
    ensures Terminal(PhaseOf(c)) ==> PhaseOf(Apply(c, mv)) == PhaseOf(c)
  {
    if mv.Settle? {
      UnservedRejected(c, mv.n, mv.known, mv.failure, tables);
    }
  }

  lemma SteadyMove(c: Cell, mv: Move, now: Time, tables: iset<set<string>>)
    requires SteadyCell(c, tables) && Allowed(c, mv, now) && !mv.Override? && (mv.Settle? ==> mv.known in tables)
    requires mv.Release? ==> Owned(c) ==> c.live.Keys == {}
    ensures SteadyCell(Apply(c, mv), tables)
    ensures !mv.Release? && Terminal(PhaseOf(c)) ==> PhaseOf(Apply(c, mv)) == PhaseOf(c)
  {
    BirthStep(c, mv);
    FaithfulStep(c, mv, now);
    ServedMove(c, mv, tables);
    if Owned(c) {
      OwnedStep(c, mv, now);
      OnlyEdges(c, mv, now);
    } else if !mv.Release? {
      UnservedMove(c, mv, tables);
    }
  }

  ghost predicate Steady(b: Board, id: TaskId, tables: iset<set<string>>) {
    Shaped(b) && id in b.life && SteadyCell(At(b, id), tables)
  }

  lemma SteadyStep(b: Board, s: Step, id: TaskId, tables: iset<set<string>>)
    requires Steady(b, id, tables) && Enabled(b, s) && !s.Override? && (s.Settle? ==> s.known in tables)
    requires id in ResetBy(b, s) ==> Owned(At(b, id)) ==> b.live[id] == map[]
    ensures Steady(Next(b, s), id, tables)
    ensures id !in ResetBy(b, s) && Terminal(PhaseIn(b, id)) ==> PhaseIn(Next(b, s), id) == PhaseIn(b, id)
  {
    Projection(b, s, id);
    SteadyMove(At(b, id), MoveOf(b, s, id), b.now, tables);
  }

  ghost predicate SteadyAfter(b: Board, steps: seq<Step>, id: TaskId, tables: iset<set<string>>) {
    Valid(b, steps) && Steady(Exec(b, steps), id, tables)
  }

  lemma SteadyOneMore(b: Board, steps: seq<Step>, s: Step, id: TaskId, tables: iset<set<string>>)
    requires SteadyAfter(b, steps, id, tables) && Valid(b, steps + [s]) && Calm([s], tables)
    ensures SteadyAfter(b, steps + [s], id, tables)
    ensures Terminal(PhaseAfter(b, steps, id)) ==> PhaseAfter(b, steps + [s], id) == PhaseAfter(b, steps, id)
  {
    assert (steps + [s])[..|steps|] == steps && [s][0] == s;
    SteadyStep(Exec(b, steps), s, id, tables);
  }

  lemma {:induction false} SteadyRun(b: Board, before: seq<Step>, more: seq<Step>, id: TaskId,
                                     tables: iset<set<string>>)
    requires SteadyAfter(b, before, id, tables) && Valid(b, before + more) && Calm(more, tables)
    ensures SteadyAfter(b, before + more, id, tables)
    ensures Terminal(PhaseAfter(b, before, id)) ==> PhaseAfter(b, before + more, id) == PhaseAfter(b, before, id)
    decreases |more|
  {
    if more == [] {
      assert before + more == before;
    } else {
      var n := |more| - 1;
      assert (before + more)[..|before + more| - 1] == before + more[..n];
      SteadyRun(b, before, more[..n], id, tables);
      assert before + more[..n] + [more[n]] == before + more;
      SteadyOneMore(b, before + more[..n], more[n], id, tables);
    }
  }

  lemma CalmPrefix(b: Board, before: seq<Step>, more: seq<Step>, k: nat, tables: iset<set<string>>)
    requires Valid(b, before + more) && Calm(more, tables) && k <= |more|
    ensures Valid(b, before + more[..k]) && Calm(more[..k], tables) && Calm(more[k..], tables)
    ensures before + more[..k] + more[k..] == before + more
  {
    Prefix(b, before + more, |before| + k);
    assert (before + more)[..|before| + k] == before + more[..k];
  }

  lemma SteadyKeepsTerminal(b: Board, before: seq<Step>, more: seq<Step>, id: TaskId, tables: iset<set<string>>)
    requires SteadyAfter(b, before, id, tables)
    ensures !LeavesTerminal(b, tables, before, more, id)
  {
    if Valid(b, before + more) && Calm(more, tables) {
      forall k | 0 <= k <= |more| && Terminal(PhaseAfter(b, before + more[..k], id))
        ensures PhaseAfter(b, before + more, id) == PhaseAfter(b, before + more[..k], id)
      {
        CalmPrefix(b, before, more, k, tables);
        SteadyRun(b, before, more[..k], id, tables);
        SteadyRun(b, before + more[..k], more[k..], id, tables);
      }
    }
  }

  lemma SteadyUnlessEndangered(b: Board, s: Step, id: TaskId, tables: iset<set<string>>)
    requires Reached(b, id, tables) && Enabled(b, s) && (s.UnlockStale? || s.Recover?) && !Endangers(b, s, id, tables)
    ensures Steady(Next(b, s), id, tables)
  {
    ReachedCell(b, id, tables);
    UnlessEndangered(b, s, id, tables);
  }

  lemma UnlessEndangered(b: Board, s: Step, id: TaskId, tables: iset<set<string>>)
    requires Shaped(b) && Enabled(b, s) && (s.UnlockStale? || s.Recover?) && id in b.life
    requires !Endangers(b, s, id, tables)
    requires Faithful(At(b, id)) && ServedOnly(At(b, id), tables) && Owned(At(b, id))
    ensures Steady(Next(b, s), id, tables)
  {
    var c := At(b, id);
    Projection(b, s, id);
    if id in ResetBy(b, s) && b.live[id] != map[] {
      FaithfulStep(c, MoveOf(b, s, id), b.now);
      ServedMove(c, MoveOf(b, s, id), tables);
      BirthStep(c, MoveOf(b, s, id));
    } else {
      SteadyMove(c, MoveOf(b, s, id), b.now, tables);
    }
  }

  lemma EndangeredLeavesTerminal(b: Board, steps: seq<Step>, s: Step, id: TaskId, tables: iset<set<string>>)
    returns (more: seq<Step>)
    requires Valid(b, steps) && Reached(Exec(b, steps), id, tables) && Enabled(Exec(b, steps), s)
    requires Endangers(Exec(b, steps), s, id, tables)
    ensures LeavesTerminal(b, tables, steps + [s], more, id)
  {
    var p := Exec(b, steps);
    var n :| n in p.live[id];
    var known :| known in tables && Serves(known, p.life[id].payload);
    ReachedCell(p, id, tables);
    ResetScene(b, steps, s, id, tables);
    var start := Scene(ResetCell(At(p, id)), p.dead, p.now, tables);
    var scene, y;
    more, scene, y := Contend(b, steps + [s], id, At(p, id), start, n);
    more := RivalsLeaveTerminal(b, steps + [s], more, id, scene, n, y, known);
  }

  lemma TerminalIffSafeHere(b: Board, steps: seq<Step>, s: Step, id: TaskId, tables: iset<set<string>>)
    requires Valid(b, steps) && Reached(Exec(b, steps), id, tables) && Enabled(Exec(b, steps), s)
    requires s.UnlockStale? || s.Recover?
    ensures (exists more :: LeavesTerminal(b, tables, steps + [s], more, id)) <==>
            Endangers(Exec(b, steps), s, id, tables)
  {
    if Endangers(Exec(b, steps), s, id, tables) {
      var more := EndangeredLeavesTerminal(b, steps, s, id, tables);
    } else {
      Extend(b, steps, s);
      SteadyUnlessEndangered(Exec(b, steps), s, id, tables);
      forall more
        ensures !LeavesTerminal(b, tables, steps + [s], more, id)
      {
        SteadyKeepsTerminal(b, steps + [s], more, id, tables);
      }
    }
  }

  /**
    A recovery step at the end of a safely recovered run, whatever handler tables the processes have:
    some continuation by the processes alone makes the task leave a terminal state if and only if the
    step resets it while it is carried and some table has a handler for it.
   */
  lemma TerminalIffSafeFor(batch: nat, maxRetries: nat, now: Time, tables: iset<set<string>>, steps: seq<Step>, s: Step,
                           id: TaskId)
    requires SafeSoFar(batch, maxRetries, now, tables, steps)
    requires var r := Exec(Empty(batch, maxRetries, now), steps);
             Enabled(r, s) && (s.UnlockStale? || s.Recover?) && id in r.life
    ensures var b := Empty(batch, maxRetries, now);
            (exists more :: LeavesTerminal(b, tables, steps + [s], more, id)) <==>
            Endangers(Exec(b, steps), s, id, tables)
  {
    RunReaches(batch, maxRetries, now, tables, steps, id);
    TerminalIffSafeHere(Empty(batch, maxRetries, now), steps, s, id, tables);
  }

  /** For the program, which registers the same handlers in every process: reset, carried, and of a registered type. */
  ghost predicate ResetsCarried(b: Board, s: Step, id: TaskId, known: set<string>)
    requires Shaped(b)
  {
    id in ResetBy(b, s) && id in b.live && b.live[id] != map[] && Serves(known, b.life[id].payload)
  }

  lemma OneTable(known: set<string>, payload: Payload)
    ensures Served(iset{known}, payload) <==> Serves(known, payload)
  {
    assert known in iset{known};
  }

  /** With one handler table the condition can be read off the row, the reset and the type of the task. */
  lemma TerminalIffSafe(batch: nat, maxRetries: nat, now: Time, known: set<string>, steps: seq<Step>, s: Step,
                        id: TaskId)
    requires SafeSoFar(batch, maxRetries, now, iset{known}, steps)
    requires var r := Exec(Empty(batch, maxRetries, now), steps);
             Enabled(r, s) && (s.UnlockStale? || s.Recover?) && id in r.life
    ensures var b := Empty(batch, maxRetries, now);
            (exists more :: LeavesTerminal(b, iset{known}, steps + [s], more, id)) <==>
            ResetsCarried(Exec(b, steps), s, id, known)
  {
    var b := Empty(batch, maxRetries, now);
    TerminalIffSafeFor(batch, maxRetries, now, iset{known}, steps, s, id);
    OneTable(known, Exec(b, steps).life[id].payload);
  }
}
