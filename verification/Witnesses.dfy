/** Runs that show where a guarantee stops: why its premise is there, and that no weaker one would do. */
module Witnesses {
  import opened Wrappers
  import opened TaskTable
  import opened Decision
  import opened TaskLife
  import opened Board
  import opened Guarantees
  import opened Scripts
  import opened Exactness
  import opened Letters

  const ECHO: Payload := Typed("echo", 0)

  /** The one handler table of the program. */
  const HANDLERS: set<string> := {"echo"}

  const TABLES: iset<set<string>> := iset{HANDLERS}

  function Born(maxRetries: nat, now: Time): Cell {
    Cell(Some(NewTask(ECHO, None, maxRetries, now)), map[], Newborn(ECHO, None, now, maxRetries, 0))
  }

  /** Task 0 is created. */
  lemma Creates(batch: nat, maxRetries: nat, now: Time) returns (before: seq<Step>)
    ensures Leads(Empty(batch, maxRetries, now), before, [], 0, Scene(Born(maxRetries, now), map[], now, TABLES))
    ensures Valid(Empty(batch, maxRetries, now), before)
    ensures NoOverride(before) && SafelyRecovered(Empty(batch, maxRetries, now), before) && Uses(before, TABLES)
  {
    var b := Empty(batch, maxRetries, now);
    var s := Insert(0, ECHO, None, now);
    assert Valid(b, []) && SafelyRecovered(b, []);
    Extend(b, [], s);
    before := [] + [s];
    Starts(b, before, 0, TABLES);
  }

  /** Recovery resets task 0, whose row worker 0 has locked; the run so far becomes a new beginning. */
  lemma Resets(b: Board, before: seq<Step>, after: seq<Step>, scene: Scene) returns (run: seq<Step>)
    requires Leads(b, before, after, 0, scene) && NoOverride(before)
    requires scene.cell.row.Some? && scene.cell.row.value.status.Running? && scene.cell.row.value.lockedBy == Some(0)
    ensures Leads(b, run, [], 0, scene.(cell := ResetCell(scene.cell))) && NoOverride(run)
  {
    var s := Recover(0);
    RowIsReset(Exec(b, before + after));
    ResetEnds(b, before + after, s, scene.tables);
    run := before + after + [s];
  }

  lemma RowIsReset(r: Board)
    requires Shaped(r) && 0 in r.life
    requires var c := At(r, 0); c.row.Some? && c.row.value.status.Running? && c.row.value.lockedBy == Some(0)
    ensures 0 in ResetBy(r, Recover(0)) && Enabled(r, Recover(0))
  {
  }

  lemma ResetEnds(b: Board, run: seq<Step>, s: Step, tables: iset<set<string>>)
    requires Valid(b, run) && Enabled(Exec(b, run), s) && 0 in ResetBy(Exec(b, run), s)
    ensures 0 in Exec(b, run).tasks && 0 in Exec(b, run).life
    ensures Leads(b, run + [s], [], 0,
                  Scene(ResetCell(At(Exec(b, run), 0)), Exec(b, run).dead, Exec(b, run).now, tables))
  {
    Extend(b, run, s);
    ResetProjects(Exec(b, run), s, 0);
    Starts(b, run + [s], 0, tables);
  }

  // ---------------------------------------------------------------- NOT NULL

  /** A row without an error is about to be dead-lettered: the insert will fail, and the task stays where it is. */
  ghost predicate BuriesWithoutError(r: Board, id: TaskId, n: nat) {
    Carried(r, id, n) && r.live[id][n].stage.Moving? && r.live[id][n].stage.read.lastError.None?
  }

  lemma OneAttemptBuriesWithoutError(batch: nat, maxRetries: nat, now: Time)
    requires maxRetries <= 1
    ensures exists steps :: Valid(Empty(batch, maxRetries, now), steps) && NoOverride(steps)
                            && BuriesWithoutError(Exec(Empty(batch, maxRetries, now), steps), 0, 0)
  {
    var before := Creates(batch, maxRetries, now);
    var after := FirstFailureBuries(Empty(batch, maxRetries, now), before, maxRetries, now);
  }

  lemma FirstFailureBuries(b: Board, before: seq<Step>, maxRetries: nat, now: Time) returns (after: seq<Step>)
    requires maxRetries <= 1 && NoOverride(before)
    requires Leads(b, before, [], 0, Scene(Born(maxRetries, now), map[], now, TABLES))
    ensures Valid(b, before + after) && NoOverride(before + after) && BuriesWithoutError(Exec(b, before + after), 0, 0)
  {
    var scene := Scene(Born(maxRetries, now), map[], now, TABLES);
    var c := Begun(scene.cell, 0, now);
    after := Begins(b, before, [], 0, scene, 0);
    after := Settles(b, before, after, 0, scene.(cell := c), 0, HANDLERS, Some("no"));
    assert At(Exec(b, before + after), 0).live == Exec(b, before + after).live[0];
  }

  /**
    Dead-lettering always has an error to store exactly when the retry limit is at least two; the
    schema's is three.
   */
  lemma NotNullIffTwoAttempts(batch: nat, maxRetries: nat, now: Time)
    ensures 2 <= maxRetries <==>
            forall steps, id, n :: Valid(Empty(batch, maxRetries, now), steps) ==>
              !BuriesWithoutError(Exec(Empty(batch, maxRetries, now), steps), id, n)
  {
    if 2 <= maxRetries {
      forall steps, id, n | Valid(Empty(batch, maxRetries, now), steps)
        ensures !BuriesWithoutError(Exec(Empty(batch, maxRetries, now), steps), id, n)
      {
        var r := Exec(Empty(batch, maxRetries, now), steps);
        if BuriesWithoutError(r, id, n) {
          DeadLetterHasError(batch, maxRetries, now, steps, id, n);
          assert false;
        }
      }
    } else {
      OneAttemptBuriesWithoutError(batch, maxRetries, now);
    }
  }

  lemma SchemaDefaultIsEnough(batch: nat, now: Time, steps: seq<Step>, id: TaskId, n: nat)
    requires Valid(Empty(batch, DEFAULT_MAX_RETRIES, now), steps)
    ensures !BuriesWithoutError(Exec(Empty(batch, DEFAULT_MAX_RETRIES, now), steps), id, n)
  {
    NotNullIffTwoAttempts(batch, DEFAULT_MAX_RETRIES, now);
  }

  // ---------------------------------------------------------------- recovery of a live task

  /** A run that was safe so far, and a recovery step that resets a task in its first attempt. */
  lemma DangerExists(batch: nat, maxRetries: nat, now: Time) returns (steps: seq<Step>)
    requires 2 <= maxRetries
    ensures SafeSoFar(batch, maxRetries, now, TABLES, steps)
    ensures var r := Exec(Empty(batch, maxRetries, now), steps);
            && 0 in r.life && Enabled(r, Recover(0))
            && ResetsCarried(r, Recover(0), 0, HANDLERS) && RetryLeft(r, 0)
  {
    var b := Empty(batch, maxRetries, now);
    var before := Creates(batch, maxRetries, now);
    assert before + [] == before;
    var s := ClaimOne(0, now, 0);
    ConstantsStay(b, before);
    FirstClaim(Exec(b, before), s, maxRetries, now);
    Extend(b, before, s);
    steps := before + [s];
  }

  lemma FirstClaim(p: Board, s: Step, maxRetries: nat, now: Time)
    requires 2 <= maxRetries == p.maxRetries && s == ClaimOne(0, now, 0)
    requires Shaped(p) && 0 in p.life && At(p, 0) == Born(maxRetries, now) && p.now == now
    ensures Enabled(p, s)
    ensures var r := Next(p, s);
            && Shaped(r) && 0 in r.life
            && ResetsCarried(r, Recover(0), 0, HANDLERS) && RetryLeft(r, 0)
  {
    assert At(p, 0).row == Some(NewTask(ECHO, None, maxRetries, now)) && At(p, 0).live == p.live[0];
    var r := Next(p, s);
    assert 0 in r.live[0] && r.live[0][0].stage == Unsent && r.live[0][0].task.attempts == 0;
  }

  /**
    So without safe recovery terminal states are left, a task gets two dead letters, and a dead letter
    tells a wrong attempt count: for every retry limit of at least two there are such runs of processes
    that all have the program's one handler table.
   */
  lemma UnsafeRecoveryBreaks(batch: nat, maxRetries: nat, now: Time)
    returns (before: seq<Step>, first: seq<Step>, second: seq<Step>, third: seq<Step>)
    requires 2 <= maxRetries
    ensures LeavesTerminal(Empty(batch, maxRetries, now), TABLES, before, first, 0)
    ensures DoublesLetter(Empty(batch, maxRetries, now), TABLES, before, second, 0)
    ensures MiscountsLetter(Empty(batch, maxRetries, now), TABLES, before, third, 0)
  {
    var b, s := Empty(batch, maxRetries, now), Recover(0);
    var steps := DangerExists(batch, maxRetries, now);
    before := steps + [s];
    TerminalIffSafe(batch, maxRetries, now, HANDLERS, steps, s, 0);
    first :| LeavesTerminal(b, TABLES, before, first, 0);
    OneLetterIffSafe(batch, maxRetries, now, HANDLERS, steps, s, 0);
    second :| DoublesLetter(b, TABLES, before, second, 0);
    AttemptsIffSafe(batch, maxRetries, now, HANDLERS, steps, s, 0);
    third :| MiscountsLetter(b, TABLES, before, third, 0);
  }

  /** After the run the task is completed, and one more step makes it pending. */
  ghost predicate ComesBack(b: Board, steps: seq<Step>, s: Step, id: TaskId) {
    && Valid(b, steps) && NoOverride(steps) && Enabled(Exec(b, steps), s) && !s.Override?
    && PhaseIn(Exec(b, steps), id) == Succeeded
    && Shaped(Next(Exec(b, steps), s))
    && PhaseIn(Next(Exec(b, steps), s), id) == Waits
  }

  lemma ComesBackAtLast(b: Board, before: seq<Step>, after: seq<Step>, s: Step, one: Scene, two: Scene)
    requires NoOverride(before) && Leads(b, before, after, 0, one) && Leads(b, before, after + [s], 0, two)
    requires PhaseOf(one.cell) == Succeeded && PhaseOf(two.cell) == Waits && !s.Override?
    ensures ComesBack(b, before + after, s, 0)
  {
    assert before + (after + [s]) == before + after + [s];
    assert (before + after + [s])[..|before + after|] == before + after;
  }

  /** Claimed, reset while it runs, and claimed by a second process. */
  lemma Doubled(b: Board, before: seq<Step>, scene: Scene) returns (run: seq<Step>, after: seq<Step>)
    requires Leads(b, before, [], 0, scene) && NoOverride(before)
    requires scene.cell.row.Some? && Eligible(scene.cell.row.value, scene.now)
    ensures NoOverride(run)
    ensures Leads(b, run, after, 0, scene.(cell := Begun(ResetCell(Begun(scene.cell, 0, scene.now)), 1, scene.now)))
  {
    var c := Begun(scene.cell, 0, scene.now);
    after := Begins(b, before, [], 0, scene, 0);
    run := Resets(b, before, after, scene.(cell := c));
    after := Begins(b, run, [], 0, scene.(cell := ResetCell(c)), 1);
  }

  lemma SecondTakesBack(b: Board, before: seq<Step>, after: seq<Step>, maxRetries: nat, now: Time)
    returns (steps: seq<Step>, s: Step)
    requires 2 <= maxRetries && NoOverride(before)
    requires Leads(b, before, after, 0,
                   Scene(Begun(ResetCell(Begun(Born(maxRetries, now), 0, now)), 1, now), map[], now, TABLES))
    ensures ComesBack(b, steps, s, 0)
  {
    var d := Begun(ResetCell(Begun(Born(maxRetries, now), 0, now)), 1, now);
    var one := Scene(Settled(d, 0, Complete, now), map[], now, TABLES);
    var first := Settles(b, before, after, 0, Scene(d, map[], now, TABLES), 0, HANDLERS, None);
    var last := Settles(b, before, first, 0, one, 1, HANDLERS, Some("no"));
    steps, s := before + first, Step.Settle(0, 1, HANDLERS, Some("no"), now);
    ComesBackAtLast(b, before, first, s, one,
                    one.(cell := Settled(one.cell, 1, Decide(HANDLERS, d.live[1].task, Some("no")), now)));
  }

  /** Writes match on id alone, so the second of two processes can take a completed task back to pending. */
  lemma CompletedCanComeBack(batch: nat, maxRetries: nat, now: Time)
    requires 2 <= maxRetries
    ensures exists steps, s :: ComesBack(Empty(batch, maxRetries, now), steps, s, 0)
  {
    var before := Creates(batch, maxRetries, now);
    var after;
    before, after := Doubled(Empty(batch, maxRetries, now), before, Scene(Born(maxRetries, now), map[], now, TABLES));
    var steps, s := SecondTakesBack(Empty(batch, maxRetries, now), before, after, maxRetries, now);
  }

  // ---------------------------------------------------------------- the claim bound is reached

  /** Pending, claimable at once, and carried by no one. */
  ghost predicate Ready(c: Cell, attempts: nat, maxRetries: nat, now: Time) {
    && c.row.Some? && Eligible(c.row.value, now) && c.row.value.attempts == attempts
    && c.row.value.payload == ECHO && c.row.value.maxRetries == maxRetries
    && c.live == map[]
  }

  /** One attempt that fails. */
  lemma FailCell(c: Cell, attempts: nat, maxRetries: nat, now: Time)
    requires Ready(c, attempts, maxRetries, now) && attempts + 1 < maxRetries
    ensures var d, n := Begun(c, 0, now), c.life.claims;
            && Decide(HANDLERS, d.live[n].task, Some("no")) == Retry(HandlerError("no"))
            && var e := Settled(d, n, Retry(HandlerError("no")), now);
               Ready(e, attempts + 1, maxRetries, now)
               && e.life.claims == c.life.claims + 1 && e.life.resets == c.life.resets
  {
    var d, n := Begun(c, 0, now), c.life.claims;
    assert (d.live - {n}).Keys == {};
  }

  lemma {:induction false} Fails(b: Board, before: seq<Step>, after: seq<Step>, scene: Scene,
                                 attempts: nat, times: nat, maxRetries: nat)
    returns (more: seq<Step>, c: Cell)
    requires scene.tables == TABLES && Leads(b, before, after, 0, scene)
    requires Ready(scene.cell, attempts, maxRetries, scene.now)
    requires times > 0 ==> attempts + times < maxRetries
    ensures Leads(b, before, more, 0, scene.(cell := c)) && Ready(c, attempts + times, maxRetries, scene.now)
    ensures c.life.claims == scene.cell.life.claims + times && c.life.resets == scene.cell.life.resets
    decreases times
  {
    if times == 0 {
      more, c := after, scene.cell;
      assert scene.(cell := c) == scene;
    } else {
      var d, n := Begun(scene.cell, 0, scene.now), scene.cell.life.claims;
      FailCell(scene.cell, attempts, maxRetries, scene.now);
      more := Begins(b, before, after, 0, scene, 0);
      more := Settles(b, before, more, 0, scene.(cell := d), n, HANDLERS, Some("no"));
      var e := Settled(d, n, Retry(HandlerError("no")), scene.now);
      more, c := Fails(b, before, more, scene.(cell := e), attempts + 1, times - 1, maxRetries);
    }
  }

  /** The row is running, and envelopes `lo` to `hi` are in handlers, all with the same snapshot of attempts. */
  ghost predicate Pile(c: Cell, lo: nat, hi: nat, attempts: nat, maxRetries: nat, now: Time) {
    && lo <= hi <= c.life.claims
    && c.row.Some? && c.row.value.status.Running? && c.row.value.lockedBy == Some(0)
    && (c.row.value.nextRetryAt.None? || c.row.value.nextRetryAt.value <= now)
    && c.row.value.payload == ECHO && c.row.value.maxRetries == maxRetries
    && (forall n :: lo <= n < hi ==>
          n in c.live && c.live[n].stage.Executing? && Snapshot(c.live[n].task, attempts, maxRetries))
  }

  predicate Snapshot(t: Task, attempts: nat, maxRetries: nat) {
    t.payload == ECHO && t.attempts == attempts && t.maxRetries == maxRetries
  }

  lemma FirstOfPile(c: Cell, attempts: nat, maxRetries: nat, now: Time)
    requires Ready(c, attempts, maxRetries, now)
    ensures Pile(Begun(c, 0, now), c.life.claims, c.life.claims + 1, attempts, maxRetries, now)
    ensures Begun(c, 0, now).row.value.attempts == attempts && Begun(c, 0, now).life.claims == c.life.claims + 1
  {
  }

  /** Reset and claimed again: the pile grows by one. */
  lemma PileGrows(c: Cell, lo: nat, attempts: nat, maxRetries: nat, now: Time)
    requires Pile(c, lo, c.life.claims, attempts, maxRetries, now) && c.row.value.attempts == attempts
    ensures Eligible(ResetCell(c).row.value, now)
    ensures var d := Begun(ResetCell(c), 0, now);
            && Pile(d, lo, d.life.claims, attempts, maxRetries, now) && d.row.value.attempts == attempts
            && d.life.claims == c.life.claims + 1 && d.life.resets == c.life.resets + 1
  {
  }

  lemma {:induction false} PilesUp(b: Board, before: seq<Step>, after: seq<Step>, scene: Scene,
                                   lo: nat, attempts: nat, maxRetries: nat, times: nat)
    returns (run: seq<Step>, more: seq<Step>, c: Cell)
    requires Leads(b, before, after, 0, scene) && NoOverride(before)
    requires Pile(scene.cell, lo, scene.cell.life.claims, attempts, maxRetries, scene.now)
    requires scene.cell.row.value.attempts == attempts
    ensures Leads(b, run, more, 0, scene.(cell := c)) && NoOverride(run)
    ensures Pile(c, lo, c.life.claims, attempts, maxRetries, scene.now)
    ensures c.life.claims == scene.cell.life.claims + times && c.life.resets == scene.cell.life.resets + times
    decreases times
  {
    if times == 0 {
      run, more, c := before, after, scene.cell;
      assert scene.(cell := c) == scene;
    } else {
      PileGrows(scene.cell, lo, attempts, maxRetries, scene.now);
      run := Resets(b, before, after, scene);
      more := Begins(b, run, [], 0, scene.(cell := ResetCell(scene.cell)), 0);
      var d := Begun(ResetCell(scene.cell), 0, scene.now);
      run, more, c := PilesUp(b, run, more, scene.(cell := d), lo, attempts, maxRetries, times - 1);
    }
  }

  /** The first of the pile fails with its old snapshot, and the task is claimed again. */
  lemma PileShrinks(c: Cell, lo: nat, hi: nat, attempts: nat, maxRetries: nat, now: Time)
    requires Pile(c, lo, hi, attempts, maxRetries, now) && lo < hi && attempts + 1 < maxRetries
    ensures Decide(HANDLERS, c.live[lo].task, Some("no")) == Retry(HandlerError("no"))
    ensures var d := Settled(c, lo, Retry(HandlerError("no")), now);
            && d.row.Some? && Eligible(d.row.value, now)
            && var e := Begun(d, 0, now);
               && Pile(e, lo + 1, hi, attempts, maxRetries, now)
               && e.life.claims == c.life.claims + 1 && e.life.resets == c.life.resets
  {
  }

  lemma {:induction false} WorksOff(b: Board, before: seq<Step>, after: seq<Step>, scene: Scene,
                                    lo: nat, hi: nat, attempts: nat, maxRetries: nat)
    returns (more: seq<Step>, c: Cell)
    requires scene.tables == TABLES && Leads(b, before, after, 0, scene)
    requires Pile(scene.cell, lo, hi, attempts, maxRetries, scene.now)
    requires attempts + 1 < maxRetries
    ensures Leads(b, before, more, 0, scene.(cell := c))
    ensures c.life.claims == scene.cell.life.claims + (hi - lo) && c.life.resets == scene.cell.life.resets
    decreases hi - lo
  {
    if lo == hi {
      more, c := after, scene.cell;
      assert scene.(cell := c) == scene;
    } else {
      PileShrinks(scene.cell, lo, hi, attempts, maxRetries, scene.now);
      more := Settles(b, before, after, 0, scene, lo, HANDLERS, Some("no"));
      var d := Settled(scene.cell, lo, Retry(HandlerError("no")), scene.now);
      more := Begins(b, before, more, 0, scene.(cell := d), 0);
      more, c := WorksOff(b, before, more, scene.(cell := Begun(d, 0, scene.now)), lo + 1, hi, attempts, maxRetries);
    }
  }

  ghost predicate Attains(b: Board, steps: seq<Step>, id: TaskId, claims: nat, resets: nat) {
    Valid(b, steps) && NoOverride(steps) && ClaimsIn(steps, id) == claims && ResetsIn(b, steps, id) == resets
  }

  lemma SceneAttains(batch: nat, maxRetries: nat, now: Time, before: seq<Step>, after: seq<Step>, scene: Scene)
    requires Leads(Empty(batch, maxRetries, now), before, after, 0, scene) && NoOverride(before)
    ensures Attains(Empty(batch, maxRetries, now), before + after, 0, scene.cell.life.claims, scene.cell.life.resets)
  {
    CountersAreTrue(batch, maxRetries, now, before + after, 0);
    assert At(Exec(Empty(batch, maxRetries, now), before + after), 0).life
        == Exec(Empty(batch, maxRetries, now), before + after).life[0];
  }

  /** Ordinary failures up to attempt `fails`, then `resets` resets that pile up handlers with that snapshot. */
  lemma PilesAt(batch: nat, maxRetries: nat, now: Time, fails: nat, resets: nat)
    returns (before: seq<Step>, after: seq<Step>, scene: Scene)
    requires fails > 0 ==> fails < maxRetries
    ensures Leads(Empty(batch, maxRetries, now), before, after, 0, scene) && NoOverride(before)
    ensures scene.tables == TABLES
    ensures Pile(scene.cell, fails, scene.cell.life.claims, fails, maxRetries, scene.now)
    ensures scene.cell.life.claims == fails + 1 + resets && scene.cell.life.resets == resets
  {
    var b := Empty(batch, maxRetries, now);
    before := Creates(batch, maxRetries, now);
    scene := Scene(Born(maxRetries, now), map[], now, TABLES);
    var c;
    after, c := Fails(b, before, [], scene, 0, fails, maxRetries);
    FirstOfPile(c, fails, maxRetries, now);
    after := Begins(b, before, after, 0, scene.(cell := c), 0);
    before, after, c := PilesUp(b, before, after, scene.(cell := Begun(c, 0, now)), fails, fails, maxRetries, resets);
    scene := scene.(cell := c);
  }

  /** For every retry limit and every number of resets some run reaches the bound of BoundedClaims. */
  lemma BoundIsReached(batch: nat, maxRetries: nat, now: Time, resets: nat)
    ensures exists steps :: Attains(Empty(batch, maxRetries, now), steps, 0, MostClaims(maxRetries, resets), resets)
  {
    var b := Empty(batch, maxRetries, now);
    if maxRetries <= 1 {
      var before, after, scene := PilesAt(batch, maxRetries, now, 0, resets);
      SceneAttains(batch, maxRetries, now, before, after, scene);
      assert scene.cell.life.claims == MostClaims(maxRetries, resets);
    } else {
      var fails := maxRetries - 2;
      var before, after, scene := PilesAt(batch, maxRetries, now, fails, resets);
      var more, c := WorksOff(b, before, after, scene, fails, scene.cell.life.claims, fails, maxRetries);
      SceneAttains(batch, maxRetries, now, before, more, scene.(cell := c));
      assert c.life.claims == MostClaims(maxRetries, resets) && c.life.resets == resets;
    }
  }
}
