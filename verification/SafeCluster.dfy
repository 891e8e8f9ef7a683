/**
  When recovery is safe. What an operator can see, that only dead instances are taken for stale and
  that no carried task's lock outlives the stale age, implies the premise of the ownership theorems;
  so these hold of every such run of the whole system.
 */
module SafeCluster {
  import opened Wrappers
  import opened TaskTable
  import opened TaskLife
  import opened Cluster
  import opened Recovery
  import Board
  import Invariants
  import Guarantees

  /** The timing premise: no task that a process still carries was locked longer ago than the stale age. */
  ghost predicate Prompt(c: Cluster, s: Step) {
    s.Work? && s.move.UnlockStale? ==>
      forall id, n :: Board.Carried(c.board, id, n) && id in c.board.tasks && c.board.tasks[id].lockedAt.Some? ==>
        s.move.at - s.move.age <= c.board.tasks[id].lockedAt.value
  }

  ghost predicate PromptRun(c: Cluster, steps: seq<Step>)
    requires Valid(c, steps)
    decreases |steps|
  {
    steps != [] ==>
      var n := |steps| - 1;
      PromptRun(c, steps[..n]) && Prompt(Exec(c, steps[..n]), steps[n])
  }

  // ---------------------------------------------------------------- dead processes carry nothing

  ghost predicate NoneOf(b: Board.Board, w: WorkerId) {
    forall id, n :: Board.Carried(b, id, n) ==> b.live[id][n].worker != w
  }

  ghost predicate DeadCarryNothing(c: Cluster) {
    forall w :: w in c.gone ==> NoneOf(c.board, w)
  }

  ghost predicate CellWithout(c: Cell, w: WorkerId) {
    forall n :: n in c.live ==> c.live[n].worker != w
  }

  lemma MoveBringsNone(c: Cell, mv: Move, w: WorkerId)
    requires Possible(c, mv) && (mv.Claim? ==> mv.worker != w) && CellWithout(c, w)
    ensures CellWithout(Apply(c, mv), w)
  {
  }

  lemma StepBringsNone(b: Board.Board, s: Board.Step, w: WorkerId)
    requires Board.Shaped(b) && Board.Enabled(b, s) && !ClaimsFor(s, w) && NoneOf(b, w)
    ensures NoneOf(Board.Next(b, s), w)
  {
    Board.StaysShaped(b, s);
    var d := Board.Next(b, s);
    forall id, n | Board.Carried(d, id, n)
      ensures d.live[id][n].worker != w
    {
      if id in b.life {
        Board.Projection(b, s, id);
        assert forall m :: m in Board.At(b, id).live ==> Board.Carried(b, id, m);
        MoveBringsNone(Board.At(b, id), Board.MoveOf(b, s, id), w);
        assert n in Board.At(d, id).live;
      } else {
        Invariants.Birth(b, s, id);
      }
    }
  }

  lemma CrashLeavesNone(b: Board.Board, w: WorkerId)
    requires Board.Shaped(b)
    ensures NoneOf(Board.Next(b, Board.Crash(w)), w)
  {
  }

  lemma KeepsDeadCarryNothing(c: Cluster, s: Step)
    requires DeadCarryNothing(c) && Board.Shaped(c.board) && Enabled(c, s)
    ensures DeadCarryNothing(Next(c, s))
  {
    StaysShaped(c, s);
    var d, share := Next(c, s), OnBoard(c, s);
    forall w | w in d.gone
      ensures NoneOf(d.board, w)
    {
      if w in c.gone {
        if share != [] {
          StepBringsNone(c.board, share[0], w);
        }
      } else if s.Die? {
        CrashLeavesNone(c.board, w);
      } else {
        LeaverCarriesNone(c, s);
      }
    }
  }

  lemma LeaverCarriesNone(c: Cluster, s: Step)
    requires Board.Shaped(c.board) && Enabled(c, s) && s.Leave?
    ensures NoneOf(c.board, s.worker)
  {
    forall id, n | Board.Carried(c.board, id, n)
      ensures c.board.live[id][n].worker != s.worker
    {
      assert n !in Board.Of(c.board.live[id], s.worker);
    }
  }

  // ---------------------------------------------------------------- hence recovery is safe

  lemma CarriedIsOwned(b: Board.Board, id: TaskId, n: nat)
    requires Invariants.AllOwned(b) && Board.Carried(b, id, n)
    ensures id in b.tasks && b.tasks[id].status.Running? && b.tasks[id].lockedBy == Some(b.live[id][n].worker)
  {
    assert Owned(Board.At(b, id)) && n in Board.At(b, id).live;
  }

  lemma StepIsSafe(c: Cluster, s: Step)
    requires Board.Shaped(c.board) && Enabled(c, s) && DeadOnly(c, s) && Prompt(c, s)
    requires Invariants.AllOwned(c.board) && Invariants.AllLocksKept(c.board)
    requires DeadCarryNothing(c) && NoOrphans(c)
    ensures OnBoard(c, s) != [] ==> Invariants.SafeStep(c.board, OnBoard(c, s)[0])
  {
    var b := c.board;
    if s.RecoverFirst? && s.ok {
      var w := c.recoverers[s.r].todo[0];
      assert w in c.recoverers[s.r].todo && w in c.gone && NoneOf(b, w);
      forall id | id in RowsHeldBy(b.tasks, w)
        ensures b.live[id] == map[]
      {
        if n :| n in b.live[id] {
          assert Board.Carried(b, id, n);
          CarriedIsOwned(b, id, n);
          assert false;
        }
      }
    } else if s.Work? && s.move.UnlockStale? {
      forall id | id in StaleRows(b.tasks, s.move.at, s.move.age)
        ensures b.live[id] == map[]
      {
        if n :| n in b.live[id] {
          assert Board.Carried(b, id, n);
          assert false;
        }
      }
    }
  }

  ghost predicate SafeSystem(c: Cluster) {
    Invariants.Safe(c.board) && NoOrphans(c) && DeadCarryNothing(c)
  }

  lemma SafeSystemParts(c: Cluster)
    requires SafeSystem(c)
    ensures Invariants.AllOwned(c.board) && NoOrphans(c)
  {
  }

  lemma KeepsSafeSystem(c: Cluster, s: Step)
    requires SafeSystem(c) && Enabled(c, s) && DeadOnly(c, s) && Prompt(c, s)
    ensures SafeSystem(Next(c, s))
  {
    StepIsSafe(c, s);
    StaysShaped(c, s);
    KeepsNoOrphans(c, s);
    KeepsDeadCarryNothing(c, s);
    if OnBoard(c, s) != [] {
      Invariants.KeepsSafe(c.board, OnBoard(c, s)[0]);
    }
  }

  lemma {:induction false} AlwaysSafeSystem(batch: nat, maxRetries: nat, now: Time, steps: seq<Step>)
    requires Valid(Empty(batch, maxRetries, now), steps)
    requires DeadOnlyRun(Empty(batch, maxRetries, now), steps) && PromptRun(Empty(batch, maxRetries, now), steps)
    ensures SafeSystem(Exec(Empty(batch, maxRetries, now), steps))
    decreases |steps|
  {
    if steps == [] {
      Invariants.EmptyIsSafe(batch, maxRetries, now);
    } else {
      var n := |steps| - 1;
      AlwaysSafeSystem(batch, maxRetries, now, steps[..n]);
      KeepsSafeSystem(Exec(Empty(batch, maxRetries, now), steps[..n]), steps[n]);
    }
  }

  lemma StepStaysSafe(c: Cluster, s: Step)
    requires SafeSystem(c) && Enabled(c, s) && DeadOnly(c, s) && Prompt(c, s)
    ensures OnBoard(c, s) != [] ==> Invariants.SafeStep(c.board, OnBoard(c, s)[0])
  {
    StepIsSafe(c, s);
  }

  lemma SafeTraceGrows(c: Cluster, steps: seq<Step>)
    requires steps != [] && Valid(c, steps)
    requires var before := Trace(c, steps[..|steps| - 1]);
             && Guarantees.Valid(c.board, before) && Guarantees.SafelyRecovered(c.board, before)
             && Guarantees.Exec(c.board, before) == Exec(c, steps[..|steps| - 1]).board
    requires var p := Exec(c, steps[..|steps| - 1]);
             var last := OnBoard(p, steps[|steps| - 1]);
             last != [] ==> Invariants.SafeStep(p.board, last[0])
    ensures Guarantees.Valid(c.board, Trace(c, steps)) && Guarantees.SafelyRecovered(c.board, Trace(c, steps))
  {
    var n := |steps| - 1;
    var before, last := Trace(c, steps[..n]), OnBoard(Exec(c, steps[..n]), steps[n]);
    if last == [] {
      assert before + last == before;
    } else {
      assert last == [last[0]];
      Guarantees.Extend(c.board, before, last[0]);
    }
  }

  /** The two premises imply that every recovery of the run is safe. */
  lemma {:induction false} RecoveryIsSafe(batch: nat, maxRetries: nat, now: Time, steps: seq<Step>)
    requires Valid(Empty(batch, maxRetries, now), steps)
    requires DeadOnlyRun(Empty(batch, maxRetries, now), steps) && PromptRun(Empty(batch, maxRetries, now), steps)
    ensures var c := Empty(batch, maxRetries, now);
            && Guarantees.Valid(c.board, Trace(c, steps))
            && Guarantees.SafelyRecovered(c.board, Trace(c, steps))
            && Guarantees.Exec(c.board, Trace(c, steps)) == Exec(c, steps).board
    decreases |steps|
  {
    var c := Empty(batch, maxRetries, now);
    BoardRun(c, steps);
    if steps != [] {
      var n := |steps| - 1;
      RecoveryIsSafe(batch, maxRetries, now, steps[..n]);
      AlwaysSafeSystem(batch, maxRetries, now, steps[..n]);
      StepStaysSafe(Exec(c, steps[..n]), steps[n]);
      SafeTraceGrows(c, steps);
    }
  }

  // ---------------------------------------------------------------- the guarantees of the whole system

  /** Across all processes a task is carried at most once, and its row is running and locked by that process. */
  lemma ClusterSingleOwner(batch: nat, maxRetries: nat, now: Time, steps: seq<Step>, id: TaskId, m: nat, n: nat)
    requires Valid(Empty(batch, maxRetries, now), steps)
    requires DeadOnlyRun(Empty(batch, maxRetries, now), steps) && PromptRun(Empty(batch, maxRetries, now), steps)
    requires var r := Exec(Empty(batch, maxRetries, now), steps).board;
             Board.Carried(r, id, m) && Board.Carried(r, id, n)
    ensures m == n
    ensures var r := Exec(Empty(batch, maxRetries, now), steps);
            && id in r.board.tasks && r.board.tasks[id].status.Running?
            && r.board.tasks[id].lockedBy == Some(r.board.live[id][n].worker)
            && r.board.live[id][n].worker !in r.gone
  {
    RecoveryIsSafe(batch, maxRetries, now, steps);
    AlwaysSafeSystem(batch, maxRetries, now, steps);
    Guarantees.SingleOwner(batch, maxRetries, now, Trace(Empty(batch, maxRetries, now), steps), id, m, n);
  }

  lemma ClusterExactConservation(batch: nat, maxRetries: nat, now: Time, steps: seq<Step>)
    requires Valid(Empty(batch, maxRetries, now), steps)
    requires DeadOnlyRun(Empty(batch, maxRetries, now), steps) && PromptRun(Empty(batch, maxRetries, now), steps)
    ensures var c := Empty(batch, maxRetries, now);
            var r := Exec(c, steps).board;
            && |r.tasks.Keys| + |r.dead.Keys| == Guarantees.BirthsIn(Trace(c, steps))
            && Invariants.OneLetterEach(r.dead)
            && (1 <= maxRetries ==> forall d :: d in r.dead ==> r.dead[d].attempts == maxRetries - 1)
  {
    var c := Empty(batch, maxRetries, now);
    RecoveryIsSafe(batch, maxRetries, now, steps);
    Guarantees.ExactConservation(batch, maxRetries, now, Trace(c, steps));
    if 1 <= maxRetries {
      forall d | d in Exec(c, steps).board.dead
        ensures Exec(c, steps).board.dead[d].attempts == maxRetries - 1
      {
        Guarantees.DeadLetterAttempts(batch, maxRetries, now, Trace(c, steps), d);
      }
    }
  }

  lemma {:induction false} TracePrefix(c: Cluster, steps: seq<Step>, k: nat)
    requires Valid(c, steps) && k <= |steps|
    ensures Valid(c, steps[..k]) && Trace(c, steps[..k]) <= Trace(c, steps)
    decreases |steps|
  {
    if k < |steps| {
      TracePrefix(c, steps[..|steps| - 1], k);
      assert steps[..|steps| - 1][..k] == steps[..k];
    } else {
      assert steps[..k] == steps;
    }
  }

  /** Completed, failed and dead-lettered are for ever in the whole system. */
  lemma ClusterTerminalForever(batch: nat, maxRetries: nat, now: Time, steps: seq<Step>, id: TaskId, k: nat)
    requires Valid(Empty(batch, maxRetries, now), steps) && k <= |steps|
    requires DeadOnlyRun(Empty(batch, maxRetries, now), steps) && PromptRun(Empty(batch, maxRetries, now), steps)
    ensures Valid(Empty(batch, maxRetries, now), steps[..k])
    ensures var c := Empty(batch, maxRetries, now);
            var p := Guarantees.PhaseIn(Exec(c, steps[..k]).board, id);
            Terminal(p) ==> Guarantees.PhaseIn(Exec(c, steps).board, id) == p
  {
    var c := Empty(batch, maxRetries, now);
    TracePrefix(c, steps, k);
    BoardRun(c, steps[..k]);
    RecoveryIsSafe(batch, maxRetries, now, steps);
    TerminalOnTrace(batch, maxRetries, now, Trace(c, steps), Trace(c, steps[..k]), id);
  }

  lemma TerminalOnTrace(batch: nat, maxRetries: nat, now: Time, trace: seq<Board.Step>, prefix: seq<Board.Step>,
                        id: TaskId)
    requires Guarantees.Valid(Board.Empty(batch, maxRetries, now), trace) && prefix <= trace
    requires Guarantees.SafelyRecovered(Board.Empty(batch, maxRetries, now), trace)
    ensures Guarantees.Valid(Board.Empty(batch, maxRetries, now), prefix)
    ensures var b := Board.Empty(batch, maxRetries, now);
            var p := Guarantees.PhaseIn(Guarantees.Exec(b, prefix), id);
            Terminal(p) ==> Guarantees.PhaseIn(Guarantees.Exec(b, trace), id) == p
  {
    assert prefix == trace[..|prefix|];
    Guarantees.TerminalForever(batch, maxRetries, now, trace, id, |prefix|);
  }
}
