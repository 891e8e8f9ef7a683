/**
  An orderly exit. After the cancel the writes of queued tasks fail, so a process can drain its pool,
  deregister itself and leave rows behind that are running and locked by it. No recoverer will find
  the instance; such a row waits for UnlockStaleTasks, and for nothing else.
 */
module Leaving {
  import opened Oldest
  import opened TaskTable
  import opened TaskLife
  import opened Cluster
  import opened Recovery
  import opened SafeCluster
  import Board
  import Invariants

  /** Running and not carried, locked by an instance that is not alive, not registered, and on no recoverer's list. */
  ghost predicate Stranded(c: Cluster, w: WorkerId, id: TaskId) {
    && Board.Shaped(c.board)
    && w in c.gone && w !in c.instances
    && (forall r :: r in c.recoverers ==> w !in c.recoverers[r].todo)
    && id in RowsHeldBy(c.board.tasks, w)
    && (forall n :: !Board.Carried(c.board, id, n))
  }

  /** The step that frees a stranded row. */
  ghost predicate Unlocks(c: Cluster, s: Step, id: TaskId) {
    s.Work? && s.move.UnlockStale? && id in StaleRows(c.board.tasks, s.move.at, s.move.age)
  }

  /** Leaving strands exactly the rows that the process still holds. */
  lemma LeaverHoldsUncarried(c: Cluster, s: Step, w: WorkerId, id: TaskId, n: nat)
    requires Invariants.AllOwned(c.board) && Enabled(c, s) && s == Leave(w) && id in RowsHeldBy(c.board.tasks, w)
    ensures !Board.Carried(c.board, id, n)
  {
    LeaverCarriesNone(c, s);
    if Board.Carried(c.board, id, n) {
      CarriedIsOwned(c.board, id, n);
      assert false;
    }
  }

  lemma LeaveStrands(c: Cluster, s: Step, w: WorkerId, id: TaskId)
    requires Invariants.AllOwned(c.board) && NoOrphans(c) && Enabled(c, s) && s == Leave(w)
    ensures Stranded(Next(c, s), w, id) <==> id in RowsHeldBy(c.board.tasks, w)
  {
    forall n | id in RowsHeldBy(c.board.tasks, w)
      ensures !Board.Carried(c.board, id, n)
    {
      LeaverHoldsUncarried(c, s, w, id, n);
    }
  }

  ghost predicate HeldUncarried(c: Cell, w: WorkerId) {
    HeldCell(c, w) && c.live == map[]
  }

  lemma MoveKeepsHeld(c: Cell, mv: Move, w: WorkerId)
    requires HeldUncarried(c, w) && Possible(c, mv) && !mv.Override? && !mv.Release?
    ensures HeldUncarried(Apply(c, mv), w)
  {
  }

  lemma BoardKeepsHeld(b: Board.Board, s: Board.Step, w: WorkerId, id: TaskId)
    requires Board.Shaped(b) && Board.Enabled(b, s) && !s.Override?
    requires id in RowsHeldBy(b.tasks, w) && (forall n :: !Board.Carried(b, id, n))
    requires s.UnlockStale? ==> id !in StaleRows(b.tasks, s.at, s.age)
    requires s.Recover? ==> s.worker != w
    ensures id in RowsHeldBy(Board.Next(b, s).tasks, w) && forall n :: !Board.Carried(Board.Next(b, s), id, n)
  {
    var cell := Board.At(b, id);
    assert forall n :: n in cell.live ==> Board.Carried(b, id, n);
    Board.StaysShaped(b, s);
    Board.Projection(b, s, id);
    MoveKeepsHeld(cell, Board.MoveOf(b, s, id), w);
    assert HeldCell(Board.At(Board.Next(b, s), id), w);
  }

  /** What becomes of the registry: the instance stays out of it, and off every list. */
  lemma StaysForgotten(c: Cluster, s: Step, w: WorkerId)
    requires Board.Shaped(c.board) && Enabled(c, s)
    requires w in c.gone && w !in c.instances && forall r :: r in c.recoverers ==> w !in c.recoverers[r].todo
    ensures w in Next(c, s).gone && w !in Next(c, s).instances
    ensures forall r :: r in Next(c, s).recoverers ==> w !in Next(c, s).recoverers[r].todo
  {
    var d := Next(c, s);
    forall r | r in d.recoverers
      ensures w !in d.recoverers[r].todo
    {
      if s.Scan? && r == s.r {
        assert w !in Elements(s.stale);
      }
    }
  }

  /** A stranded row stays as it is, unless UnlockStaleTasks finds it stale. */
  lemma StaysStranded(c: Cluster, s: Step, w: WorkerId, id: TaskId)
    requires Stranded(c, w, id) && Enabled(c, s) && DeadOnly(c, s)
    ensures Stranded(Next(c, s), w, id) <==> !Unlocks(c, s, id)
  {
    StaysForgotten(c, s, w);
    StaysShaped(c, s);
    if !Unlocks(c, s, id) {
      if OnBoard(c, s) != [] {
        assert s.RecoverFirst? ==> c.recoverers[s.r].todo[0] in c.recoverers[s.r].todo;
        BoardKeepsHeld(c.board, OnBoard(c, s)[0], w, id);
      }
    } else {
      assert id !in RowsHeldBy(Next(c, s).board.tasks, w);
    }
  }

  /** Some step of the run from `k` on found the row stale. */
  ghost predicate UnlockedSince(c: Cluster, steps: seq<Step>, k: nat, id: TaskId)
    requires Valid(c, steps)
    decreases |steps|
  {
    k < |steps| &&
    (Unlocks(Exec(c, steps[..|steps| - 1]), steps[|steps| - 1], id) || UnlockedSince(c, steps[..|steps| - 1], k, id))
  }

  lemma {:induction false} Shortened(c: Cluster, steps: seq<Step>, k: nat)
    requires Valid(c, steps) && k <= |steps|
    ensures Valid(c, steps[..k])
    ensures k < |steps| ==> Enabled(Exec(c, steps[..k]), steps[k])
    ensures DeadOnlyRun(c, steps) && PromptRun(c, steps) ==> DeadOnlyRun(c, steps[..k]) && PromptRun(c, steps[..k])
    decreases |steps|
  {
    if k < |steps| {
      Shortened(c, steps[..|steps| - 1], k);
      assert steps[..|steps| - 1][..k] == steps[..k];
    } else {
      assert steps[..k] == steps;
    }
  }

  ghost predicate StrandedAt(c: Cluster, steps: seq<Step>, w: WorkerId, id: TaskId) {
    Valid(c, steps) && Stranded(Exec(c, steps), w, id)
  }

  ghost predicate WaitsForStale(c: Cluster, steps: seq<Step>, k: nat, w: WorkerId, id: TaskId)
    requires Valid(c, steps)
  {
    StrandedAt(c, steps, w, id) || UnlockedSince(c, steps, k, id)
  }

  lemma StrandedOneStepOn(c: Cluster, steps: seq<Step>, k: nat, w: WorkerId, id: TaskId)
    requires Valid(c, steps) && DeadOnlyRun(c, steps) && k < |steps|
    requires WaitsForStale(c, steps[..|steps| - 1], k, w, id)
    ensures WaitsForStale(c, steps, k, w, id)
  {
    var n := |steps| - 1;
    if Stranded(Exec(c, steps[..n]), w, id) {
      StaysStranded(Exec(c, steps[..n]), steps[n], w, id);
    }
  }

  lemma ShorterRun(c: Cluster, steps: seq<Step>, k: nat)
    requires Valid(c, steps) && DeadOnlyRun(c, steps) && k < |steps|
    ensures Valid(c, steps[..|steps| - 1]) && DeadOnlyRun(c, steps[..|steps| - 1])
    ensures steps[..|steps| - 1][..k] == steps[..k]
  {
  }

  lemma {:induction false} StrandedSince(c: Cluster, steps: seq<Step>, k: nat, w: WorkerId, id: TaskId)
    requires Valid(c, steps) && DeadOnlyRun(c, steps) && k <= |steps|
    requires StrandedAt(c, steps[..k], w, id)
    ensures WaitsForStale(c, steps, k, w, id)
    decreases |steps|
  {
    if k < |steps| {
      var n := |steps| - 1;
      ShorterRun(c, steps, k);
      StrandedSince(c, steps[..n], k, w, id);
      StrandedOneStepOn(c, steps, k, w, id);
    } else {
      assert steps[..k] == steps;
    }
  }

  lemma NextInRun(c: Cluster, steps: seq<Step>, k: nat)
    requires Valid(c, steps) && k < |steps|
    ensures Valid(c, steps[..k]) && Valid(c, steps[..k + 1])
    ensures Enabled(Exec(c, steps[..k]), steps[k])
    ensures Exec(c, steps[..k + 1]) == Next(Exec(c, steps[..k]), steps[k])
  {
    Shortened(c, steps, k);
    Shortened(c, steps, k + 1);
    assert steps[..k + 1][..k] == steps[..k];
  }

  /**
    A row that is held by a process when it leaves is, at every later point of the run, still running
    and locked by it, or UnlockStaleTasks has found it stale in between.
   */
  lemma OnlyStaleUnlockFrees(batch: nat, maxRetries: nat, now: Time, steps: seq<Step>, k: nat, w: WorkerId, id: TaskId)
    requires Valid(Empty(batch, maxRetries, now), steps) && k < |steps| && steps[k] == Leave(w)
    requires DeadOnlyRun(Empty(batch, maxRetries, now), steps) && PromptRun(Empty(batch, maxRetries, now), steps)
    requires Valid(Empty(batch, maxRetries, now), steps[..k])
    requires id in RowsHeldBy(Exec(Empty(batch, maxRetries, now), steps[..k]).board.tasks, w)
    ensures WaitsForStale(Empty(batch, maxRetries, now), steps, k + 1, w, id)
  {
    var c := Empty(batch, maxRetries, now);
    Shortened(c, steps, k);
    NextInRun(c, steps, k);
    AlwaysSafeSystem(batch, maxRetries, now, steps[..k]);
    SafeSystemParts(Exec(c, steps[..k]));
    LeaveStrands(Exec(c, steps[..k]), steps[k], w, id);
    StrandedSince(c, steps, k + 1, w, id);
  }

  /** And UnlockStaleTasks does find it, at any time later than its lock by more than the stale age. */
  lemma StaleUnlockFrees(c: Cluster, w: WorkerId, id: TaskId, at: Time, age: Time)
    requires Stranded(c, w, id) && Invariants.AllLocksKept(c.board) && at <= c.board.now
    ensures var s := Work(Board.UnlockStale(at, age));
            && Enabled(c, s)
            && (Unlocks(c, s, id) <==> c.board.tasks[id].lockedAt.value + age < at)
            && (Unlocks(c, s, id) ==> Board.Enabled(Next(c, s).board, Board.ClaimOne(0, c.board.now, id)))
  {
    RunningGoesStale(c.board.tasks, id, c.board.now, age, at);
    ReleasedIsClaimable(c.board.tasks[id], c.board.now, c.board.now);
  }
}
