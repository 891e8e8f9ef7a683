/** Recovery of dead instances leaves no orphaned task behind, however recoverers interleave or fail. */
module Recovery {
  import opened Wrappers
  import opened TaskTable
  import opened TaskLife
  import opened Cluster
  import Board
  import Invariants

  /** The premise: a scan finds only dead instances stale. The operator's override stays out. */
  ghost predicate DeadOnly(c: Cluster, s: Step) {
    && (s.Scan? ==> forall w :: w in s.stale ==> w in c.gone)
    && (s.Work? ==> !s.move.Override?)
  }

  ghost predicate Free(c: Cluster, w: WorkerId) {
    w in c.gone && RowsHeldBy(c.board.tasks, w) == {}
  }

  ghost predicate NoOrphans(c: Cluster) {
    && Board.Shaped(c.board)
    && (forall w :: w in c.cleared ==> Free(c, w))
    && (forall r, w :: r in c.recoverers && w in c.recoverers[r].todo ==> w in c.gone)
    && (forall r :: r in c.recoverers && c.recoverers[r].recovered ==>
          c.recoverers[r].todo != [] && Free(c, c.recoverers[r].todo[0]))
  }

  ghost predicate HeldCell(c: Cell, w: WorkerId) {
    c.row.Some? && c.row.value.status.Running? && c.row.value.lockedBy == Some(w)
  }

  lemma MoveHoldsNothingNew(c: Cell, mv: Move, w: WorkerId)
    requires Possible(c, mv) && !mv.Override? && (mv.Claim? ==> mv.worker != w)
    ensures HeldCell(Apply(c, mv), w) ==> HeldCell(c, w)
  {
  }

  /** Only a claim for a worker can add to the running rows that it holds. */
  lemma StepHoldsNothingNew(b: Board.Board, s: Board.Step, w: WorkerId)
    requires Board.Shaped(b) && Board.Enabled(b, s) && !s.Override? && !ClaimsFor(s, w)
    ensures RowsHeldBy(Board.Next(b, s).tasks, w) <= RowsHeldBy(b.tasks, w)
  {
    Board.StaysShaped(b, s);
    var d := Board.Next(b, s);
    forall id | id in RowsHeldBy(d.tasks, w)
      ensures id in RowsHeldBy(b.tasks, w)
    {
      assert HeldCell(Board.At(d, id), w);
      if id in b.life {
        Board.Projection(b, s, id);
        MoveHoldsNothingNew(Board.At(b, id), Board.MoveOf(b, s, id), w);
      } else {
        Invariants.Birth(b, s, id);
      }
    }
  }

  lemma RecoverFreesAll(b: Board.Board, w: WorkerId)
    requires Board.Shaped(b)
    ensures RowsHeldBy(Board.Next(b, Board.Recover(w)).tasks, w) == {}
  {
  }

  lemma StaysFree(c: Cluster, s: Step, w: WorkerId)
    requires Board.Shaped(c.board) && Enabled(c, s) && DeadOnly(c, s) && Free(c, w)
    ensures Free(Next(c, s), w)
  {
    StaysShaped(c, s);
    var share := OnBoard(c, s);
    if share != [] {
      StepHoldsNothingNew(c.board, share[0], w);
    }
  }

  lemma KeepsNoOrphans(c: Cluster, s: Step)
    requires NoOrphans(c) && Enabled(c, s) && DeadOnly(c, s)
    ensures NoOrphans(Next(c, s))
  {
    var d := Next(c, s);
    StaysShaped(c, s);
    if s.RecoverFirst? && s.ok {
      RecoverFreesAll(c.board, c.recoverers[s.r].todo[0]);
    }
    forall r | r in d.recoverers
      ensures forall w :: w in d.recoverers[r].todo ==> w in d.gone
      ensures d.recoverers[r].recovered ==> d.recoverers[r].todo != [] && Free(d, d.recoverers[r].todo[0])
    {
      if r in c.recoverers {
        assert forall w :: w in c.recoverers[r].todo[..] ==> w in c.gone;
        if c.recoverers[r].recovered {
          StaysFree(c, s, c.recoverers[r].todo[0]);
        }
      }
    }
    forall w | w in d.cleared
      ensures Free(d, w)
    {
      if w in c.cleared {
        StaysFree(c, s, w);
      } else {
        assert s.DeregisterFirst? && w == c.recoverers[s.r].todo[0];
        StaysFree(c, s, w);
      }
    }
  }

  // ---------------------------------------------------------------- over runs

  ghost predicate DeadOnlyRun(c: Cluster, steps: seq<Step>)
    requires Valid(c, steps)
    decreases |steps|
  {
    steps != [] ==>
      var n := |steps| - 1;
      DeadOnlyRun(c, steps[..n]) && DeadOnly(Exec(c, steps[..n]), steps[n])
  }

  lemma {:induction false} AlwaysNoOrphans(batch: nat, maxRetries: nat, now: Time, steps: seq<Step>)
    requires Valid(Empty(batch, maxRetries, now), steps) && DeadOnlyRun(Empty(batch, maxRetries, now), steps)
    ensures NoOrphans(Exec(Empty(batch, maxRetries, now), steps))
    decreases |steps|
  {
    if steps != [] {
      var n := |steps| - 1;
      AlwaysNoOrphans(batch, maxRetries, now, steps[..n]);
      KeepsNoOrphans(Exec(Empty(batch, maxRetries, now), steps[..n]), steps[n]);
    }
  }

  /**
    Once any recoverer has deregistered an instance, no running row is locked by it, ever after;
    and recovering it again changes nothing.
   */
  lemma NoOrphanLeft(batch: nat, maxRetries: nat, now: Time, steps: seq<Step>, w: WorkerId)
    requires Valid(Empty(batch, maxRetries, now), steps) && DeadOnlyRun(Empty(batch, maxRetries, now), steps)
    requires w in Exec(Empty(batch, maxRetries, now), steps).cleared
    ensures var b := Exec(Empty(batch, maxRetries, now), steps).board;
            && (forall id :: id in b.tasks && b.tasks[id].status.Running? ==> b.tasks[id].lockedBy != Some(w))
            && Board.Next(b, Board.Recover(w)) == b
  {
    AlwaysNoOrphans(batch, maxRetries, now, steps);
    var b := Exec(Empty(batch, maxRetries, now), steps).board;
    assert RowsHeldBy(b.tasks, w) == {};
    forall id | id in b.tasks && b.tasks[id].status.Running?
      ensures b.tasks[id].lockedBy != Some(w)
    {
      assert id !in RowsHeldBy(b.tasks, w);
    }
    RecoverNothing(b, w);
  }

  lemma RecoverNothing(b: Board.Board, w: WorkerId)
    requires Board.Shaped(b) && RowsHeldBy(b.tasks, w) == {}
    ensures Board.Next(b, Board.Recover(w)) == b
  {
    assert ReleaseRows(b.tasks, {}) == b.tasks;
    assert Board.Release(b, {}).life == b.life;
  }
}
