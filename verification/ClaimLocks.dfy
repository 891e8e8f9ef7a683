/**
  ClaimTasks is two statements in one transaction: a SELECT that locks the rows it returns and
  skips rows locked by others, and an UPDATE by id followed by COMMIT. Here the two are separate
  steps under row locks (PostgreSQL 16 manual, sections 13.2.1 and 13.3.2), interleaved with other
  batches and with the single-row statements, which lock a row before they write it. They refine the
  board's atomic ClaimBatch.
 */
module ClaimLocks {
  import opened Oldest
  import opened TaskTable
  import Board

  /**
    An open batch claim: the rows its SELECT returned and locked. `before` and `locked` record the
    table and the locks of others at that moment.
   */
  datatype Tx = Tx(worker: WorkerId, at: Time, ids: seq<TaskId>, rows: seq<Task>, before: Tasks, locked: set<TaskId>)

  /** `busy` are the rows locked by single-row statements, `born` the creation time of every id ever inserted. */
  datatype Session = Session(tasks: Tasks, open: map<nat, Tx>, busy: set<TaskId>, born: map<TaskId, Time>, limit: nat)

  datatype Step =
    | Select(tx: nat, worker: WorkerId, at: Time, ids: seq<TaskId>)
    | Commit(tx: nat)
    | Rollback(tx: nat)
    | Lock(id: TaskId)
    | Unlock(id: TaskId)
    | ClaimOne(worker: WorkerId, at: Time, id: TaskId)
    | Write(rows: Tasks, gone: set<TaskId>)
    | Insert(id: TaskId, row: Task)

  ghost predicate Holds(s: Session, tx: nat, id: TaskId) {
    tx in s.open && id in s.open[tx].ids
  }

  function Locks(s: Session): (ids: set<TaskId>)
    ensures forall id :: id in ids <==> exists tx :: Holds(s, tx, id)
  {
    var ids := set tx, id | tx in s.open && id in s.open[tx].ids :: id;
    assert forall id :: id in ids ==> exists tx :: Holds(s, tx, id) by {
      forall id | id in ids
        ensures exists tx :: Holds(s, tx, id)
      {
        var tx :| tx in s.open && id in s.open[tx].ids;
        assert Holds(s, tx, id);
      }
    }
    ids
  }

  /** Every row that some open statement or transaction has locked. */
  function Locked(s: Session): set<TaskId> {
    Locks(s) + s.busy
  }

  /** A statement that writes a row has locked it, and waits while another has. */
  ghost predicate Enabled(s: Session, step: Step) {
    match step
    case Select(tx, _, at, ids) => tx !in s.open && OldestFirst(Claimable(s.tasks, at, Locked(s)), s.limit, ids)
    case Commit(tx) => tx in s.open
    case Rollback(tx) => tx in s.open
    case Lock(id) => id in s.tasks && id !in Locked(s)
    case Unlock(id) => id in s.busy
    case ClaimOne(_, at, id) => id in s.busy && id in s.tasks && Eligible(s.tasks[id], at)
    case Write(rows, gone) =>
      && rows.Keys <= s.busy && rows.Keys <= s.tasks.Keys && gone <= s.busy
      && (forall id :: id in rows ==> rows[id].createdAt == s.tasks[id].createdAt)
    case Insert(id, _) => id !in s.born
  }

  ghost function Next(s: Session, step: Step): Session
    requires Enabled(s, step)
  {
    match step
    case Select(tx, worker, at, ids) =>
      s.(open := s.open[tx := Tx(worker, at, ids, Rows(s.tasks, ids), s.tasks, Locked(s))])
    case Commit(tx) =>
      s.(tasks := ClaimRows(s.tasks, Elements(s.open[tx].ids), s.open[tx].worker, s.open[tx].at),
         open := s.open - {tx})
    case Rollback(tx) => s.(open := s.open - {tx})
    case Lock(id) => s.(busy := s.busy + {id})
    case Unlock(id) => s.(busy := s.busy - {id})
    case ClaimOne(worker, at, id) => s.(tasks := s.tasks[id := Claimed(s.tasks[id], worker, at)], busy := s.busy - {id})
    case Write(rows, gone) => s.(tasks := (s.tasks - gone) + rows, busy := s.busy - gone - rows.Keys)
    case Insert(id, row) => s.(tasks := s.tasks[id := row], born := s.born[id := row.createdAt])
  }

  function Rows(tasks: Tasks, ids: seq<TaskId>): (rows: seq<Task>)
    requires forall i :: 0 <= i < |ids| ==> ids[i] in tasks
    ensures |rows| == |ids|
    ensures forall i :: 0 <= i < |ids| ==> rows[i] == tasks[ids[i]]
  {
    seq(|ids|, i requires 0 <= i < |ids| => tasks[ids[i]])
  }

  // ---------------------------------------------------------------- the invariant

  /** The rows that the SELECT could choose from: eligible then, and locked by no one. */
  function Seen(t: Tx): map<TaskId, Time> {
    Claimable(t.before, t.at, t.locked)
  }

  /** An open claim still describes the table: its rows are unchanged, and they are the oldest of what it saw. */
  ghost predicate Current(tasks: Tasks, t: Tx, limit: nat) {
    && OldestFirst(Seen(t), limit, t.ids)
    && |t.rows| == |t.ids|
    && (forall i :: 0 <= i < |t.ids| ==>
          && t.ids[i] in t.before && Eligible(t.before[t.ids[i]], t.at)
          && t.rows[i] == t.before[t.ids[i]]
          && t.ids[i] in tasks && tasks[t.ids[i]] == t.rows[i])
  }

  ghost predicate StampsKept(tasks: Tasks, born: map<TaskId, Time>) {
    forall id :: id in tasks ==> id in born && tasks[id].createdAt == born[id]
  }

  ghost predicate Inv(s: Session) {
    && (forall tx :: tx in s.open ==> Current(s.tasks, s.open[tx], s.limit) && StampsKept(s.open[tx].before, s.born))
    && (forall a, b, id :: Holds(s, a, id) && Holds(s, b, id) ==> a == b)
    && s.busy !! Locks(s)
    && StampsKept(s.tasks, s.born)
  }

  lemma SelectKeepsInv(s: Session, step: Step)
    requires Inv(s) && Enabled(s, step) && step.Select?
    ensures Inv(Next(s, step))
  {
    var d := Next(s, step);
    var t := d.open[step.tx];
    assert forall i :: 0 <= i < |t.ids| ==> t.ids[i] in Seen(t);
    assert Current(d.tasks, t, d.limit);
    forall a, b, id | Holds(d, a, id) && Holds(d, b, id)
      ensures a == b
    {
      assert a != step.tx ==> Holds(s, a, id);
      assert b != step.tx ==> Holds(s, b, id);
    }
    forall id | id in Locks(d)
      ensures id !in d.busy
    {
      var tx :| Holds(d, tx, id);
      assert tx != step.tx ==> Holds(s, tx, id);
    }
  }

  /** The locks of an open claim keep its rows as they are. */
  lemma RowStays(s: Session, step: Step, tx: nat, id: TaskId)
    requires Inv(s) && Enabled(s, step) && !step.Select? && Holds(s, tx, id) && id in s.tasks && id in s.born
    requires step.Commit? ==> step.tx != tx
    ensures id in Next(s, step).tasks && Next(s, step).tasks[id] == s.tasks[id]
  {
    assert id in Locks(s) && id !in s.busy;
    if step.Commit? {
      assert !Holds(s, step.tx, id);
    }
  }

  lemma OthersKeepRows(s: Session, step: Step, tx: nat)
    requires Inv(s) && Enabled(s, step) && !step.Select? && tx in s.open && (step.Commit? ==> step.tx != tx)
    ensures Current(Next(s, step).tasks, s.open[tx], s.limit)
  {
    var t := s.open[tx];
    forall i | 0 <= i < |t.ids|
      ensures t.ids[i] in Next(s, step).tasks && Next(s, step).tasks[t.ids[i]] == t.rows[i]
    {
      assert Holds(s, tx, t.ids[i]);
      RowStays(s, step, tx, t.ids[i]);
    }
  }

  lemma OthersKeepInv(s: Session, step: Step)
    requires Inv(s) && Enabled(s, step) && !step.Select?
    ensures Inv(Next(s, step))
  {
    var d := Next(s, step);
    forall tx | tx in d.open
      ensures Current(d.tasks, d.open[tx], d.limit) && StampsKept(d.open[tx].before, d.born)
    {
      OthersKeepRows(s, step, tx);
    }
    OthersKeepLocks(s, step);
  }

  lemma OthersKeepLocks(s: Session, step: Step)
    requires Inv(s) && Enabled(s, step) && !step.Select?
    ensures forall a, b, id :: Holds(Next(s, step), a, id) && Holds(Next(s, step), b, id) ==> a == b
    ensures Next(s, step).busy !! Locks(Next(s, step))
  {
    var d := Next(s, step);
    forall tx, id | Holds(d, tx, id)
      ensures Holds(s, tx, id)
    {
    }
    forall id | id in Locks(d)
      ensures id !in d.busy
    {
      var tx :| Holds(d, tx, id);
      assert Holds(s, tx, id) && id in Locks(s);
    }
  }

  lemma KeepsInv(s: Session, step: Step)
    requires Inv(s) && Enabled(s, step)
    ensures Inv(Next(s, step))
  {
    if step.Select? {
      SelectKeepsInv(s, step);
    } else {
      OthersKeepInv(s, step);
    }
  }

  // ---------------------------------------------------------------- the atomic machine

  /** The atomic counterpart. `Claim` is the board's ClaimBatch; `Nothing` is a stutter. */
  datatype Atomic =
    | Nothing
    | Claim(worker: WorkerId, at: Time, skip: set<TaskId>, ids: seq<TaskId>)
    | One(worker: WorkerId, at: Time, id: TaskId)
    | Other(rows: Tasks, gone: set<TaskId>)

  ghost predicate Can(tasks: Tasks, limit: nat, a: Atomic) {
    match a
    case Claim(_, at, skip, ids) => OldestFirst(Claimable(tasks, at, skip), limit, ids)
    case One(_, at, id) => id in tasks && Eligible(tasks[id], at)
    case _ => true
  }

  function Do(tasks: Tasks, a: Atomic): Tasks
    requires a.One? ==> a.id in tasks
  {
    match a
    case Nothing => tasks
    case Claim(worker, at, skip, ids) => ClaimRows(tasks, Elements(ids), worker, at)
    case One(worker, at, id) => tasks[id := Claimed(tasks[id], worker, at)]
    case Other(rows, gone) => (tasks - gone) + rows
  }

  /** The atomic claim is the board's step, with the same guard and the same effect on the table. */
  lemma ClaimIsBoardStep(b: Board.Board, worker: WorkerId, at: Time, skip: set<TaskId>, ids: seq<TaskId>)
    requires Board.Shaped(b) && at <= b.now
    ensures var s := Board.ClaimBatch(worker, at, skip, ids);
            && (Board.Enabled(b, s) <==> Can(b.tasks, b.batch, Claim(worker, at, skip, ids)))
            && (Board.Enabled(b, s) ==> Board.Next(b, s).tasks == Do(b.tasks, Claim(worker, at, skip, ids)))
  {
  }

  /** Rows of the table that the claim could not choose when it selected. */
  function Missed(tasks: Tasks, t: Tx): set<TaskId> {
    set id | id in tasks && id !in Seen(t)
  }

  function Image(s: Session, step: Step): Atomic
    requires step.Commit? ==> step.tx in s.open
  {
    match step
    case Commit(tx) =>
      var t := s.open[tx];
      Claim(t.worker, t.at, Missed(s.tasks, t), t.ids)
    case ClaimOne(worker, at, id) => One(worker, at, id)
    case Write(rows, gone) => Other(rows, gone)
    case Insert(id, row) => Other(map[id := row], {})
    case _ => Nothing
  }

  /**
    The commit is an atomic oldest-first claim among the rows the SELECT could choose; the rows it
    returned are the rows as they are at commit, and all of them are still eligible.
   */
  lemma CommitIsAtomic(s: Session, tx: nat)
    requires Inv(s) && tx in s.open
    ensures Can(s.tasks, s.limit, Image(s, Commit(tx)))
    ensures var t := s.open[tx];
            && OldestFirst(Claimable(t.before, t.at, t.locked), s.limit, t.ids)
            && |t.rows| == |t.ids|
            && (forall i :: 0 <= i < |t.ids| ==>
                  t.ids[i] in s.tasks && s.tasks[t.ids[i]] == t.rows[i] && Eligible(s.tasks[t.ids[i]], t.at))
  {
    var t := s.open[tx];
    assert Current(s.tasks, t, s.limit);
    var fewer := Claimable(s.tasks, t.at, Missed(s.tasks, t));
    forall id | id in fewer
      ensures id in Seen(t) && fewer[id] == Seen(t)[id]
    {
      assert s.tasks[id].createdAt == s.born[id] == t.before[id].createdAt;
    }
    SurvivesShrinking(Seen(t), fewer, s.limit, t.ids);
  }

  lemma WriteRefines(s: Session, step: Step)
    requires Enabled(s, step) && !step.Commit?
    ensures Can(s.tasks, s.limit, Image(s, step))
    ensures Next(s, step).tasks == Do(s.tasks, Image(s, step))
    ensures Next(s, step).limit == s.limit
  {
    match step
    case ClaimOne(_, _, _) =>
    case Insert(id, row) => assert s.tasks - {} == s.tasks;
    case _ =>
  }

  lemma StepRefines(s: Session, step: Step)
    requires Inv(s) && Enabled(s, step)
    ensures Can(s.tasks, s.limit, Image(s, step))
    ensures Next(s, step).tasks == Do(s.tasks, Image(s, step))
    ensures Next(s, step).limit == s.limit
  {
    match step
    case Commit(tx) => CommitIsAtomic(s, tx);
    case _ => WriteRefines(s, step);
  }

  /** Batches that are open together never share a row. */
  lemma OpenBatchesDisjoint(s: Session, a: nat, b: nat)
    requires Inv(s) && a in s.open && b in s.open && a != b
    ensures Elements(s.open[a].ids) !! Elements(s.open[b].ids)
  {
    assert forall id :: id in s.open[a].ids ==> Holds(s, a, id);
    assert forall id :: id in s.open[b].ids ==> Holds(s, b, id);
  }

  // ---------------------------------------------------------------- over runs

  ghost predicate Goes(s: Session, step: Step, d: Session) {
    Enabled(s, step) && d == Next(s, step)
  }

  /** The states before, between and after the steps; at the start nothing is open or locked. */
  ghost predicate Run(states: seq<Session>, steps: seq<Step>) {
    && |states| == |steps| + 1
    && Inv(states[0]) && states[0].open == map[] && states[0].busy == {}
    && (forall k :: 0 <= k < |steps| ==> Goes(states[k], steps[k], states[k + 1]))
  }

  lemma {:induction false} AlwaysInv(states: seq<Session>, steps: seq<Step>, k: nat)
    requires Run(states, steps) && k < |states|
    ensures Inv(states[k]) && states[k].limit == states[0].limit
    decreases k
  {
    if k > 0 {
      AlwaysInv(states, steps, k - 1);
      assert Goes(states[k - 1], steps[k - 1], states[k]);
      KeepsInv(states[k - 1], steps[k - 1]);
      StepRefines(states[k - 1], steps[k - 1]);
    }
  }

  /** Step `j` selected what the transaction holds, from the table and under the locks of that moment. */
  ghost predicate SelectedAt(s: Session, step: Step, tx: nat, t: Tx) {
    && step == Select(tx, t.worker, t.at, t.ids)
    && t.before == s.tasks && t.locked == Locked(s)
  }

  lemma {:induction false} OpenSince(states: seq<Session>, steps: seq<Step>, k: nat, tx: nat) returns (j: nat)
    requires Run(states, steps) && k < |states| && tx in states[k].open
    ensures j < k && SelectedAt(states[j], steps[j], tx, states[k].open[tx])
    decreases k
  {
    assert Goes(states[k - 1], steps[k - 1], states[k]);
    if steps[k - 1].Select? && steps[k - 1].tx == tx {
      return k - 1;
    }
    j := OpenSince(states, steps, k - 1, tx);
  }

  /** Why a select could not return a row. */
  ghost predicate Unavailable(s: Session, id: TaskId, at: Time) {
    id in Locked(s) || id !in s.tasks || !Eligible(s.tasks[id], at)
  }

  /**
    The claim that commits at `k` selected at `j`: its batch are the oldest of the rows that were
    eligible and unlocked then, and it skips exactly the rows that were locked, absent or ineligible.
   */
  ghost predicate Explains(states: seq<Session>, steps: seq<Step>, j: nat, k: nat)
    requires |states| == |steps| + 1 && j < k < |steps|
  {
    && steps[k].Commit? && steps[k].tx in states[k].open
    && var claim := Image(states[k], steps[k]);
       && steps[j] == Select(steps[k].tx, claim.worker, claim.at, claim.ids)
       && OldestFirst(Claimable(states[j].tasks, claim.at, Locked(states[j])), states[j].limit, claim.ids)
       && (forall id :: id in claim.skip <==> id in states[k].tasks && Unavailable(states[j], id, claim.at))
  }

  lemma CommitExplained(states: seq<Session>, steps: seq<Step>, k: nat) returns (j: nat)
    requires Run(states, steps) && k < |steps| && steps[k].Commit?
    ensures j < k && Explains(states, steps, j, k)
  {
    assert Goes(states[k], steps[k], states[k + 1]);
    j := OpenSince(states, steps, k, steps[k].tx);
    assert Goes(states[j], steps[j], states[j + 1]);
  }

  /**
    Every interleaving of two-statement claims, single claims and other writes is, step by step, a run
    of the atomic machine, and each of its batch claims is explained by the state at its select.
   */
  lemma RunRefines(states: seq<Session>, steps: seq<Step>, k: nat)
    requires Run(states, steps) && k < |steps|
    ensures Goes(states[k], steps[k], states[k + 1])
    ensures Can(states[k].tasks, states[0].limit, Image(states[k], steps[k]))
    ensures states[k + 1].tasks == Do(states[k].tasks, Image(states[k], steps[k]))
    ensures Image(states[k], steps[k]).Claim? <==> steps[k].Commit?
    ensures steps[k].Commit? ==> exists j :: 0 <= j < k && Explains(states, steps, j, k)
  {
    assert Goes(states[k], steps[k], states[k + 1]);
    AlwaysInv(states, steps, k);
    StepRefines(states[k], steps[k]);
    if steps[k].Commit? {
      var j := CommitExplained(states, steps, k);
    }
  }
}
