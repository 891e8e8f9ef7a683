/**
  The repositories beside the machines. A mirror runs a store, an executor and a producer, and keeps
  a board and a bus as ghosts. Every call of it, failed calls included, is a run of zero, one or two
  steps of the machine, and leaves the real tables equal to the machine's.
 */
module Bridge {
  import opened Wrappers
  import opened Oldest
  import opened TaskTable
  import opened Decision
  import opened TaskLife
  import opened Board
  import opened Guarantees
  import opened Database
  import Outbox
  import Executor
  import Publisher

  lemma BatchEffect(b: Board, worker: WorkerId, at: Time, skip: set<TaskId>, ids: seq<TaskId>, i: nat)
    requires Shaped(b) && Enabled(b, ClaimBatch(worker, at, skip, ids)) && i < |ids|
    ensures ids[i] in b.tasks && ids[i] in b.life
    ensures ids[i] in Next(b, ClaimBatch(worker, at, skip, ids)).live
    ensures Next(b, ClaimBatch(worker, at, skip, ids)).live[ids[i]] ==
            b.live[ids[i]][b.life[ids[i]].claims := Envelope(worker, b.tasks[ids[i]], Unsent)]
  {
    assert ids[i] in Claimable(b.tasks, at, skip);
  }

  lemma WriteEffect(b: Board, id: TaskId, n: nat, known: set<string>, failure: Option<string>, next: Time)
    requires Shaped(b) && Enabled(b, Step.Settle(id, n, known, failure, next))
    ensures var verdict := Decide(known, b.live[id][n].task, failure);
            var d := Next(b, Step.Settle(id, n, known, failure, next));
            d.tasks == Write(b.tasks, id, verdict, next) && d.dead == b.dead
  {
  }

  /** Where a run leads, if it is one. */
  ghost function Reached(b: Board, steps: seq<Step>): Option<Board> {
    if Guarantees.Valid(b, steps) then Some(Exec(b, steps)) else None
  }

  ghost function ReachedBus(b: Outbox.Bus, step: Outbox.Step): Option<Outbox.Bus> {
    if Outbox.Enabled(b, step) then Some(Outbox.Next(b, step)) else None
  }

  ghost function BusRun(b: Outbox.Bus, steps: seq<Outbox.Step>): Option<Outbox.Bus> {
    if steps == [] then Some(b)
    else
      var n := |steps| - 1;
      var before := BusRun(b, steps[..n]);
      if before.Some? then ReachedBus(before.value, steps[n]) else None
  }

  lemma {:induction false} BusRunAppends(b: Outbox.Bus, first: seq<Outbox.Step>, p: Outbox.Bus,
                                         second: seq<Outbox.Step>)
    requires BusRun(b, first) == Some(p)
    ensures BusRun(b, first + second) == BusRun(p, second)
    decreases |second|
  {
    if second == [] {
      assert first + second == first;
    } else {
      var n := |second| - 1;
      BusRunAppends(b, first, p, second[..n]);
      assert (first + second)[..|first + second| - 1] == first + second[..n];
    }
  }

  function Publishes(cycle: nat, outcomes: seq<Publisher.Outcome>): (steps: seq<Outbox.Step>)
    ensures |steps| == |outcomes|
    ensures forall i :: 0 <= i < |outcomes| ==> steps[i] == Outbox.Publish(cycle, outcomes[i].stored, outcomes[i].acked)
  {
    seq(|outcomes|, i requires 0 <= i < |outcomes| => Outbox.Publish(cycle, outcomes[i].stored, outcomes[i].acked))
  }

  /** The bus after the first `k` publishes of a cycle. */
  ghost function PublishedBus(b: Outbox.Bus, cycle: nat, ids: seq<Outbox.EventId>, tasks: seq<TaskId>,
                              outcomes: seq<Publisher.Outcome>, k: nat): Outbox.Bus
    requires |ids| == |tasks| == |outcomes| && k <= |ids|
  {
    b.(log := b.log + Publisher.Stored(tasks[..k], outcomes[..k]),
       cycles := b.cycles[cycle := Outbox.Cycle(ids, tasks, k, Publisher.Acked(ids[..k], outcomes[..k]))])
  }

  lemma PublishedNone(b: Outbox.Bus, cycle: nat, ids: seq<Outbox.EventId>, tasks: seq<TaskId>,
                      outcomes: seq<Publisher.Outcome>)
    requires |ids| == |tasks| == |outcomes|
    requires cycle in b.cycles && b.cycles[cycle] == Outbox.Cycle(ids, tasks, 0, [])
    ensures PublishedBus(b, cycle, ids, tasks, outcomes, 0) == b
  {
    assert ids[..0] == [] && tasks[..0] == [] && outcomes[..0] == [];
    assert b.log + [] == b.log && b.cycles[cycle := b.cycles[cycle]] == b.cycles;
  }

  lemma PublishedOneMore(b: Outbox.Bus, cycle: nat, ids: seq<Outbox.EventId>, tasks: seq<TaskId>,
                         outcomes: seq<Publisher.Outcome>, k: nat)
    requires |ids| == |tasks| == |outcomes| && k < |ids| && (outcomes[k].acked ==> outcomes[k].stored)
    ensures ReachedBus(PublishedBus(b, cycle, ids, tasks, outcomes, k),
                       Outbox.Publish(cycle, outcomes[k].stored, outcomes[k].acked))
            == Some(PublishedBus(b, cycle, ids, tasks, outcomes, k + 1))
  {
    assert ids[..k + 1][..k] == ids[..k] && tasks[..k + 1][..k] == tasks[..k];
    assert outcomes[..k + 1][..k] == outcomes[..k];
    var p, q := PublishedBus(b, cycle, ids, tasks, outcomes, k), PublishedBus(b, cycle, ids, tasks, outcomes, k + 1);
    assert q.log == if outcomes[k].stored then p.log + [tasks[k]] else p.log;
    assert q.cycles[cycle].acked ==
           if outcomes[k].acked then p.cycles[cycle].acked + [ids[k]] else p.cycles[cycle].acked;
    assert q.cycles == p.cycles[cycle := q.cycles[cycle]];
  }

  lemma {:induction false} PublishesRun(b: Outbox.Bus, cycle: nat, ids: seq<Outbox.EventId>, tasks: seq<TaskId>,
                                        outcomes: seq<Publisher.Outcome>, k: nat)
    requires |ids| == |tasks| == |outcomes| && k <= |ids|
    requires cycle in b.cycles && b.cycles[cycle] == Outbox.Cycle(ids, tasks, 0, [])
    requires forall i :: 0 <= i < |outcomes| && outcomes[i].acked ==> outcomes[i].stored
    ensures BusRun(b, Publishes(cycle, outcomes)[..k]) == Some(PublishedBus(b, cycle, ids, tasks, outcomes, k))
    decreases k
  {
    var steps := Publishes(cycle, outcomes);
    if k == 0 {
      PublishedNone(b, cycle, ids, tasks, outcomes);
    } else {
      PublishesRun(b, cycle, ids, tasks, outcomes, k - 1);
      PublishedOneMore(b, cycle, ids, tasks, outcomes, k - 1);
      assert steps[..k][..k - 1] == steps[..k - 1];
    }
  }

  /** How a cycle ends: marked and purged, marked, or abandoned. */
  function Endings(cycle: nat, acked: seq<Outbox.EventId>, at: Time, later: Time, retention: Time, faults: set<Call>)
    : seq<Outbox.Step>
  {
    if acked != [] && Change in faults then [Outbox.Abandon(cycle)]
    else [Outbox.MarkAll(cycle, at)] + if Remove in faults then [] else [Outbox.Sweep(later, retention)]
  }

  lemma OneStepRuns(b: Outbox.Bus, s: Outbox.Step)
    ensures BusRun(b, [s]) == ReachedBus(b, s)
  {
    assert [s][..0] == [];
    assert BusRun(b, []) == Some(b);
  }

  lemma MarkThenSweepRuns(b: Outbox.Bus, cycle: nat, at: Time, later: Time, retention: Time)
    requires cycle in b.cycles && b.cycles[cycle].pos == |b.cycles[cycle].ids|
    ensures var marked := Outbox.Mark(b.outbox, Elements(b.cycles[cycle].acked), at);
            BusRun(b, [Outbox.MarkAll(cycle, at)] + [Outbox.Sweep(later, retention)]) ==
            Some(b.(outbox := Outbox.Purge(marked, later, retention), cycles := b.cycles - {cycle}))
  {
    var c := Outbox.Next(b, Outbox.MarkAll(cycle, at));
    OneStepRuns(b, Outbox.MarkAll(cycle, at));
    OneStepRuns(c, Outbox.Sweep(later, retention));
    BusRunAppends(b, [Outbox.MarkAll(cycle, at)], c, [Outbox.Sweep(later, retention)]);
  }

  lemma EndingsRun(b: Outbox.Bus, cycle: nat, at: Time, later: Time, retention: Time, faults: set<Call>)
    requires cycle in b.cycles && b.cycles[cycle].pos == |b.cycles[cycle].ids|
    ensures var acked := b.cycles[cycle].acked;
            BusRun(b, Endings(cycle, acked, at, later, retention, faults)) ==
            Some(b.(outbox := Publisher.Left(b.outbox, acked, at, later, retention, faults),
                    cycles := b.cycles - {cycle}))
  {
    var acked, mark := b.cycles[cycle].acked, [Outbox.MarkAll(cycle, at)];
    if acked != [] && Change in faults {
      OneStepRuns(b, Outbox.Abandon(cycle));
    } else if Remove in faults {
      OneStepRuns(b, Outbox.MarkAll(cycle, at));
      assert mark + [] == mark;
    } else {
      MarkThenSweepRuns(b, cycle, at, later, retention);
    }
  }

  /** A publisher's cycle as steps of the bus. */
  function CycleSteps(cycle: nat, limit: nat, picked: seq<Outbox.EventId>, outcomes: seq<Publisher.Outcome>, at: Time,
                      later: Time, retention: Time, faults: set<Call>): seq<Outbox.Step>
    requires |picked| == |outcomes|
  {
    [Outbox.Fetch(cycle, limit, picked)] + Publishes(cycle, outcomes)
    + Endings(cycle, Publisher.Acked(picked, outcomes), at, later, retention, faults)
  }

  lemma AllPublish(b: Outbox.Bus, cycle: nat, ids: seq<Outbox.EventId>, tasks: seq<TaskId>,
                   outcomes: seq<Publisher.Outcome>)
    requires |ids| == |tasks| == |outcomes|
    requires cycle in b.cycles && b.cycles[cycle] == Outbox.Cycle(ids, tasks, 0, [])
    requires forall i :: 0 <= i < |outcomes| && outcomes[i].acked ==> outcomes[i].stored
    ensures BusRun(b, Publishes(cycle, outcomes)) ==
            Some(b.(log := b.log + Publisher.Stored(tasks, outcomes),
                    cycles := b.cycles[cycle := Outbox.Cycle(ids, tasks, |ids|, Publisher.Acked(ids, outcomes))]))
  {
    var n := |ids|;
    PublishesRun(b, cycle, ids, tasks, outcomes, n);
    assert ids[..n] == ids && tasks[..n] == tasks && outcomes[..n] == outcomes;
    assert Publishes(cycle, outcomes)[..n] == Publishes(cycle, outcomes);
  }

  /** The first half of a cycle: the batch is read and published. */
  lemma BatchRuns(b: Outbox.Bus, fetch: seq<Outbox.Step>, cycle: nat, ids: seq<Outbox.EventId>, tasks: seq<TaskId>,
                  outcomes: seq<Publisher.Outcome>)
    requires |ids| == |tasks| == |outcomes|
    requires BusRun(b, fetch) == Some(b.(cycles := b.cycles[cycle := Outbox.Cycle(ids, tasks, 0, [])]))
    requires forall i :: 0 <= i < |outcomes| && outcomes[i].acked ==> outcomes[i].stored
    ensures BusRun(b, fetch + Publishes(cycle, outcomes)) ==
            Some(b.(log := b.log + Publisher.Stored(tasks, outcomes),
                    cycles := b.cycles[cycle := Outbox.Cycle(ids, tasks, |ids|, Publisher.Acked(ids, outcomes))]))
  {
    var begun, done := Outbox.Cycle(ids, tasks, 0, []), Outbox.Cycle(ids, tasks, |ids|, Publisher.Acked(ids, outcomes));
    var c := b.(cycles := b.cycles[cycle := begun]);
    AllPublish(c, cycle, ids, tasks, outcomes);
    BusRunAppends(b, fetch, c, Publishes(cycle, outcomes));
    assert c.cycles[cycle := done] == b.cycles[cycle := done];
  }

  lemma FetchReaches(b: Outbox.Bus, cycle: nat, limit: nat, picked: seq<Outbox.EventId>)
    requires cycle !in b.cycles && OldestFirst(Outbox.Unpublished(b.outbox), limit, picked)
    requires forall i :: 0 <= i < |picked| ==> picked[i] in b.outbox
    ensures BusRun(b, [Outbox.Fetch(cycle, limit, picked)]) ==
            Some(b.(cycles := b.cycles[cycle := Outbox.Cycle(picked, Publisher.TasksOf(b.outbox, picked), 0, [])]))
  {
    var fetch := Outbox.Fetch(cycle, limit, picked);
    assert [fetch][..0] == [] && BusRun(b, []) == Some(b);
    assert Outbox.Next(b, fetch).cycles[cycle].tasks == Publisher.TasksOf(b.outbox, picked);
  }

  lemma CycleRuns(b: Outbox.Bus, cycle: nat, limit: nat, picked: seq<Outbox.EventId>, outcomes: seq<Publisher.Outcome>,
                  at: Time, later: Time, retention: Time, faults: set<Call>)
    requires |picked| == |outcomes| && cycle !in b.cycles
    requires OldestFirst(Outbox.Unpublished(b.outbox), limit, picked)
    requires forall i :: 0 <= i < |outcomes| && outcomes[i].acked ==> outcomes[i].stored
    ensures forall i :: 0 <= i < |picked| ==> picked[i] in b.outbox
    ensures BusRun(b, CycleSteps(cycle, limit, picked, outcomes, at, later, retention, faults)) ==
            Some(b.(outbox := Publisher.Left(b.outbox, Publisher.Acked(picked, outcomes), at, later, retention, faults),
                    log := b.log + Publisher.Stored(Publisher.TasksOf(b.outbox, picked), outcomes)))
  {
    Publisher.ReadsWhatIsThere(b.outbox, limit, picked);
    FetchReaches(b, cycle, limit, picked);
    BatchRuns(b, [Outbox.Fetch(cycle, limit, picked)], cycle, picked, Publisher.TasksOf(b.outbox, picked), outcomes);
    var first := [Outbox.Fetch(cycle, limit, picked)] + Publishes(cycle, outcomes);
    var d := BusRun(b, first).value;
    EndingsRun(d, cycle, at, later, retention, faults);
    BusRunAppends(b, first, d, Endings(cycle, Publisher.Acked(picked, outcomes), at, later, retention, faults));
    assert d.cycles - {cycle} == b.cycles;
  }

  /** The row went into a new envelope of the task. */
  ghost predicate Snapshot(b: Board, d: Board, worker: WorkerId, id: TaskId, row: Row) {
    && row.id == id && id in b.live && id in b.life && id in d.live
    && d.live[id] == b.live[id][b.life[id].claims := Envelope(worker, row.task, Unsent)]
  }

  ghost predicate Snapshots(b: Board, d: Board, worker: WorkerId, ids: seq<TaskId>, rows: seq<Row>) {
    |rows| == |ids| && forall i :: 0 <= i < |ids| ==> Snapshot(b, d, worker, ids[i], rows[i])
  }

  class Mirror {
    const repo: Store
    const producer: Publisher.Producer
    ghost var board: Board
    ghost var bus: Outbox.Bus

    ghost predicate Valid()
      reads this, repo, producer
    {
      && repo.Valid()
      && Shaped(board) && board.maxRetries == DEFAULT_MAX_RETRIES
      && board.tasks == repo.tasks && board.dead == repo.dead
      && bus.outbox == repo.outbox && bus.log == producer.log
      && (forall e :: e in bus.emitted ==> e < repo.nextEvent)
    }

    /** The board went through exactly these steps. */
    ghost predicate Went(before: Board, steps: seq<Step>)
      reads this
    {
      Reached(before, steps) == Some(board)
    }

    constructor (ghost batch: nat, ghost now: Time)
      ensures Valid() && fresh(repo) && fresh(producer)
      ensures board == Empty(batch, DEFAULT_MAX_RETRIES, now) && bus == Outbox.SILENT
    {
      repo := new Store();
      producer := new Publisher.Producer();
      board := Empty(batch, DEFAULT_MAX_RETRIES, now);
      bus := Outbox.SILENT;
    }

    // -------------------------------------------------------------- creates

    /** A create is an Insert with its event, a Reply, or, when it fails, no step. */
    method Create(payload: Payload, key: Option<string>, at: Time, newId: TaskId, faults: set<Call>)
      returns (created: bool, r: Result<TaskId>)
      requires Valid() && newId !in board.life && at <= board.now
      modifies this, repo
      ensures Valid()
      ensures Went(old(board), if r.Err? then [] else if created then [Insert(newId, payload, key, at)]
                               else if key.Some? then [Reply(key.value, r.value)] else [])
      ensures r.Ok? ==> created || key.Some?
      ensures bus == if created then Outbox.Next(old(bus), Outbox.Emit(old(repo.nextEvent), newId, at)) else old(bus)
    {
      created, r := repo.Create(payload, key, at, newId, faults);
      if created {
        Take(Insert(newId, payload, key, at));
        bus := Outbox.Next(bus, Outbox.Emit(old(repo.nextEvent), newId, at));
      } else if r.Ok? {
        Take(Reply(key.value, r.value));
      }
    }

    /** The ghost step itself. */
    ghost method Take(s: Step)
      requires Shaped(board) && Enabled(board, s)
      modifies this`board
      ensures Shaped(board) && board == Next(old(board), s) && Went(old(board), [s])
      ensures board.maxRetries == old(board.maxRetries)
    {
      Extend(board, [], s);
      assert [] + [s] == [s];
      StaysShaped(board, s);
      board := Next(board, s);
    }

    /** A DLQ retry is a Redrive, or no step. */
    method Retry(letter: DeadId, at: Time, newId: TaskId, faults: set<Call>) returns (r: Result<Row>)
      requires Valid() && newId !in board.life && at <= board.now
      modifies this`board, repo`tasks, repo`dead
      ensures Valid()
      ensures Went(old(board), if r.Ok? then [Redrive(newId, letter, at)] else [])
    {
      r := repo.Retry(letter, at, newId, faults);
      if r.Ok? {
        Take(Redrive(newId, letter, at));
      }
    }

    // -------------------------------------------------------------- claims

    /** The rows that a batch claim returns are the snapshots of the envelopes that it makes. */
    method ClaimTasks(worker: WorkerId, limit: nat, at: Time, ghost skip: set<TaskId>, picked: seq<TaskId>, badRow: nat,
                      faults: set<Call>)
      returns (r: Result<seq<Row>>)
      requires Valid() && at <= board.now && limit == board.batch
      requires OldestFirst(Claimable(repo.tasks, at, skip), limit, picked)
      modifies this`board, repo`tasks
      ensures Valid()
      ensures Went(old(board), if r.Ok? then [ClaimBatch(worker, at, skip, picked)] else [])
      ensures r.Ok? ==> Snapshots(old(board), board, worker, picked, r.value)
    {
      r := CallClaim(worker, limit, at, skip, picked, badRow, faults);
      TakeClaim(r, worker, at, skip, picked);
    }

    /** The call itself, as far as the mirror needs it. */
    method CallClaim(worker: WorkerId, limit: nat, at: Time, ghost skip: set<TaskId>, picked: seq<TaskId>, badRow: nat,
                     faults: set<Call>)
      returns (r: Result<seq<Row>>)
      requires repo.Valid() && OldestFirst(Claimable(repo.tasks, at, skip), limit, picked)
      modifies repo`tasks
      ensures repo.Valid()
      ensures repo.tasks == if r.Ok? then ClaimRows(old(repo.tasks), Elements(picked), worker, at) else old(repo.tasks)
      ensures r.Ok? ==> |r.value| == |picked| && forall i :: 0 <= i < |picked| ==>
                picked[i] in old(repo.tasks) && r.value[i] == Row(picked[i], old(repo.tasks)[picked[i]])
    {
      r := repo.ClaimTasks(worker, limit, at, skip, picked, badRow, faults);
    }

    ghost method TakeClaim(r: Result<seq<Row>>, worker: WorkerId, at: Time, skip: set<TaskId>, picked: seq<TaskId>)
      requires Shaped(board) && at <= board.now && OldestFirst(Claimable(board.tasks, at, skip), board.batch, picked)
      requires r.Ok? ==> |r.value| == |picked| && forall i :: 0 <= i < |picked| ==>
                 picked[i] in board.tasks && r.value[i] == Row(picked[i], board.tasks[picked[i]])
      modifies this`board
      ensures Shaped(board) && board.maxRetries == old(board.maxRetries)
      ensures Went(old(board), if r.Ok? then [ClaimBatch(worker, at, skip, picked)] else [])
      ensures board.tasks == if r.Ok? then ClaimRows(old(board.tasks), Elements(picked), worker, at)
                             else old(board.tasks)
      ensures board.dead == old(board.dead)
      ensures r.Ok? ==> Snapshots(old(board), board, worker, picked, r.value)
    {
      if r.Ok? {
        var step := ClaimBatch(worker, at, skip, picked);
        forall i | 0 <= i < |picked|
          ensures Snapshot(board, Next(board, step), worker, picked[i], r.value[i])
        {
          BatchEffect(board, worker, at, skip, picked, i);
        }
        Take(step);
      }
    }

    method ClaimTask(worker: WorkerId, id: TaskId, at: Time, faults: set<Call>) returns (r: Result<Option<Task>>)
      requires Valid() && at <= board.now
      modifies this`board, repo`tasks
      ensures Valid()
      ensures Went(old(board), if r.Ok? && r.value.Some? then [ClaimOne(worker, at, id)] else [])
    {
      r := repo.ClaimTask(worker, id, at, faults);
      if r.Ok? && r.value.Some? {
        Take(ClaimOne(worker, at, id));
      }
    }

    // -------------------------------------------------------------- executions

    /** The envelope is with a worker of this process, and the task handed to it is its snapshot. */
    ghost predicate InHand(id: TaskId, n: nat, task: Task)
      reads this
    {
      Carried(board, id, n) && board.live[id][n].stage.Executing? && board.live[id][n].task == task
    }

    /**
      What an execution is for the board: a settled envelope; for a dead-lettering also the transfer;
      and a lost envelope when the write fails.
     */
    ghost function StepsOf(b: Board, id: TaskId, n: nat, known: set<string>, failure: Option<string>, next: Time,
                           letter: DeadId, at: Time, faults: set<Call>): seq<Step>
      requires Carried(b, id, n)
    {
      var settle := Step.Settle(id, n, known, failure, next);
      var hasError := id in b.tasks && b.tasks[id].lastError.Some?;
      if !Decide(known, b.live[id][n].task, failure).Bury? then [if Query in faults then Step.Lose(id, n) else settle]
      else if Begin in faults || Query in faults then [Step.Lose(id, n)]
      else if id !in b.tasks then [settle]
      else if hasError && faults !! {Announce, Remove, CommitTx} then [settle, Step.Transfer(id, n, letter, at)]
      else [settle, Step.Lose(id, n)]
    }

    method Execute(e: Executor.Executor, id: TaskId, ghost n: nat, task: Task, failure: Option<string>, clock: Time,
                   rand: int -> int, at: Time, faults: set<Call>)
      returns (delay: int, ghost steps: seq<Step>)
      requires Valid() && e.repo == repo && InHand(id, n, task) && Executor.RandomBelow(rand)
      modifies this`board, repo`tasks, repo`dead, repo`nextLetter
      ensures Valid()
      ensures steps == StepsOf(old(board), id, n, e.handlers, failure, clock + delay, old(repo.nextLetter), at, faults)
      ensures Went(old(board), steps)
    {
      ghost var letter := repo.nextLetter;
      assert letter !in board.dead && Enabled(board, Step.Settle(id, n, e.handlers, failure, clock));
      delay := e.Execute(id, task, failure, clock, rand, at, faults);
      steps := StepsOf(board, id, n, e.handlers, failure, clock + delay, letter, at, faults);
      TakeExecution(id, n, e.handlers, failure, clock + delay, letter, at, faults, steps);
    }

    ghost method TakeExecution(id: TaskId, n: nat, known: set<string>, failure: Option<string>, next: Time,
                               letter: DeadId, at: Time, faults: set<Call>, steps: seq<Step>)
      requires Shaped(board) && Enabled(board, Step.Settle(id, n, known, failure, next)) && letter !in board.dead
      requires steps == StepsOf(board, id, n, known, failure, next, letter, at, faults)
      modifies this`board
      ensures Shaped(board) && board.maxRetries == old(board.maxRetries)
      ensures Went(old(board), steps)
      ensures var b := old(board);
              Executor.Tables(board.tasks, board.dead) ==
              Executor.Outcome(Executor.Tables(b.tasks, b.dead), id, Decide(known, b.live[id][n].task, failure), next,
                               letter, at, faults)
    {
      ghost var verdict := Decide(known, board.live[id][n].task, failure);
      if !verdict.Bury? {
        if Query in faults {
          Take(Step.Lose(id, n));
        } else {
          TakeWrite(id, n, known, failure, next);
        }
      } else if Begin in faults || Query in faults {
        Take(Step.Lose(id, n));
      } else {
        TakeBury(id, n, known, failure, next, letter, at, faults);
      }
    }

    ghost method TakeWrite(id: TaskId, n: nat, known: set<string>, failure: Option<string>, next: Time)
      requires Shaped(board) && Enabled(board, Step.Settle(id, n, known, failure, next))
      modifies this`board
      ensures Shaped(board) && board.maxRetries == old(board.maxRetries)
      ensures Went(old(board), [Step.Settle(id, n, known, failure, next)])
      ensures board.dead == old(board.dead)
      ensures board.tasks == Write(old(board.tasks), id, Decide(known, old(board).live[id][n].task, failure), next)
    {
      WriteEffect(board, id, n, known, failure, next);
      Take(Step.Settle(id, n, known, failure, next));
    }

    /** MoveToDLQ reads the row in one step, and ends in another. */
    ghost method TakeBury(id: TaskId, n: nat, known: set<string>, failure: Option<string>, next: Time, letter: DeadId,
                          at: Time, faults: set<Call>)
      requires Shaped(board) && Enabled(board, Step.Settle(id, n, known, failure, next)) && letter !in board.dead
      requires Decide(known, board.live[id][n].task, failure).Bury? && faults !! {Begin, Query}
      modifies this`board
      ensures Shaped(board) && board.maxRetries == old(board.maxRetries)
      ensures var b := old(board);
              && Went(b, StepsOf(b, id, n, known, failure, next, letter, at, faults))
              && Executor.Tables(board.tasks, board.dead) ==
                 Executor.Buried(Executor.Tables(b.tasks, b.dead), id, letter, at, faults)
    {
      ghost var before := board;
      var settle := Step.Settle(id, n, known, failure, next);
      Take(settle);
      if id in before.tasks {
        var last := if before.tasks[id].lastError.Some? && faults !! {Announce, Remove, CommitTx}
                    then Step.Transfer(id, n, letter, at) else Step.Lose(id, n);
        Extend(before, [settle], last);
        assert [settle] + [last] == [settle, last];
        Take(last);
      }
    }

    // -------------------------------------------------------------- recovery

    method UnlockStaleTasks(at: Time, age: Time, faults: set<Call>) returns (r: Result<nat>)
      requires Valid() && at <= board.now
      modifies this`board, repo`tasks
      ensures Valid()
      ensures Went(old(board), if r.Ok? then [UnlockStale(at, age)] else [])
      ensures r.Ok? ==> r.value == |ResetBy(old(board), UnlockStale(at, age))|
    {
      r := repo.UnlockStaleTasks(at, age, faults);
      if r.Ok? {
        Take(UnlockStale(at, age));
      }
    }

    method RecoverTasksByInstance(worker: WorkerId, faults: set<Call>) returns (r: Result<nat>)
      requires Valid()
      modifies this`board, repo`tasks
      ensures Valid()
      ensures Went(old(board), if r.Ok? then [Recover(worker)] else [])
      ensures r.Ok? ==> r.value == |ResetBy(old(board), Recover(worker))|
    {
      r := repo.RecoverTasksByInstance(worker, faults);
      if r.Ok? {
        Take(Recover(worker));
      }
    }

    // -------------------------------------------------------------- publishing

    /** The bus made this step. */
    ghost predicate Moved(before: Outbox.Bus, step: Outbox.Step)
      reads this
    {
      ReachedBus(before, step) == Some(bus)
    }

    method GetUnpublished(ghost cycle: nat, limit: nat, picked: seq<Outbox.EventId>, badRow: nat, faults: set<Call>)
      returns (r: Result<seq<EventRow>>)
      requires Valid() && cycle !in bus.cycles && OldestFirst(Outbox.Unpublished(repo.outbox), limit, picked)
      modifies this`bus
      ensures Valid()
      ensures if r.Ok? then Moved(old(bus), Outbox.Fetch(cycle, limit, picked)) else bus == old(bus)
      ensures r.Ok? ==>
                && cycle in bus.cycles
                && |r.value| == |bus.cycles[cycle].ids| == |bus.cycles[cycle].tasks|
                && (forall i :: 0 <= i < |r.value| ==>
                      r.value[i].id == bus.cycles[cycle].ids[i] && r.value[i].event.task == bus.cycles[cycle].tasks[i])
    {
      r := repo.GetUnpublished(limit, picked, badRow, faults);
      if r.Ok? {
        bus := Outbox.Next(bus, Outbox.Fetch(cycle, limit, picked));
      }
    }

    /** Publishes the event that the cycle has come to. */
    method Publish(ghost cycle: nat, row: EventRow, outcome: Publisher.Outcome) returns (r: Result<()>)
      requires Valid() && Outbox.Enabled(bus, Outbox.Publish(cycle, outcome.stored, outcome.acked))
      requires row.event.task == bus.cycles[cycle].tasks[bus.cycles[cycle].pos]
      modifies this`bus, producer`log
      ensures Valid()
      ensures Moved(old(bus), Outbox.Publish(cycle, outcome.stored, r.Ok?))
    {
      r := producer.Publish(row.event.task, outcome);
      bus := Outbox.Next(bus, Outbox.Publish(cycle, outcome.stored, r.Ok?));
    }

    method MarkPublished(ghost cycle: nat, ids: seq<Outbox.EventId>, at: Time, faults: set<Call>)
      returns (r: Result<()>)
      requires Valid() && Outbox.Enabled(bus, Outbox.MarkAll(cycle, at)) && ids == bus.cycles[cycle].acked
      modifies this`bus, repo`outbox
      ensures Valid()
      ensures Moved(old(bus), if r.Ok? then Outbox.MarkAll(cycle, at) else Outbox.Abandon(cycle))
    {
      r := repo.MarkPublished(ids, at, faults);
      bus := Outbox.Next(bus, if r.Ok? then Outbox.MarkAll(cycle, at) else Outbox.Abandon(cycle));
    }

    method PurgePublished(at: Time, retention: Time, faults: set<Call>) returns (r: Result<()>)
      requires Valid()
      modifies this`bus, repo`outbox
      ensures Valid()
      ensures if r.Ok? then Moved(old(bus), Outbox.Sweep(at, retention)) else bus == old(bus)
    {
      r := repo.PurgePublished(at, retention, faults);
      if r.Ok? {
        bus := Outbox.Next(bus, Outbox.Sweep(at, retention));
      }
    }

    /** A whole cycle of the publisher is a run of the bus: fetch, publishes, mark, purge, or what the faults leave. */
    method ProcessCycle(p: Publisher.OutboxPublisher, ghost cycle: nat, picked: seq<Outbox.EventId>, badRow: nat,
                        outcomes: seq<Publisher.Outcome>, at: Time, later: Time, faults: set<Call>)
      requires Valid() && p.repo == repo && p.producer == producer && cycle !in bus.cycles
      requires OldestFirst(Outbox.Unpublished(repo.outbox), p.batchSize, picked)
      requires |outcomes| == |picked| && forall i :: 0 <= i < |outcomes| ==> outcomes[i].acked ==> outcomes[i].stored
      modifies this`bus, repo`outbox, producer`log
      ensures Valid()
      ensures BusRun(old(bus), if Query in faults || badRow < |picked| then []
                               else CycleSteps(cycle, p.batchSize, picked, outcomes, at, later, p.retention, faults))
              == Some(bus)
    {
      CycleRuns(bus, cycle, p.batchSize, picked, outcomes, at, later, p.retention, faults);
      p.ProcessCycle(picked, badRow, outcomes, at, later, faults);
      bus := bus.(outbox := repo.outbox, log := producer.log);
    }
  }
}
