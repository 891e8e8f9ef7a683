/**
  The whole system: the board, the outbox with its publishers, and the instance registry with the
  recoverers (the startup loop of a new process, or the leader's instance monitor). A recoverer
  reads the stale instances, then for each one recovers its tasks and deregisters it; the two are
  separate statements, either may fail, and any number of recoverers interleave.
 */
module Cluster {
  import opened Wrappers
  import opened Oldest
  import opened TaskTable
  import TaskLife
  import opened Invariants
  import Board
  import Guarantees
  import Outbox

  /** The instances still to handle, and whether the tasks of the first one are recovered already. */
  datatype Recoverer = Recoverer(todo: seq<WorkerId>, recovered: bool)

  /**
    `gone` are processes that died, or that drained their pool and left; `cleared` are the instances
    that some recoverer deregistered.
   */
  datatype Cluster = Cluster(
    board: Board.Board,
    bus: Outbox.Bus,
    instances: map<WorkerId, Time>,
    gone: set<WorkerId>,
    recoverers: map<nat, Recoverer>,
    cleared: set<WorkerId>)

  datatype Step =
    | Create(id: TaskId, payload: Payload, key: Option<string>, at: Time, event: nat)
    | Work(move: Board.Step)
    | Publishing(act: Outbox.Step)
    | Die(worker: WorkerId)
    | Beat(worker: WorkerId, at: Time)
    | Leave(worker: WorkerId)
    | Scan(r: nat, at: Time, timeout: Time, stale: seq<WorkerId>)
    | RecoverFirst(r: nat, ok: bool)
    | DeregisterFirst(r: nat, ok: bool)
    | Forget(r: nat)

  function StaleInstances(instances: map<WorkerId, Time>, at: Time, timeout: Time): (ids: set<WorkerId>)
    ensures ids <= instances.Keys
    ensures forall w :: w in ids ==> instances[w] + timeout < at
  {
    set w | w in instances && instances[w] < at - timeout
  }

  /** The worker on whose behalf a step claims, if it is a claim. */
  ghost predicate ClaimsFor(s: Board.Step, worker: WorkerId) {
    (s.ClaimBatch? || s.ClaimOne?) && s.worker == worker
  }

  ghost predicate Enabled(c: Cluster, s: Step)
    requires Board.Shaped(c.board)
  {
    match s
    case Create(id, payload, key, at, event) =>
      && Board.Enabled(c.board, Board.Insert(id, payload, key, at))
      && Outbox.Enabled(c.bus, Outbox.Emit(event, id, at))
    case Work(b) =>
      && !b.Insert? && !b.Recover? && !b.Crash?
      && Board.Enabled(c.board, b)
      && (forall w :: ClaimsFor(b, w) ==> w !in c.gone)
    case Publishing(p) => !p.Emit? && Outbox.Enabled(c.bus, p)
    case Die(_) => true
    case Beat(worker, _) => worker !in c.gone
    case Leave(worker) =>
      worker !in c.gone && forall id :: id in c.board.live ==> Board.Of(c.board.live[id], worker) == {}
    case Scan(r, at, timeout, stale) =>
      r !in c.recoverers && Elements(stale) == StaleInstances(c.instances, at, timeout)
    case RecoverFirst(r, _) => r in c.recoverers && c.recoverers[r].todo != [] && !c.recoverers[r].recovered
    case DeregisterFirst(r, _) => r in c.recoverers && c.recoverers[r].todo != [] && c.recoverers[r].recovered
    case Forget(_) => true
  }

  function Skip(rec: Recoverer): Recoverer
    requires rec.todo != []
  {
    Recoverer(rec.todo[1..], false)
  }

  /** The board's share of a step. */
  ghost function OnBoard(c: Cluster, s: Step): (steps: seq<Board.Step>)
    requires Board.Shaped(c.board) && Enabled(c, s)
    ensures |steps| <= 1
    ensures steps != [] ==> Board.Enabled(c.board, steps[0])
  {
    match s
    case Create(id, payload, key, at, _) => [Board.Insert(id, payload, key, at)]
    case Work(b) => [b]
    case Die(worker) => [Board.Crash(worker)]
    case RecoverFirst(r, true) => [Board.Recover(c.recoverers[r].todo[0])]
    case _ => []
  }

  ghost function NextBoard(c: Cluster, s: Step): Board.Board
    requires Board.Shaped(c.board) && Enabled(c, s)
  {
    if OnBoard(c, s) == [] then c.board else Board.Next(c.board, OnBoard(c, s)[0])
  }

  ghost function NextBus(c: Cluster, s: Step): Outbox.Bus
    requires Board.Shaped(c.board) && Enabled(c, s)
  {
    match s
    case Create(id, _, _, at, event) => Outbox.Next(c.bus, Outbox.Emit(event, id, at))
    case Publishing(p) => Outbox.Next(c.bus, p)
    case _ => c.bus
  }

  ghost function Next(c: Cluster, s: Step): Cluster
    requires Board.Shaped(c.board) && Enabled(c, s)
  {
    var d := c.(board := NextBoard(c, s), bus := NextBus(c, s));
    match s
    case Die(worker) => d.(gone := c.gone + {worker})
    case Beat(worker, at) => d.(instances := c.instances[worker := at])
    case Leave(worker) => d.(instances := c.instances - {worker}, gone := c.gone + {worker})
    case Scan(r, _, _, stale) => d.(recoverers := c.recoverers[r := Recoverer(stale, false)])
    case RecoverFirst(r, ok) =>
      var rec := c.recoverers[r];
      d.(recoverers := c.recoverers[r := if ok then rec.(recovered := true) else Skip(rec)])
    case DeregisterFirst(r, ok) =>
      var rec := c.recoverers[r];
      if ok then
        d.(recoverers := c.recoverers[r := Skip(rec)],
           instances := c.instances - {rec.todo[0]},
           cleared := c.cleared + {rec.todo[0]})
      else d.(recoverers := c.recoverers[r := Skip(rec)])
    case Forget(r) => d.(recoverers := c.recoverers - {r})
    case _ => d
  }

  // ---------------------------------------------------------------- runs

  function Empty(batch: nat, maxRetries: nat, now: Time): Cluster {
    Cluster(Board.Empty(batch, maxRetries, now), Outbox.SILENT, map[], {}, map[], {})
  }

  ghost predicate Valid(c: Cluster, steps: seq<Step>)
    decreases |steps|, 0
  {
    && Board.Shaped(c.board)
    && (steps != [] ==>
          var n := |steps| - 1;
          Valid(c, steps[..n]) && Enabled(Exec(c, steps[..n]), steps[n]))
  }

  ghost function Exec(c: Cluster, steps: seq<Step>): (r: Cluster)
    requires Valid(c, steps)
    ensures Board.Shaped(r.board)
    decreases |steps|, 1
  {
    if steps == [] then c
    else
      var n := |steps| - 1;
      StaysShaped(Exec(c, steps[..n]), steps[n]);
      Next(Exec(c, steps[..n]), steps[n])
  }

  lemma StaysShaped(c: Cluster, s: Step)
    requires Board.Shaped(c.board) && Enabled(c, s)
    ensures Next(c, s).board == NextBoard(c, s) && Next(c, s).bus == NextBus(c, s)
    ensures Board.Shaped(Next(c, s).board)
  {
    if OnBoard(c, s) != [] {
      Board.StaysShaped(c.board, OnBoard(c, s)[0]);
    }
  }

  /** The board run inside a cluster run. */
  ghost function Trace(c: Cluster, steps: seq<Step>): seq<Board.Step>
    requires Valid(c, steps)
    decreases |steps|
  {
    if steps == [] then []
    else
      var n := |steps| - 1;
      Trace(c, steps[..n]) + OnBoard(Exec(c, steps[..n]), steps[n])
  }

  /** Whatever is proved of every board run holds of the board of every cluster run. */
  lemma {:induction false} BoardRun(c: Cluster, steps: seq<Step>)
    requires Valid(c, steps)
    ensures Guarantees.Valid(c.board, Trace(c, steps))
    ensures Guarantees.Exec(c.board, Trace(c, steps)) == Exec(c, steps).board
    decreases |steps|
  {
    if steps != [] {
      var n := |steps| - 1;
      BoardRun(c, steps[..n]);
      StaysShaped(Exec(c, steps[..n]), steps[n]);
      var before, last := Trace(c, steps[..n]), OnBoard(Exec(c, steps[..n]), steps[n]);
      if last == [] {
        assert before + last == before;
      } else {
        assert (before + last)[..|before|] == before;
      }
    }
  }

  // ---------------------------------------------------------------- one event for each create

  /** Ids that a create inserted, as opposed to a DLQ retry. */
  ghost predicate Created(b: Board.Board, id: TaskId) {
    id in b.life && b.life[id].origin == id
  }

  ghost predicate Announced(c: Cluster) {
    && Sound(c.board)
    && Outbox.Inv(c.bus)
    && (forall id :: Created(c.board, id) <==> Outbox.Named(c.bus.emitted, id))
  }

  lemma NewbornCreated(b: Board.Board, s: Board.Step, id: TaskId)
    requires PayloadsKept(b) && Board.Shaped(b) && Board.Enabled(b, s) && id !in b.life
    ensures Created(Board.Next(b, s), id) <==> s.Insert? && s.id == id
  {
    StepEffect(b, s);
    if s.Insert? || s.Redrive? {
      BirthCertificate(b, s);
      assert s.Redrive? ==> Chained(b, b.dead[s.letter].original);
    }
  }

  lemma BoardStepKeepsCreated(b: Board.Board, s: Board.Step, id: TaskId)
    requires PayloadsKept(b) && Board.Shaped(b) && Board.Enabled(b, s)
    ensures Created(Board.Next(b, s), id) <==> Created(b, id) || (s.Insert? && s.id == id)
  {
    if id in b.life {
      KeepsBirth(b, s, id);
    } else {
      NewbornCreated(b, s, id);
    }
  }

  lemma EmitNames(b: Outbox.Bus, s: Outbox.Step, id: TaskId)
    requires Outbox.Enabled(b, s)
    ensures Outbox.Named(Outbox.Next(b, s).emitted, id) <==> Outbox.Named(b.emitted, id) || (s.Emit? && s.task == id)
  {
    var d := Outbox.Next(b, s);
    if s.Emit? {
      assert d.emitted[s.id] == s.task;
      forall e | e in b.emitted
        ensures d.emitted[e] == b.emitted[e]
      {
      }
    }
  }

  lemma KeepsAnnounced(c: Cluster, s: Step)
    requires Announced(c) && Enabled(c, s)
    ensures Board.Shaped(Next(c, s).board) && Announced(Next(c, s))
  {
    var d := Next(c, s);
    StaysShaped(c, s);
    var share := OnBoard(c, s);
    if share != [] {
      KeepsSound(c.board, share[0]);
    }
    if s.Create? {
      assert !Created(c.board, s.id);
      Outbox.KeepsInv(c.bus, Outbox.Emit(s.event, s.id, s.at));
    } else if s.Publishing? {
      Outbox.KeepsInv(c.bus, s.act);
    }
    forall id
      ensures Created(d.board, id) <==> Outbox.Named(d.bus.emitted, id)
    {
      if share != [] {
        BoardStepKeepsCreated(c.board, share[0], id);
      }
      if s.Create? {
        EmitNames(c.bus, Outbox.Emit(s.event, s.id, s.at), id);
      } else if s.Publishing? {
        EmitNames(c.bus, s.act, id);
      }
    }
  }

  lemma {:induction false} AlwaysAnnounced(batch: nat, maxRetries: nat, now: Time, steps: seq<Step>)
    requires Valid(Empty(batch, maxRetries, now), steps)
    ensures Announced(Exec(Empty(batch, maxRetries, now), steps))
    decreases |steps|
  {
    if steps == [] {
      EmptyIsSafe(batch, maxRetries, now);
    } else {
      var n := |steps| - 1;
      AlwaysAnnounced(batch, maxRetries, now, steps[..n]);
      KeepsAnnounced(Exec(Empty(batch, maxRetries, now), steps[..n]), steps[n]);
    }
  }

  /**
    Every created task has exactly one event ever inserted, no DLQ retry has any, and an event that
    is marked published or purged has its message in the Kafka log.
   */
  lemma OutboxLosesNothing(batch: nat, maxRetries: nat, now: Time, steps: seq<Step>, id: TaskId)
    requires Valid(Empty(batch, maxRetries, now), steps)
    ensures var r := Exec(Empty(batch, maxRetries, now), steps);
            Created(r.board, id) <==> exists e :: e in r.bus.emitted && r.bus.emitted[e] == id
    ensures var r := Exec(Empty(batch, maxRetries, now), steps);
            forall e, f :: e in r.bus.emitted && f in r.bus.emitted && r.bus.emitted[e] == r.bus.emitted[f] == id ==>
              e == f
    ensures var r := Exec(Empty(batch, maxRetries, now), steps);
            forall e :: e in r.bus.emitted && r.bus.emitted[e] == id && Outbox.Settled(r.bus, e) ==> id in r.bus.log
    ensures var r := Exec(Empty(batch, maxRetries, now), steps);
            id in r.bus.log ==> Created(r.board, id)
  {
    AlwaysAnnounced(batch, maxRetries, now, steps);
    var r := Exec(Empty(batch, maxRetries, now), steps);
    assert Outbox.Named(r.bus.emitted, id) <==> exists e :: e in r.bus.emitted && r.bus.emitted[e] == id;
  }

  /** Every event ever emitted for a task that was created under the key. */
  function EventsUnder(emitted: map<nat, TaskId>, life: map<TaskId, TaskLife.Life>, key: string): set<nat> {
    set e | e in emitted && emitted[e] in life && life[emitted[e]].key == Some(key)
  }

  function EventsOf(c: Cluster, key: string): set<nat> {
    EventsUnder(c.bus.emitted, c.board.life, key)
  }

  /** The step is a create that inserts under the key. */
  predicate InsertsUnder(s: Step, key: string) {
    s.Create? && s.key == Some(key)
  }

  lemma EmittedMoves(c: Cluster, s: Step)
    requires Board.Shaped(c.board) && Enabled(c, s)
    ensures NextBus(c, s).emitted == if s.Create? then c.bus.emitted[s.event := s.id] else c.bus.emitted
    ensures s.Create? ==> s.event !in c.bus.emitted && s.id !in c.board.life
  {
  }

  lemma KeysMove(c: Cluster, s: Step)
    requires Board.Shaped(c.board) && Enabled(c, s)
    ensures forall id :: id in c.board.life ==>
              id in NextBoard(c, s).life && NextBoard(c, s).life[id].key == c.board.life[id].key
    ensures s.Create? ==> s.id in NextBoard(c, s).life && NextBoard(c, s).life[s.id].key == s.key
  {
    var share := OnBoard(c, s);
    forall id | id in c.board.life && share != []
      ensures id in NextBoard(c, s).life && NextBoard(c, s).life[id].key == c.board.life[id].key
    {
      KeepsBirth(c.board, share[0], id);
    }
  }

  lemma EventsHaveTasks(c: Cluster)
    requires Announced(c)
    ensures forall e :: e in c.bus.emitted ==> c.bus.emitted[e] in c.board.life
  {
    forall e | e in c.bus.emitted
      ensures c.bus.emitted[e] in c.board.life
    {
      assert Outbox.Named(c.bus.emitted, c.bus.emitted[e]);
      assert Created(c.board, c.bus.emitted[e]);
    }
  }

  lemma OtherEventsStay(emitted: map<nat, TaskId>, life: map<TaskId, TaskLife.Life>, later: map<TaskId, TaskLife.Life>,
                        key: string)
    requires forall e :: e in emitted ==> emitted[e] in life
    requires forall id :: id in life ==> id in later && later[id].key == life[id].key
    ensures EventsUnder(emitted, later, key) == EventsUnder(emitted, life, key)
  {
  }

  lemma NewEventCounts(emitted: map<nat, TaskId>, life: map<TaskId, TaskLife.Life>, e: nat, id: TaskId, key: string)
    requires e !in emitted && id in life
    ensures EventsUnder(emitted[e := id], life, key) ==
            if life[id].key == Some(key) then EventsUnder(emitted, life, key) + {e} else EventsUnder(emitted, life, key)
    ensures e !in EventsUnder(emitted, life, key)
  {
  }

  lemma EventsStep(c: Cluster, s: Step, key: string)
    requires Board.Shaped(c.board) && Enabled(c, s)
    requires forall e :: e in c.bus.emitted ==> c.bus.emitted[e] in c.board.life
    ensures |EventsUnder(NextBus(c, s).emitted, NextBoard(c, s).life, key)| ==
            |EventsOf(c, key)| + if InsertsUnder(s, key) then 1 else 0
  {
    EmittedMoves(c, s);
    KeysMove(c, s);
    OtherEventsStay(c.bus.emitted, c.board.life, NextBoard(c, s).life, key);
    if s.Create? {
      NewEventCounts(c.bus.emitted, NextBoard(c, s).life, s.event, s.id, key);
    }
  }

  lemma InsertsStep(c: Cluster, before: seq<Board.Step>, s: Step, key: string)
    requires Board.Shaped(c.board) && Enabled(c, s)
    ensures Guarantees.InsertsWith(before + OnBoard(c, s), key) ==
            Guarantees.InsertsWith(before, key) + if InsertsUnder(s, key) then 1 else 0
  {
    var last := OnBoard(c, s);
    if last == [] {
      assert before + last == before;
    } else {
      assert (before + last)[..|before|] == before;
    }
  }

  /**
    The events emitted for creates under a key number the inserts of the run under that key: at most
    one live task and the dead-lettered ones, by InsertsUnderKey. Replies emit nothing.
   */
  lemma {:induction false} OneEventPerInsert(batch: nat, maxRetries: nat, now: Time, steps: seq<Step>, key: string)
    requires Valid(Empty(batch, maxRetries, now), steps)
    ensures var c := Empty(batch, maxRetries, now);
            |EventsOf(Exec(c, steps), key)| == Guarantees.InsertsWith(Trace(c, steps), key)
    decreases |steps|
  {
    var c := Empty(batch, maxRetries, now);
    if steps == [] {
      assert EventsOf(c, key) == {};
    } else {
      var n := |steps| - 1;
      var p := Exec(c, steps[..n]);
      OneEventPerInsert(batch, maxRetries, now, steps[..n], key);
      AlwaysAnnounced(batch, maxRetries, now, steps[..n]);
      EventsHaveTasks(p);
      EventsStep(p, steps[n], key);
      StaysShaped(p, steps[n]);
      InsertsStep(p, Trace(c, steps[..n]), steps[n], key);
    }
  }

  /** So as long as no task of the key is dead-lettered, all its creates together emit at most one event. */
  lemma OneEventPerKey(batch: nat, maxRetries: nat, now: Time, steps: seq<Step>, key: string)
    requires Valid(Empty(batch, maxRetries, now), steps)
    ensures var r := Exec(Empty(batch, maxRetries, now), steps);
            |EventsOf(r, key)| == |KeyHolders(r.board.tasks, key)|
                                     + |Guarantees.Keyed(r.board.life, key) * Originals(r.board.dead)|
            && |KeyHolders(r.board.tasks, key)| <= 1
  {
    var c := Empty(batch, maxRetries, now);
    OneEventPerInsert(batch, maxRetries, now, steps, key);
    BoardRun(c, steps);
    Guarantees.InsertsUnderKey(batch, maxRetries, now, Trace(c, steps), key);
  }
}
