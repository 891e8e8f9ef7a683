/** The guarantees over whole runs: any finite sequence of enabled steps from an empty database. */
module Guarantees {
  import opened Wrappers
  import opened TaskTable
  import opened TaskLife
  import opened Board
  import opened Invariants

  // ---------------------------------------------------------------- runs

  ghost predicate Valid(b: Board, steps: seq<Step>)
    decreases |steps|, 0
  {
    && Shaped(b)
    && (steps != [] ==>
          var n := |steps| - 1;
          Valid(b, steps[..n]) && Enabled(Exec(b, steps[..n]), steps[n]))
  }

  ghost function Exec(b: Board, steps: seq<Step>): (r: Board)
    requires Valid(b, steps)
    ensures Shaped(r)
    decreases |steps|, 1
  {
    if steps == [] then b
    else
      var n := |steps| - 1;
      StaysShaped(Exec(b, steps[..n]), steps[n]);
      Next(Exec(b, steps[..n]), steps[n])
  }

  ghost predicate NoOverride(steps: seq<Step>) {
    forall i :: 0 <= i < |steps| ==> !steps[i].Override?
  }

  ghost predicate NoRecovery(steps: seq<Step>) {
    forall i :: 0 <= i < |steps| ==> !steps[i].UnlockStale? && !steps[i].Recover?
  }

  /** Runs in which recovery resets only tasks that no process still carries. */
  ghost predicate SafelyRecovered(b: Board, steps: seq<Step>)
    requires Valid(b, steps)
    decreases |steps|
  {
    steps != [] ==>
      var n := |steps| - 1;
      SafelyRecovered(b, steps[..n]) && SafeStep(Exec(b, steps[..n]), steps[n])
  }

  lemma {:induction false} Prefix(b: Board, steps: seq<Step>, k: nat)
    requires Valid(b, steps) && k <= |steps|
    ensures Valid(b, steps[..k])
    ensures k < |steps| ==> Enabled(Exec(b, steps[..k]), steps[k])
    ensures SafelyRecovered(b, steps) ==> SafelyRecovered(b, steps[..k])
    ensures k < |steps| && SafelyRecovered(b, steps) ==> SafeStep(Exec(b, steps[..k]), steps[k])
    decreases |steps|
  {
    if k < |steps| {
      var n := |steps| - 1;
      Prefix(b, steps[..n], k);
      assert steps[..n][..k] == steps[..k];
    } else {
      assert steps[..k] == steps;
    }
  }

  /** One more step of a run. */
  lemma Extend(b: Board, steps: seq<Step>, s: Step)
    requires Valid(b, steps) && Enabled(Exec(b, steps), s)
    ensures Valid(b, steps + [s])
    ensures Exec(b, steps + [s]) == Next(Exec(b, steps), s)
    ensures SafelyRecovered(b, steps + [s]) <==> SafelyRecovered(b, steps) && SafeStep(Exec(b, steps), s)
  {
    assert (steps + [s])[..|steps|] == steps;
  }

  // ---------------------------------------------------------------- every run keeps its invariants

  lemma {:induction false} AlwaysSound(b: Board, steps: seq<Step>)
    requires Sound(b) && Valid(b, steps)
    ensures Sound(Exec(b, steps))
    decreases |steps|
  {
    if steps != [] {
      var n := |steps| - 1;
      AlwaysSound(b, steps[..n]);
      KeepsSound(Exec(b, steps[..n]), steps[n]);
    }
  }

  lemma {:induction false} AlwaysRegular(b: Board, steps: seq<Step>)
    requires Regular(b) && Valid(b, steps) && NoOverride(steps)
    ensures Regular(Exec(b, steps))
    decreases |steps|
  {
    if steps != [] {
      var n := |steps| - 1;
      AlwaysRegular(b, steps[..n]);
      KeepsRegular(Exec(b, steps[..n]), steps[n]);
    }
  }

  lemma {:induction false} AlwaysSafe(b: Board, steps: seq<Step>)
    requires Safe(b) && Valid(b, steps) && SafelyRecovered(b, steps)
    ensures Safe(Exec(b, steps))
    decreases |steps|
  {
    if steps != [] {
      var n := |steps| - 1;
      AlwaysSafe(b, steps[..n]);
      KeepsSafe(Exec(b, steps[..n]), steps[n]);
    }
  }

  // ---------------------------------------------------------------- bounded claims

  /** How often the run claimed the task, read off its steps. */
  function ClaimsIn(steps: seq<Step>, id: TaskId): nat {
    if steps == [] then 0
    else
      var s := steps[|steps| - 1];
      ClaimsIn(steps[..|steps| - 1], id)
      + if (s.ClaimBatch? && id in s.ids) || (s.ClaimOne? && s.id == id) then 1 else 0
  }

  /** The rows that a step's recovery resets. */
  function ResetBy(b: Board, s: Step): set<TaskId> {
    match s
    case UnlockStale(at, age) => StaleRows(b.tasks, at, age)
    case Recover(worker) => RowsHeldBy(b.tasks, worker)
    case _ => {}
  }

  /** How often recovery reset the task during the run. */
  ghost function ResetsIn(b: Board, steps: seq<Step>, id: TaskId): nat
    requires Valid(b, steps)
    decreases |steps|
  {
    if steps == [] then 0
    else
      var n := |steps| - 1;
      ResetsIn(b, steps[..n], id) + if id in ResetBy(Exec(b, steps[..n]), steps[n]) then 1 else 0
  }

  lemma CountersMove(b: Board, s: Step, id: TaskId)
    requires Shaped(b) && Enabled(b, s)
    ensures id in b.life ==> id in Next(b, s).life
    ensures id in b.life ==>
              Next(b, s).life[id].claims == b.life[id].claims + ClaimsIn([s], id)
    ensures id in b.life ==>
              Next(b, s).life[id].resets == b.life[id].resets + if id in ResetBy(b, s) then 1 else 0
    ensures id !in b.life ==> ClaimsIn([s], id) == 0 && id !in ResetBy(b, s)
    ensures id !in b.life && id in Next(b, s).life ==>
              Next(b, s).life[id].claims == 0 && Next(b, s).life[id].resets == 0
  {
    assert [s][..0] == [];
    assert ClaimsIn([s], id) == if (s.ClaimBatch? && id in s.ids) || (s.ClaimOne? && s.id == id) then 1 else 0;
    if id in b.life {
      Projection(b, s, id);
      assert At(Next(b, s), id).life == Next(b, s).life[id];
    } else if id in Next(b, s).life {
      Birth(b, s, id);
    }
  }

  lemma {:induction false} CountersAreTrue(batch: nat, maxRetries: nat, now: Time, steps: seq<Step>, id: TaskId)
    requires Valid(Empty(batch, maxRetries, now), steps)
    ensures var b := Empty(batch, maxRetries, now);
            var r := Exec(b, steps);
            if id in r.life then r.life[id].claims == ClaimsIn(steps, id) && r.life[id].resets == ResetsIn(b, steps, id)
            else ClaimsIn(steps, id) == 0 && ResetsIn(b, steps, id) == 0
    decreases |steps|
  {
    if steps != [] {
      var n := |steps| - 1;
      CountersAreTrue(batch, maxRetries, now, steps[..n], id);
      CountersMove(Exec(Empty(batch, maxRetries, now), steps[..n]), steps[n], id);
      assert [steps[n]][..0] == [];
    }
  }

  lemma {:induction false} ConstantsStay(b: Board, steps: seq<Step>)
    requires Valid(b, steps)
    ensures Exec(b, steps).batch == b.batch && Exec(b, steps).maxRetries == b.maxRetries
    decreases |steps|
  {
    if steps != [] {
      var n := |steps| - 1;
      ConstantsStay(b, steps[..n]);
      ConstantsKept(Exec(b, steps[..n]), steps[n]);
    }
  }

  /**
    A task is claimed at most `maxRetries` times, and two more times for each reset (one more, when
    there are no retries), whatever crashes, lost writes, redeliveries and interleavings the run holds.
   */
  lemma BoundedClaims(batch: nat, maxRetries: nat, now: Time, steps: seq<Step>, id: TaskId)
    requires Valid(Empty(batch, maxRetries, now), steps) && NoOverride(steps)
    ensures ClaimsIn(steps, id) <= MostClaims(maxRetries, ResetsIn(Empty(batch, maxRetries, now), steps, id))
  {
    var b := Empty(batch, maxRetries, now);
    EmptyIsSafe(batch, maxRetries, now);
    AlwaysRegular(b, steps);
    ConstantsStay(b, steps);
    CountersAreTrue(batch, maxRetries, now, steps, id);
    if id in Exec(b, steps).life {
      CountedBound(At(Exec(b, steps), id));
      assert Exec(b, steps).life[id].maxRetries == maxRetries;
    }
  }

  // ---------------------------------------------------------------- locks

  /** Lock columns in every run; the override leaves only the pairing of the two columns. */
  lemma LockInvariant(batch: nat, maxRetries: nat, now: Time, steps: seq<Step>)
    requires Valid(Empty(batch, maxRetries, now), steps)
    ensures var r := Exec(Empty(batch, maxRetries, now), steps);
            && (forall id :: id in r.tasks ==> PairedLock(r.tasks[id]))
            && (NoOverride(steps) ==> forall id :: id in r.tasks ==> LockColumns(r.tasks[id], r.now))
  {
    EmptyIsSafe(batch, maxRetries, now);
    AlwaysSound(Empty(batch, maxRetries, now), steps);
    if NoOverride(steps) {
      AlwaysRegular(Empty(batch, maxRetries, now), steps);
    }
  }

  /** Whatever recovery resets can be claimed at once. */
  lemma ResetMeansClaimable(b: Board, s: Step, id: TaskId)
    requires Regular(b) && Enabled(b, s) && id in ResetBy(b, s)
    ensures id in Next(b, s).tasks && Eligible(Next(b, s).tasks[id], b.now)
    ensures Enabled(Next(b, s), ClaimOne(0, b.now, id))
  {
    ReleasedIsClaimable(b.tasks[id], b.now, b.now);
    ConstantsKept(b, s);
  }

  // ---------------------------------------------------------------- conservation

  /** Creates and DLQ retries that succeeded. */
  function BirthsIn(steps: seq<Step>): nat {
    if steps == [] then 0
    else
      var s := steps[|steps| - 1];
      BirthsIn(steps[..|steps| - 1]) + if s.Insert? || s.Redrive? then 1 else 0
  }

  lemma {:induction false} LivesAreBirths(batch: nat, maxRetries: nat, now: Time, steps: seq<Step>)
    requires Valid(Empty(batch, maxRetries, now), steps)
    ensures |Exec(Empty(batch, maxRetries, now), steps).life.Keys| == BirthsIn(steps)
    decreases |steps|
  {
    if steps != [] {
      var n := |steps| - 1;
      LivesAreBirths(batch, maxRetries, now, steps[..n]);
      StepEffect(Exec(Empty(batch, maxRetries, now), steps[..n]), steps[n]);
    }
  }

  lemma ConservedRows(b: Board, id: TaskId)
    requires Conserved(b) && id in b.life
    ensures id in b.tasks <==> !exists d :: d in b.dead && b.dead[d].original == id
  {
    assert id in b.tasks <==> id !in Originals(b.dead);
  }

  lemma KeptPayload(b: Board, id: TaskId)
    requires AllFaithful(b) && id in b.tasks
    ensures b.tasks[id].payload == b.life[id].payload
  {
    assert Faithful(At(b, id)) && At(b, id).row == Some(b.tasks[id]);
  }

  /** No task is ever lost, none is both alive and dead-lettered, and no payload changes. */
  lemma Conservation(batch: nat, maxRetries: nat, now: Time, steps: seq<Step>, id: TaskId)
    requires Valid(Empty(batch, maxRetries, now), steps)
    requires id in Exec(Empty(batch, maxRetries, now), steps).life
    ensures var r := Exec(Empty(batch, maxRetries, now), steps);
            && (id in r.tasks <==> !exists d :: d in r.dead && r.dead[d].original == id)
            && (id in r.tasks ==> r.tasks[id].payload == r.life[id].payload)
            && (forall d :: d in r.dead && r.dead[d].original == id ==> r.dead[d].payload == r.life[id].payload)
            && r.life[id].origin in r.life
            && r.life[r.life[id].origin].payload == r.life[id].payload
  {
    var r := Exec(Empty(batch, maxRetries, now), steps);
    EmptyIsSafe(batch, maxRetries, now);
    AlwaysSound(Empty(batch, maxRetries, now), steps);
    ConservedRows(r, id);
    assert Chained(r, id);
    if id in r.tasks {
      KeptPayload(r, id);
    }
  }

  /** Under safe recovery the two tables together hold one row for every create and DLQ retry. */
  lemma ExactConservation(batch: nat, maxRetries: nat, now: Time, steps: seq<Step>)
    requires Valid(Empty(batch, maxRetries, now), steps)
    requires SafelyRecovered(Empty(batch, maxRetries, now), steps)
    ensures var r := Exec(Empty(batch, maxRetries, now), steps);
            |r.tasks.Keys| + |r.dead.Keys| == BirthsIn(steps) && OneLetterEach(r.dead)
  {
    EmptyIsSafe(batch, maxRetries, now);
    AlwaysSafe(Empty(batch, maxRetries, now), steps);
    LivesAreBirths(batch, maxRetries, now, steps);
  }

  // ---------------------------------------------------------------- ownership and phases

  /** Under safe recovery a task has one live envelope at most, and the row is locked by its worker. */
  lemma SingleOwner(batch: nat, maxRetries: nat, now: Time, steps: seq<Step>, id: TaskId, m: nat, n: nat)
    requires Valid(Empty(batch, maxRetries, now), steps)
    requires SafelyRecovered(Empty(batch, maxRetries, now), steps)
    requires var r := Exec(Empty(batch, maxRetries, now), steps); Carried(r, id, m) && Carried(r, id, n)
    ensures m == n
    ensures var r := Exec(Empty(batch, maxRetries, now), steps);
            && id in r.tasks && r.tasks[id].status.Running?
            && r.tasks[id].lockedBy == Some(r.live[id][n].worker)
  {
    EmptyIsSafe(batch, maxRetries, now);
    AlwaysSafe(Empty(batch, maxRetries, now), steps);
    var c := At(Exec(Empty(batch, maxRetries, now), steps), id);
    assert Owned(c) && m in c.live && n in c.live;
  }

  ghost function PhaseIn(b: Board, id: TaskId): Phase
    requires Shaped(b)
  {
    if id in b.life then PhaseOf(At(b, id)) else Unborn
  }

  lemma NewbornWaits(b: Board, s: Step, id: TaskId)
    requires Shaped(b) && Enabled(b, s) && id !in b.life && id in Next(b, s).life
    ensures Shaped(Next(b, s)) && PhaseIn(Next(b, s), id) == Waits
  {
    Birth(b, s, id);
  }

  lemma StepFollowsEdges(b: Board, s: Step, id: TaskId)
    requires AllOwned(b) && Enabled(b, s) && SafeStep(b, s)
    ensures Shaped(Next(b, s))
    ensures var p, q := PhaseIn(b, id), PhaseIn(Next(b, s), id); p == q || Edge(p, q)
  {
    StaysShaped(b, s);
    if id in b.life {
      Projection(b, s, id);
      SafeMoves(b, s, id);
      OnlyEdges(At(b, id), MoveOf(b, s, id), b.now);
      assert PhaseIn(Next(b, s), id) == PhaseOf(Apply(At(b, id), MoveOf(b, s, id)));
    } else if id in Next(b, s).life {
      NewbornWaits(b, s, id);
    }
  }

  /** Under safe recovery the cluster takes every task through the edges of the six-state machine only. */
  lemma PhaseRefinement(batch: nat, maxRetries: nat, now: Time, steps: seq<Step>, id: TaskId, k: nat)
    requires Valid(Empty(batch, maxRetries, now), steps) && k < |steps|
    requires SafelyRecovered(Empty(batch, maxRetries, now), steps)
    ensures Valid(Empty(batch, maxRetries, now), steps[..k]) && Valid(Empty(batch, maxRetries, now), steps[..k + 1])
    ensures var b := Empty(batch, maxRetries, now);
            var p, q := PhaseIn(Exec(b, steps[..k]), id), PhaseIn(Exec(b, steps[..k + 1]), id);
            p == q || Edge(p, q)
  {
    var b := Empty(batch, maxRetries, now);
    Prefix(b, steps, k);
    Prefix(b, steps, k + 1);
    EmptyIsSafe(batch, maxRetries, now);
    AlwaysSafe(b, steps[..k]);
    StepFollowsEdges(Exec(b, steps[..k]), steps[k], id);
    assert steps[..k + 1][..k] == steps[..k];
  }

  /** Completed, failed and dead-lettered are never left. */
  lemma {:induction false} TerminalForever(batch: nat, maxRetries: nat, now: Time, steps: seq<Step>, id: TaskId, k: nat)
    requires Valid(Empty(batch, maxRetries, now), steps) && k <= |steps|
    requires SafelyRecovered(Empty(batch, maxRetries, now), steps)
    ensures Valid(Empty(batch, maxRetries, now), steps[..k])
    ensures var b := Empty(batch, maxRetries, now);
            var p := PhaseIn(Exec(b, steps[..k]), id);
            Terminal(p) ==> PhaseIn(Exec(b, steps), id) == p
    decreases |steps|
  {
    var b := Empty(batch, maxRetries, now);
    Prefix(b, steps, k);
    if k < |steps| {
      var n := |steps| - 1;
      Prefix(b, steps, n);
      TerminalForever(batch, maxRetries, now, steps[..n], id, k);
      assert steps[..n][..k] == steps[..k];
      PhaseRefinement(batch, maxRetries, now, steps, id, n);
      assert steps[..n + 1] == steps;
    } else {
      assert steps[..k] == steps;
    }
  }

  // ---------------------------------------------------------------- dead letters

  /** Every row about to be dead-lettered has an error to store, in every run with at least two attempts. */
  lemma DeadLetterHasError(batch: nat, maxRetries: nat, now: Time, steps: seq<Step>, id: TaskId, n: nat)
    requires 2 <= maxRetries
    requires Valid(Empty(batch, maxRetries, now), steps)
    requires var r := Exec(Empty(batch, maxRetries, now), steps); Carried(r, id, n) && r.live[id][n].stage.Moving?
    ensures var e := Exec(Empty(batch, maxRetries, now), steps).live[id][n];
            && e.task.attempts + 1 >= maxRetries
            && e.stage.read.lastError.Some?
  {
    var b := Empty(batch, maxRetries, now);
    EmptyIsSafe(batch, maxRetries, now);
    AlwaysSound(b, steps);
    ConstantsStay(b, steps);
    assert Faithful(At(Exec(b, steps), id)) && n in At(Exec(b, steps), id).live;
  }

  /** Under safe recovery a dead letter's attempt count is one less than the retry limit. */
  lemma DeadLetterAttempts(batch: nat, maxRetries: nat, now: Time, steps: seq<Step>, d: DeadId)
    requires 1 <= maxRetries
    requires Valid(Empty(batch, maxRetries, now), steps)
    requires SafelyRecovered(Empty(batch, maxRetries, now), steps)
    requires d in Exec(Empty(batch, maxRetries, now), steps).dead
    ensures Exec(Empty(batch, maxRetries, now), steps).dead[d].attempts == maxRetries - 1
  {
    EmptyIsSafe(batch, maxRetries, now);
    AlwaysSafe(Empty(batch, maxRetries, now), steps);
    ConstantsStay(Empty(batch, maxRetries, now), steps);
  }

  // ---------------------------------------------------------------- idempotent creation

  /** A successful create under a key, and the task that it returns: a new one, or the key's holder. */
  predicate Answers(s: Step, key: string, id: TaskId) {
    (s.Insert? && s.key == Some(key) && s.id == id) || (s.Reply? && s.under == key && s.id == id)
  }

  lemma OneHolder(b: Board, key: string, holder: TaskId)
    requires UniqueKeys(b.tasks) && holder in KeyHolders(b.tasks, key)
    ensures KeyHolders(b.tasks, key) == {holder}
  {
  }

  /** Inserts under a key. */
  function InsertsWith(steps: seq<Step>, key: string): nat {
    if steps == [] then 0
    else
      var s := steps[|steps| - 1];
      InsertsWith(steps[..|steps| - 1], key) + if s.Insert? && s.key == Some(key) then 1 else 0
  }

  lemma AnswerHasKey(b: Board, s: Step, key: string, id: TaskId)
    requires Sound(b) && Enabled(b, s) && Answers(s, key, id)
    ensures id in Next(b, s).life && Next(b, s).life[id].key == Some(key)
  {
    KeysFromBirth(b);
  }

  /** The task that a create has answered with keeps the key for the rest of the run. */
  lemma {:induction false} AnsweredIsKeyed(b: Board, steps: seq<Step>, key: string, i: nat, id: TaskId)
    requires Sound(b) && Valid(b, steps) && i < |steps| && Answers(steps[i], key, id)
    ensures id in Exec(b, steps).life && Exec(b, steps).life[id].key == Some(key)
    decreases |steps|
  {
    var n := |steps| - 1;
    AlwaysSound(b, steps[..n]);
    if i == n {
      AnswerHasKey(Exec(b, steps[..n]), steps[n], key, id);
    } else {
      AnsweredIsKeyed(b, steps[..n], key, i, id);
      KeepsBirth(Exec(b, steps[..n]), steps[n], id);
    }
  }

  lemma AnswersAgree(b: Board, s: Step, key: string, holder: TaskId, id: TaskId)
    requires Sound(b) && Enabled(b, s) && Answers(s, key, id)
    requires holder in b.tasks && b.life[holder].key == Some(key)
    ensures s.Reply? && id == holder
  {
    KeysFromBirth(b);
    OneHolder(b, key, holder);
  }

  /**
    Of two successful creates of a run under one key, the second inserts nothing and returns the
    task that the first returned, unless that task has been dead-lettered in between.
   */
  lemma IdempotentCreation(batch: nat, maxRetries: nat, now: Time, steps: seq<Step>, key: string,
                           i: nat, j: nat, first: TaskId, second: TaskId)
    requires Valid(Empty(batch, maxRetries, now), steps) && i < j < |steps|
    requires Answers(steps[i], key, first) && Answers(steps[j], key, second)
    ensures Valid(Empty(batch, maxRetries, now), steps[..j])
    ensures first in Exec(Empty(batch, maxRetries, now), steps[..j]).tasks ==> steps[j].Reply? && second == first
  {
    var b := Empty(batch, maxRetries, now);
    EmptyIsSafe(batch, maxRetries, now);
    Prefix(b, steps, j);
    AlwaysSound(b, steps[..j]);
    AnsweredIsKeyed(b, steps[..j], key, i, first);
    if first in Exec(b, steps[..j]).tasks {
      AnswersAgree(Exec(b, steps[..j]), steps[j], key, first, second);
    }
  }

  // ---------------------------------------------------------------- how many creates one key can have

  /** Every task ever inserted under a key. */
  function Keyed(life: map<TaskId, Life>, key: string): set<TaskId> {
    set id | id in life && life[id].key == Some(key)
  }

  lemma KeyedStep(b: Board, s: Step, key: string)
    requires Shaped(b) && Enabled(b, s)
    ensures Keyed(Next(b, s).life, key) ==
            if s.Insert? && s.key == Some(key) then Keyed(b.life, key) + {s.id} else Keyed(b.life, key)
  {
    StaysShaped(b, s);
    forall id | id in b.life
      ensures Next(b, s).life[id].key == b.life[id].key
    {
      KeepsBirth(b, s, id);
    }
    forall id | id in Next(b, s).life && id !in b.life
      ensures Next(b, s).life[id].key == if s.Insert? then s.key else None
    {
      Birth(b, s, id);
    }
  }

  lemma {:induction false} InsertsAreKeyed(batch: nat, maxRetries: nat, now: Time, steps: seq<Step>, key: string)
    requires Valid(Empty(batch, maxRetries, now), steps)
    ensures InsertsWith(steps, key) == |Keyed(Exec(Empty(batch, maxRetries, now), steps).life, key)|
    decreases |steps|
  {
    var b := Empty(batch, maxRetries, now);
    if steps == [] {
      assert Keyed(b.life, key) == {};
    } else {
      var n := |steps| - 1;
      InsertsAreKeyed(batch, maxRetries, now, steps[..n], key);
      KeyedStep(Exec(b, steps[..n]), steps[n], key);
    }
  }

  lemma AtMostOneHolder(b: Board, key: string)
    requires UniqueKeys(b.tasks)
    ensures |KeyHolders(b.tasks, key)| <= 1
  {
    var holders := KeyHolders(b.tasks, key);
    if holders != {} {
      var holder :| holder in holders;
      OneHolder(b, key, holder);
    }
  }

  lemma CardSplits(all: set<TaskId>, held: set<TaskId>, dead: set<TaskId>)
    requires forall id :: id in held <==> id in all && id !in dead
    ensures |all| == |held| + |all * dead|
  {
    assert all == held + all * dead;
  }

  lemma KeyedAreHeldOrBuried(b: Board, key: string, id: TaskId)
    requires AllFaithful(b) && Conserved(b)
    ensures id in KeyHolders(b.tasks, key) <==> id in Keyed(b.life, key) && id !in Originals(b.dead)
  {
    KeysFromBirth(b);
    assert id in b.tasks.Keys + Originals(b.dead) <==> id in b.life.Keys;
  }

  lemma KeyedSplits(b: Board, key: string)
    requires AllFaithful(b) && Conserved(b)
    ensures |Keyed(b.life, key)| == |KeyHolders(b.tasks, key)| + |Keyed(b.life, key) * Originals(b.dead)|
  {
    var all, held, dead := Keyed(b.life, key), KeyHolders(b.tasks, key), Originals(b.dead);
    forall id
      ensures id in held <==> id in all && id !in dead
    {
      KeyedAreHeldOrBuried(b, key, id);
    }
    CardSplits(all, held, dead);
  }

  /**
    At most one live task has the key, and the creates that inserted under it number that one and
    the dead-lettered ones: without a dead letter, all creates together insert at most once.
   */
  lemma InsertsUnderKey(batch: nat, maxRetries: nat, now: Time, steps: seq<Step>, key: string)
    requires Valid(Empty(batch, maxRetries, now), steps)
    ensures var r := Exec(Empty(batch, maxRetries, now), steps);
            && |KeyHolders(r.tasks, key)| <= 1
            && InsertsWith(steps, key) == |KeyHolders(r.tasks, key)| + |Keyed(r.life, key) * Originals(r.dead)|
  {
    var r := Exec(Empty(batch, maxRetries, now), steps);
    EmptyIsSafe(batch, maxRetries, now);
    AlwaysSound(Empty(batch, maxRetries, now), steps);
    AtMostOneHolder(r, key);
    InsertsAreKeyed(batch, maxRetries, now, steps, key);
    KeyedSplits(r, key);
  }
}
