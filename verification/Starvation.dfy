/**
  Polling cannot starve a task: every poll that passes over a claimable task spends a whole
  batch of the bounded claims of tasks that are at least as old.
 */
module Starvation {
  import opened Wrappers
  import opened Oldest
  import opened TaskTable
  import opened TaskLife
  import opened Board
  import opened Invariants
  import opened Guarantees

  // ---------------------------------------------------------------- sums

  ghost function Total(ids: set<TaskId>, counts: map<TaskId, nat>): nat
    requires ids <= counts.Keys
  {
    if ids == {} then 0
    else
      var id :| id in ids;
      counts[id] + Total(ids - {id}, counts)
  }

  lemma {:induction false} TotalPick(ids: set<TaskId>, counts: map<TaskId, nat>, id: TaskId)
    requires ids <= counts.Keys && id in ids
    ensures Total(ids, counts) == counts[id] + Total(ids - {id}, counts)
    decreases ids
  {
    var first :| first in ids && Total(ids, counts) == counts[first] + Total(ids - {first}, counts);
    if first != id {
      TotalPick(ids - {first}, counts, id);
      TotalPick(ids - {id}, counts, first);
      assert ids - {first} - {id} == ids - {id} - {first};
    }
  }

  lemma {:induction false} TotalGrows(ids: set<TaskId>, counts: map<TaskId, nat>,
                                      more: set<TaskId>, later: map<TaskId, nat>)
    requires ids <= counts.Keys && more <= later.Keys && ids <= more
    requires forall id :: id in ids ==> counts[id] <= later[id]
    ensures Total(ids, counts) <= Total(more, later)
    decreases more
  {
    if more != {} {
      var id :| id in more;
      TotalPick(more, later, id);
      if id in ids {
        TotalPick(ids, counts, id);
      }
      TotalGrows(ids - {id}, counts, more - {id}, later);
      assert id !in ids ==> ids - {id} == ids;
    }
  }

  lemma {:induction false} TotalGains(ids: set<TaskId>, counts: map<TaskId, nat>, later: map<TaskId, nat>,
                                      gain: set<TaskId>)
    requires ids <= counts.Keys && ids <= later.Keys && gain <= ids
    requires forall id :: id in ids ==> later[id] == counts[id] + if id in gain then 1 else 0
    ensures Total(ids, later) == Total(ids, counts) + |gain|
    decreases ids
  {
    if ids != {} {
      var id :| id in ids;
      TotalPick(ids, counts, id);
      TotalPick(ids, later, id);
      TotalGains(ids - {id}, counts, later, gain - {id});
      assert |gain| == |gain - {id}| + if id in gain then 1 else 0;
    }
  }

  lemma {:induction false} TotalBound(ids: set<TaskId>, counts: map<TaskId, nat>, each: nat, extra: map<TaskId, nat>)
    requires ids <= counts.Keys && ids <= extra.Keys
    requires forall id :: id in ids ==> counts[id] <= each + 2 * extra[id]
    ensures Total(ids, counts) <= |ids| * each + 2 * Total(ids, extra)
    decreases ids
  {
    if ids != {} {
      var id :| id in ids;
      TotalPick(ids, counts, id);
      TotalPick(ids, extra, id);
      TotalBound(ids - {id}, counts, each, extra);
      Distribute(|ids - {id}|, each);
      assert |ids| == |ids - {id}| + 1;
    }
  }

  lemma {:induction false} TotalOfNone(ids: set<TaskId>, counts: map<TaskId, nat>)
    requires ids <= counts.Keys && forall id :: id in ids ==> counts[id] == 0
    ensures Total(ids, counts) == 0
    decreases ids
  {
    if ids != {} {
      var id :| id in ids;
      TotalPick(ids, counts, id);
      TotalOfNone(ids - {id}, counts);
    }
  }

  lemma Distribute(n: nat, each: nat)
    ensures (n + 1) * each == n * each + each
  {
  }

  function Claims(life: map<TaskId, Life>): (counts: map<TaskId, nat>)
    ensures counts.Keys == life.Keys && forall id :: id in life ==> counts[id] == life[id].claims
  {
    map id | id in life :: life[id].claims
  }

  // ---------------------------------------------------------------- the spent budget

  /** Ids ever inserted with a creation time no later than `stamp`. */
  function UpTo(life: map<TaskId, Life>, stamp: Time): (ids: set<TaskId>)
    ensures forall id :: id in ids <==> id in life && life[id].createdAt <= stamp
  {
    set id | id in life && life[id].createdAt <= stamp
  }

  ghost predicate Spent(b: Board, id: TaskId)
    requires id in b.life
  {
    b.batch * b.life[id].passed <= Total(UpTo(b.life, b.life[id].createdAt), Claims(b.life))
  }

  ghost predicate PassedOver(b: Board, s: Step, id: TaskId) {
    s.ClaimBatch? && id in Claimable(b.tasks, s.at, s.skip) && id !in s.ids
  }

  /** How a step moves one task's counters. */
  lemma PassMoves(b: Board, s: Step, id: TaskId)
    requires Shaped(b) && Enabled(b, s) && id in b.life
    ensures id in Next(b, s).life
    ensures Next(b, s).life[id].passed == b.life[id].passed + if PassedOver(b, s, id) then 1 else 0
  {
    Projection(b, s, id);
    assert At(Next(b, s), id).life == Next(b, s).life[id];
  }

  /** A poll that passes over a task claims a full batch of tasks that are at least as old. */
  lemma PollIsFull(b: Board, s: Step, id: TaskId)
    requires AllFaithful(b) && Enabled(b, s) && PassedOver(b, s, id)
    ensures id in b.life
    ensures Elements(s.ids) <= UpTo(b.life, b.life[id].createdAt)
    ensures |Elements(s.ids)| == b.batch
  {
    var open := Claimable(b.tasks, s.at, s.skip);
    LeftOutMeansFull(open, b.batch, s.ids, id);
    DistinctCount(s.ids);
    StampsAreBirths(b, id);
    forall i | 0 <= i < |s.ids|
      ensures s.ids[i] in UpTo(b.life, b.life[id].createdAt)
    {
      StampsAreBirths(b, s.ids[i]);
      assert open[s.ids[i]] <= open[id];
    }
  }

  lemma StampsAreBirths(b: Board, id: TaskId)
    requires AllFaithful(b) && id in b.tasks
    ensures id in b.life && b.tasks[id].createdAt == b.life[id].createdAt
  {
    assert Faithful(At(b, id)) && At(b, id).row == Some(b.tasks[id]);
  }

  ghost predicate LifeGrows(b: Board, d: Board) {
    && b.life.Keys <= d.life.Keys
    && (forall id :: id in b.life ==>
          d.life[id].createdAt == b.life[id].createdAt && b.life[id].claims <= d.life[id].claims)
  }

  lemma StepGrowsLife(b: Board, s: Step)
    requires Shaped(b) && Enabled(b, s)
    ensures LifeGrows(b, Next(b, s))
  {
    StaysShaped(b, s);
    forall id | id in b.life
      ensures Next(b, s).life[id].createdAt == b.life[id].createdAt && b.life[id].claims <= Next(b, s).life[id].claims
    {
      KeepsBirth(b, s, id);
      CountersMove(b, s, id);
    }
  }

  lemma GrowthKeepsSpent(b: Board, d: Board, id: TaskId)
    requires id in b.life && Spent(b, id) && LifeGrows(b, d) && d.batch == b.batch
    requires d.life[id].passed == b.life[id].passed
    ensures Spent(d, id)
  {
    TotalGrows(UpTo(b.life, b.life[id].createdAt), Claims(b.life), UpTo(d.life, d.life[id].createdAt), Claims(d.life));
  }

  lemma PassKeepsSpent(b: Board, d: Board, id: TaskId, gain: set<TaskId>)
    requires id in b.life && Spent(b, id) && LifeGrows(b, d) && d.batch == b.batch && d.life.Keys == b.life.Keys
    requires gain <= UpTo(b.life, b.life[id].createdAt) && |gain| == b.batch
    requires forall j :: j in b.life ==> d.life[j].claims == b.life[j].claims + if j in gain then 1 else 0
    requires d.life[id].passed == b.life[id].passed + 1
    ensures Spent(d, id)
  {
    var older := UpTo(b.life, b.life[id].createdAt);
    TotalGains(older, Claims(b.life), Claims(d.life), gain);
    assert UpTo(d.life, d.life[id].createdAt) == older;
    assert b.batch * (b.life[id].passed + 1) == b.batch * b.life[id].passed + b.batch;
  }

  lemma PollClaims(b: Board, s: Step)
    requires Shaped(b) && Enabled(b, s) && s.ClaimBatch?
    ensures Next(b, s).life.Keys == b.life.Keys
    ensures forall j :: j in b.life ==>
              Next(b, s).life[j].claims == b.life[j].claims + if j in Elements(s.ids) then 1 else 0
  {
  }

  lemma StepKeepsSpent(b: Board, s: Step, id: TaskId)
    requires AllFaithful(b) && Enabled(b, s) && id in Next(b, s).life
    requires id in b.life ==> Spent(b, id)
    ensures Spent(Next(b, s), id)
  {
    ConstantsKept(b, s);
    if id !in b.life {
      Birth(b, s, id);
    } else {
      StepGrowsLife(b, s);
      PassMoves(b, s, id);
      if PassedOver(b, s, id) {
        PollIsFull(b, s, id);
        PollClaims(b, s);
        PassKeepsSpent(b, Next(b, s), id, Elements(s.ids));
      } else {
        GrowthKeepsSpent(b, Next(b, s), id);
      }
    }
  }

  // ---------------------------------------------------------------- over runs

  /** Polls of the run that found the task claimable and did not return it. */
  ghost function PassesIn(b: Board, steps: seq<Step>, id: TaskId): nat
    requires Valid(b, steps)
    decreases |steps|
  {
    if steps == [] then 0
    else
      var n := |steps| - 1;
      PassesIn(b, steps[..n], id) + if PassedOver(Exec(b, steps[..n]), steps[n], id) then 1 else 0
  }

  lemma {:induction false} PassesAreTrue(batch: nat, maxRetries: nat, now: Time, steps: seq<Step>, id: TaskId)
    requires Valid(Empty(batch, maxRetries, now), steps)
    ensures var b := Empty(batch, maxRetries, now);
            var r := Exec(b, steps);
            PassesIn(b, steps, id) == if id in r.life then r.life[id].passed else 0
    decreases |steps|
  {
    var b := Empty(batch, maxRetries, now);
    if steps != [] {
      var n := |steps| - 1;
      var p := Exec(b, steps[..n]);
      PassesAreTrue(batch, maxRetries, now, steps[..n], id);
      if id in p.life {
        PassMoves(p, steps[n], id);
      } else if id in Next(p, steps[n]).life {
        Birth(p, steps[n], id);
      }
    }
  }

  lemma {:induction false} AlwaysSpent(batch: nat, maxRetries: nat, now: Time, steps: seq<Step>, id: TaskId)
    requires Valid(Empty(batch, maxRetries, now), steps)
    ensures var r := Exec(Empty(batch, maxRetries, now), steps); id in r.life ==> Spent(r, id)
    decreases |steps|
  {
    var b := Empty(batch, maxRetries, now);
    if steps != [] {
      var n := |steps| - 1;
      AlwaysSpent(batch, maxRetries, now, steps[..n], id);
      EmptyIsSafe(batch, maxRetries, now);
      AlwaysSound(b, steps[..n]);
      if id in Next(Exec(b, steps[..n]), steps[n]).life {
        StepKeepsSpent(Exec(b, steps[..n]), steps[n], id);
      }
    }
  }

  lemma {:induction false} NoResets(b: Board, steps: seq<Step>, id: TaskId)
    requires Valid(b, steps) && NoRecovery(steps)
    ensures ResetsIn(b, steps, id) == 0
    decreases |steps|
  {
    if steps != [] {
      NoResets(b, steps[..|steps| - 1], id);
    }
  }

  /** How often recovery reset each of the tasks during the run. */
  ghost function Resets(b: Board, steps: seq<Step>, ids: set<TaskId>): (counts: map<TaskId, nat>)
    requires Valid(b, steps)
    ensures counts.Keys == ids && forall id :: id in ids ==> counts[id] == ResetsIn(b, steps, id)
  {
    map id | id in ids :: ResetsIn(b, steps, id)
  }

  /**
    Without override, a claimable task is passed over by so few polls that `batch` times their number
    is at most n * m and twice the resets of the n tasks that are at least as old: each is claimed at
    most m times, and two more times for each reset.
   */
  lemma BoundedPasses(batch: nat, maxRetries: nat, now: Time, steps: seq<Step>, id: TaskId)
    requires 1 <= maxRetries
    requires Valid(Empty(batch, maxRetries, now), steps) && NoOverride(steps)
    requires id in Exec(Empty(batch, maxRetries, now), steps).life
    ensures var b := Empty(batch, maxRetries, now);
            var life := Exec(b, steps).life;
            var older := UpTo(life, life[id].createdAt);
            batch * PassesIn(b, steps, id) <= |older| * maxRetries + 2 * Total(older, Resets(b, steps, older))
  {
    var b := Empty(batch, maxRetries, now);
    var r := Exec(b, steps);
    var older := UpTo(r.life, r.life[id].createdAt);
    AlwaysSpent(batch, maxRetries, now, steps, id);
    PassesAreTrue(batch, maxRetries, now, steps, id);
    ConstantsStay(b, steps);
    forall j | j in older
      ensures Claims(r.life)[j] <= maxRetries + 2 * Resets(b, steps, older)[j]
    {
      CountersAreTrue(batch, maxRetries, now, steps, j);
      BoundedClaims(batch, maxRetries, now, steps, j);
    }
    TotalBound(older, Claims(r.life), maxRetries, Resets(b, steps, older));
  }

  /** Without recovery, at most n * m. */
  lemma NoStarvation(batch: nat, maxRetries: nat, now: Time, steps: seq<Step>, id: TaskId)
    requires 1 <= maxRetries
    requires Valid(Empty(batch, maxRetries, now), steps) && NoOverride(steps) && NoRecovery(steps)
    requires id in Exec(Empty(batch, maxRetries, now), steps).life
    ensures var b := Empty(batch, maxRetries, now);
            var life := Exec(b, steps).life;
            batch * PassesIn(b, steps, id) <= |UpTo(life, life[id].createdAt)| * maxRetries
  {
    var b := Empty(batch, maxRetries, now);
    var r := Exec(b, steps);
    var older := UpTo(r.life, r.life[id].createdAt);
    BoundedPasses(batch, maxRetries, now, steps, id);
    forall j | j in older
      ensures Resets(b, steps, older)[j] == 0
    {
      NoResets(b, steps, j);
    }
    TotalOfNone(older, Resets(b, steps, older));
  }

  /** What counts as being passed over: a poll that did not return the task although it was pending, free and due. */
  lemma PassCounts(b: Board, steps: seq<Step>, s: Step, id: TaskId)
    requires Valid(b, steps) && Enabled(Exec(b, steps), s) && s.ClaimBatch? && id !in s.ids && id !in s.skip
    requires id in Exec(b, steps).tasks
    requires var t := Exec(b, steps).tasks[id];
             t.status == Pending && t.lockedBy == None && (t.nextRetryAt == None || t.nextRetryAt.value <= s.at)
    ensures Valid(b, steps + [s]) && PassesIn(b, steps + [s], id) == PassesIn(b, steps, id) + 1
  {
    Extend(b, steps, s);
    assert (steps + [s])[..|steps|] == steps;
  }
}
