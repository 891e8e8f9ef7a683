/** The recovery loops: the leader's instance monitor, the startup loop, and the stale cleaner. */
module Monitor {
  import opened Oldest
  import opened TaskTable
  import opened Database
  import Cluster

  /** Running rows held by any of the workers. */
  function RowsHeldByAny(tasks: Tasks, workers: set<WorkerId>): set<TaskId> {
    set id | id in tasks && tasks[id].status.Running? && tasks[id].lockedBy.Some? && tasks[id].lockedBy.value in workers
  }

  lemma RecoverOneMore(tasks: Tasks, workers: set<WorkerId>, w: WorkerId)
    ensures var t := ReleaseRows(tasks, RowsHeldByAny(tasks, workers));
            ReleaseRows(t, RowsHeldBy(t, w)) == ReleaseRows(tasks, RowsHeldByAny(tasks, workers + {w}))
  {
  }

  lemma RecoveredHoldNothing(tasks: Tasks, workers: set<WorkerId>)
    ensures forall w :: w in workers ==> RowsHeldBy(ReleaseRows(tasks, RowsHeldByAny(tasks, workers)), w) == {}
  {
  }

  /** The instance's heartbeat is older than the timeout. */
  predicate Silent(instances: map<WorkerId, Time>, w: WorkerId, at: Time, timeout: Time) {
    w in instances && instances[w] + timeout < at
  }

  /** Row by row: the running rows of silent instances are reset, and these removed, unless a call fails. */
  ghost predicate SweptExactly(before: Tasks, after: Tasks, instances: map<WorkerId, Time>, left: map<WorkerId, Time>,
                               at: Time, timeout: Time, unrecovered: set<WorkerId>, undeleted: set<WorkerId>) {
    && ResetExactly(before, after, set id | id in before && before[id].status.Running? && before[id].lockedBy.Some?
                      && Silent(instances, before[id].lockedBy.value, at, timeout)
                      && before[id].lockedBy.value !in unrecovered)
    && (forall w :: w in left <==>
          w in instances && (Silent(instances, w, at, timeout) ==> w in unrecovered || w in undeleted))
    && (forall w :: w in left ==> left[w] == instances[w])
  }

  lemma SweepIsExact(tasks: Tasks, instances: map<WorkerId, Time>, stale: set<WorkerId>, at: Time, timeout: Time,
                     unrecovered: set<WorkerId>, undeleted: set<WorkerId>)
    requires forall w :: w in stale <==> Silent(instances, w, at, timeout)
    ensures SweptExactly(tasks, ReleaseRows(tasks, RowsHeldByAny(tasks, stale - unrecovered)), instances,
                         instances - (stale - unrecovered - undeleted), at, timeout, unrecovered, undeleted)
  {
  }

  class Recovery {
    const repo: Store

    constructor (repo: Store)
      ensures this.repo == repo
    {
      this.repo := repo;
    }

    /** The body of the loop: deregister only after the tasks were recovered. */
    method RecoverInstance(w: WorkerId, recoverFails: bool, deleteFails: bool) returns (recovered: bool)
      modifies repo`tasks, repo`instances
      ensures recovered == !recoverFails
      ensures repo.tasks == if recoverFails then old(repo.tasks)
                            else ReleaseRows(old(repo.tasks), RowsHeldBy(old(repo.tasks), w))
      ensures repo.instances == if recoverFails || deleteFails then old(repo.instances) else old(repo.instances) - {w}
    {
      var r := repo.RecoverTasksByInstance(w, if recoverFails then {Query} else {});
      if r.Err? {
        return false;
      }
      var d := repo.Deregister(w, if deleteFails then {Query} else {});
      recovered := true;
    }

    /**
      One pass over the stale instances. `unrecovered` and `undeleted` are the instances whose
      statements fail; a failure skips to the next instance. An instance is deregistered only after
      its tasks were recovered, and whatever the order, the tables end up the same.
     */
    method Sweep(at: Time, timeout: Time, badRow: nat, scanFails: bool, unrecovered: set<WorkerId>,
                 undeleted: set<WorkerId>)
      modifies repo`tasks, repo`instances
      ensures var stale := Cluster.StaleInstances(old(repo.instances), at, timeout);
              if scanFails || badRow < |stale| then repo.tasks == old(repo.tasks)
                  && repo.instances == old(repo.instances)
              else
                && repo.tasks == ReleaseRows(old(repo.tasks), RowsHeldByAny(old(repo.tasks), stale - unrecovered))
                && repo.instances == old(repo.instances) - (stale - unrecovered - undeleted)
      ensures forall w :: w in old(repo.instances) && w !in repo.instances ==> RowsHeldBy(repo.tasks, w) == {}
      ensures !scanFails && |Cluster.StaleInstances(old(repo.instances), at, timeout)| <= badRow ==>
                SweptExactly(old(repo.tasks), repo.tasks, old(repo.instances), repo.instances, at, timeout, unrecovered,
                             undeleted)
    {
      var found := repo.GetStaleInstances(at, timeout, badRow, if scanFails then {Query} else {});
      if found.Err? {
        return;
      }
      var instances := found.value;
      ghost var stale := Cluster.StaleInstances(repo.instances, at, timeout);
      assert Elements(instances) == stale;
      ghost var recovered: set<WorkerId> := {};
      assert ReleaseRows(repo.tasks, {}) == repo.tasks && RowsHeldByAny(repo.tasks, {}) == {};
      for i := 0 to |instances|
        invariant recovered == Elements(instances[..i]) - unrecovered
        invariant repo.tasks == ReleaseRows(old(repo.tasks), RowsHeldByAny(old(repo.tasks), recovered))
        invariant repo.instances == old(repo.instances) - (recovered - undeleted)
      {
        var w := instances[i];
        assert Elements(instances[..i + 1]) == Elements(instances[..i]) + {w};
        var ok := RecoverInstance(w, w in unrecovered, w in undeleted);
        if ok {
          RecoverOneMore(old(repo.tasks), recovered, w);
          recovered := recovered + {w};
        }
      }
      assert instances[..|instances|] == instances;
      assert recovered == stale - unrecovered;
      SweepIsExact(old(repo.tasks), old(repo.instances), stale, at, timeout, unrecovered, undeleted);
      RecoveredHoldNothing(old(repo.tasks), recovered);
    }

    /** One tick of the stale cleaner. */
    method Clean(at: Time, age: Time, fails: bool) returns (count: nat)
      modifies repo`tasks
      ensures repo.tasks == if fails then old(repo.tasks)
                else ReleaseRows(old(repo.tasks), StaleRows(old(repo.tasks), at, age))
      ensures count == if fails then 0 else |StaleRows(old(repo.tasks), at, age)|
      ensures !fails ==> ResetExactly(old(repo.tasks), repo.tasks, set id | id in old(repo.tasks)
                           && old(repo.tasks)[id].status.Running? && old(repo.tasks)[id].lockedAt.Some?
                           && old(repo.tasks)[id].lockedAt.value + age < at)
    {
      var r := repo.UnlockStaleTasks(at, age, if fails then {Query} else {});
      count := if r.Ok? then r.value else 0;
    }
  }
}
