/** The two ways a task enters a process: the dispatcher's poll and the consumer's message. */
module Intake {
  import opened Wrappers
  import opened Oldest
  import opened TaskTable
  import opened Database

  /** The sending end of the pool's channel: what it has accepted, in order. A blocked send has not returned. */
  class Channel {
    var accepted: seq<Row>

    method Send(row: Row)
      modifies this`accepted
      ensures accepted == old(accepted) + [row]
    {
      accepted := accepted + [row];
    }
  }

  class Dispatcher {
    const repo: Store
    const tasks: Channel
    const batchSize: nat
    const workerID: WorkerId

    constructor (repo: Store, tasks: Channel, batchSize: nat, workerID: WorkerId)
      ensures this.repo == repo && this.tasks == tasks && this.batchSize == batchSize && this.workerID == workerID
    {
      this.repo, this.tasks, this.batchSize, this.workerID := repo, tasks, batchSize, workerID;
    }

    /** The loop of a cycle. */
    method SendAll(rows: seq<Row>)
      modifies tasks`accepted
      ensures tasks.accepted == old(tasks.accepted) + rows
    {
      for i := 0 to |rows|
        invariant tasks.accepted == old(tasks.accepted) + rows[..i]
      {
        tasks.Send(rows[i]);
      }
      assert rows[..|rows|] == rows;
    }

    /** What the channel has accepted since it held `before`. */
    ghost function Sent(before: seq<Row>): seq<Row>
      reads tasks
      requires |before| <= |tasks.accepted|
    {
      tasks.accepted[|before|..]
    }

    /** Claims a batch and sends all of it, oldest first; a failed claim sends nothing. */
    method RunCycle(at: Time, ghost skip: set<TaskId>, picked: seq<TaskId>, badRow: nat, faults: set<Call>)
      requires OldestFirst(Claimable(repo.tasks, at, skip), batchSize, picked)
      modifies repo`tasks, tasks`accepted
      ensures old(tasks.accepted) <= tasks.accepted
      ensures var ok := Begin !in faults && Query !in faults && |picked| <= badRow
                        && (picked != [] ==> Change !in faults && CommitTx !in faults);
              if ok then
                && repo.tasks == ClaimRows(old(repo.tasks), Elements(picked), workerID, at)
                && ClaimedExactly(old(repo.tasks), repo.tasks, picked, workerID, at)
                && OldestRows(old(repo.tasks), at, skip, batchSize, Sent(old(tasks.accepted)))
                && |Sent(old(tasks.accepted))| == |picked|
                && (forall i :: 0 <= i < |picked| ==> Sent(old(tasks.accepted))[i].id == picked[i])
              else repo.tasks == old(repo.tasks) && tasks.accepted == old(tasks.accepted)
    {
      var claimed := repo.ClaimTasks(workerID, batchSize, at, skip, picked, badRow, faults);
      if claimed.Err? {
        return;
      }
      SendAll(claimed.value);
      assert Sent(old(tasks.accepted)) == claimed.value;
    }
  }

  /** A Kafka message: not JSON, without a task id, or about a task. */
  datatype Message = Garbled | BadId | About(id: TaskId)

  class Consumer {
    const claimer: Store
    const tasks: Channel
    const workerID: WorkerId
    var committed: nat

    constructor (claimer: Store, tasks: Channel, workerID: WorkerId)
      ensures this.claimer == claimer && this.tasks == tasks && this.workerID == workerID && committed == 0
    {
      this.claimer, this.tasks, this.workerID := claimer, tasks, workerID;
      committed := 0;
    }

    method CommitMessage(fails: bool)
      modifies this`committed
      ensures committed == old(committed) + if fails then 0 else 1
    {
      if !fails {
        committed := committed + 1;
      }
    }

    /**
      The message is committed unless the claim itself failed; a task is sent exactly when the claim
      got it, and the send comes before the commit.
     */
    method ProcessMessage(message: Message, at: Time, commitFails: bool, faults: set<Call>)
      modifies claimer`tasks, tasks`accepted, this`committed
      ensures var won := message.About? && Query !in faults && message.id in old(claimer.tasks)
                         && Due(old(claimer.tasks)[message.id], at);
              if won then
                && claimer.tasks == ClaimRows(old(claimer.tasks), {message.id}, workerID, at)
                && message.id in claimer.tasks
                && claimer.tasks[message.id] ==
                   old(claimer.tasks)[message.id].(status := Running, lockedBy := Some(workerID), lockedAt := Some(at))
                && tasks.accepted == old(tasks.accepted) + [Row(message.id, claimer.tasks[message.id])]
              else claimer.tasks == old(claimer.tasks) && tasks.accepted == old(tasks.accepted)
      ensures committed == old(committed) + if commitFails || (message.About? && Query in faults) then 0 else 1
    {
      if message.Garbled? {
        CommitMessage(commitFails);
        return;
      }
      if message.BadId? {
        CommitMessage(commitFails);
        return;
      }
      var task := claimer.ClaimTask(workerID, message.id, at, faults);
      if task.Err? {
        return;
      }
      if task.value.None? {
        CommitMessage(commitFails);
        return;
      }
      tasks.Send(Row(message.id, task.value.value));
      CommitMessage(commitFails);
    }
  }
}
