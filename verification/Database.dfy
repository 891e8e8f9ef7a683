/**
  The repositories, as one object that holds the tables they write. A transaction works on copies
  and assigns them at its commit; `faults` says which calls to the database fail, and a result set
  that only the engine can choose is a parameter with what the query promises about it. A call that
  fails here has done nothing; a commit whose acknowledgement is lost is, for the machines, the
  committed step followed by the loss of its envelope.
 */
module Database {
  import opened Wrappers
  import opened Oldest
  import opened TaskTable
  import opened Outbox
  import Cluster

  /** The calls that can fail. A failed call rolls its transaction back. */
  datatype Call = Begin | Query | Lookup | Announce | Change | Remove | CommitTx

  /** A task row with its id, as scanned. */
  datatype Row = Row(id: TaskId, task: Task)

  datatype EventRow = EventRow(id: EventId, event: Event)

  class Store {
    var tasks: Tasks
    var dead: DeadLetters
    var outbox: Events
    var instances: map<WorkerId, Time>
    var nextLetter: DeadId
    var nextEvent: EventId

    constructor ()
      ensures tasks == map[] && dead == map[] && outbox == map[] && instances == map[]
      ensures nextLetter == 0 && nextEvent == 0
    {
      tasks, dead, outbox, instances, nextLetter, nextEvent := map[], map[], map[], map[], 0, 0;
    }

    /** Serial keys are ahead of every row. */
    ghost predicate Valid()
      reads this
    {
      && (forall d :: d in dead ==> d < nextLetter)
      && (forall e :: e in outbox ==> e < nextEvent)
    }

    // -------------------------------------------------------------- task repository

    /** `newId` is the UUID that the engine generates for a new row. */
    method Create(payload: Payload, key: Option<string>, at: Time, newId: TaskId, faults: set<Call>)
      returns (created: bool, r: Result<TaskId>)
      requires Valid() && newId !in tasks
      modifies this`tasks, this`outbox, this`nextEvent
      ensures Valid()
      ensures created ==>
                && r == Ok(newId)
                && (key.Some? ==> KeyHolders(old(tasks), key.value) == {})
                && tasks == old(tasks)[newId := NewTask(payload, key, DEFAULT_MAX_RETRIES, at)]
                && old(nextEvent) !in old(outbox)
                && outbox == old(outbox)[old(nextEvent) := Event(newId, at, None)]
                && nextEvent == old(nextEvent) + 1
      ensures !created ==> tasks == old(tasks) && outbox == old(outbox) && nextEvent == old(nextEvent)
      ensures created ==>
                newId in tasks && tasks[newId] == Task(Pending, payload, at, None, None, 0, 3, None, None, key)
      ensures !created && r.Ok? ==> key.Some? && r.value in KeyHolders(tasks, key.value)
      ensures !created && r.Ok? ==> r.value in tasks && tasks[r.value].key == key
      ensures var taken := key.Some? && KeyHolders(old(tasks), key.value) != {};
              && (created <==> !taken && faults !! {Begin, Query, Announce, CommitTx})
              && (r.Ok? <==> if taken then faults !! {Begin, Query, Lookup} else created)
              && (r.Err? ==> r == Err(Internal))
    {
      created, r := false, Err(Internal);
      if Begin in faults || Query in faults {
        return;
      }
      if key.Some? {
        var holders := KeyHolders(tasks, key.value);
        if holders != {} {
          if Lookup in faults {
            return;
          }
          var holder :| holder in holders;
          r := Ok(holder);
          return;
        }
      }
      var newTasks := tasks[newId := NewTask(payload, key, DEFAULT_MAX_RETRIES, at)];
      if Announce in faults || CommitTx in faults {
        return;
      }
      tasks := newTasks;
      outbox := outbox[nextEvent := Event(newId, at, None)];
      nextEvent := nextEvent + 1;
      created, r := true, Ok(newId);
    }

    /**
      `picked` is the engine's answer to the SELECT ... FOR UPDATE SKIP LOCKED, `skip` the rows others
      had locked, and row number `badRow` fails to scan, if there is one.
     */
    method ClaimTasks(worker: WorkerId, limit: nat, at: Time, ghost skip: set<TaskId>, picked: seq<TaskId>,
                      badRow: nat, faults: set<Call>)
      returns (r: Result<seq<Row>>)
      requires OldestFirst(Claimable(tasks, at, skip), limit, picked)
      modifies this`tasks
      ensures r.Err? ==> tasks == old(tasks)
      ensures r.Ok? ==>
                && tasks == ClaimRows(old(tasks), Elements(picked), worker, at)
                && |r.value| == |picked|
                && (forall i :: 0 <= i < |picked| ==>
                      picked[i] in old(tasks) && r.value[i] == Row(picked[i], old(tasks)[picked[i]])
                      && Eligible(r.value[i].task, at))
      ensures r.Ok? ==> ClaimedExactly(old(tasks), tasks, picked, worker, at)
      ensures r.Ok? ==> OldestRows(old(tasks), at, skip, limit, r.value)
      ensures r.Ok? <==> Begin !in faults && Query !in faults && |picked| <= badRow
                         && (picked != [] ==> Change !in faults && CommitTx !in faults)
    {
      r := Err(Internal);
      if Begin in faults || Query in faults {
        return;
      }
      var rows: seq<Row> := [];
      var ids: seq<TaskId> := [];
      for i := 0 to |picked|
        invariant i <= badRow
        invariant ids == picked[..i] && |rows| == i
        invariant forall j :: 0 <= j < i ==> picked[j] in tasks && rows[j] == Row(picked[j], tasks[picked[j]])
        invariant tasks == old(tasks) && r == Err(Internal)
      {
        if i == badRow {
          return;
        }
        assert picked[i] in Claimable(tasks, at, skip);
        rows := rows + [Row(picked[i], tasks[picked[i]])];
        ids := ids + [picked[i]];
      }
      assert ids == picked;
      assert forall i :: 0 <= i < |picked| ==> picked[i] in Claimable(tasks, at, skip);
      BatchIsOldest(tasks, at, skip, limit, picked, rows);
      ClaimIsExact(tasks, picked, worker, at);
      if |ids| == 0 {
        assert ClaimRows(tasks, Elements(picked), worker, at) == tasks;
        return Ok(rows);
      }
      if Change in faults || CommitTx in faults {
        return;
      }
      tasks := ClaimRows(tasks, Elements(ids), worker, at);
      r := Ok(rows);
    }

    /** Nothing is claimed, and no error, when the row is not there or not claimable. */
    method ClaimTask(worker: WorkerId, id: TaskId, at: Time, faults: set<Call>) returns (r: Result<Option<Task>>)
      modifies this`tasks
      ensures Query in faults ==> r.Err? && tasks == old(tasks)
      ensures Query !in faults ==>
                if id in old(tasks) && Eligible(old(tasks)[id], at)
                then r == Ok(Some(Claimed(old(tasks)[id], worker, at)))
                     && tasks == ClaimRows(old(tasks), {id}, worker, at)
                else r == Ok(None) && tasks == old(tasks)
      ensures r.Ok? && r.value.Some? <==> Query !in faults && id in old(tasks) && Due(old(tasks)[id], at)
      ensures r.Ok? && r.value.Some? ==>
                && Others(old(tasks), tasks, id) && id in tasks && r.value.value == tasks[id]
                && tasks[id] == old(tasks)[id].(status := Running, lockedBy := Some(worker), lockedAt := Some(at))
    {
      if Query in faults {
        return Err(Internal);
      }
      if id !in tasks || !Eligible(tasks[id], at) {
        return Ok(None);
      }
      tasks := ClaimRows(tasks, {id}, worker, at);
      r := Ok(Some(tasks[id]));
    }

    method CompleteTask(id: TaskId, faults: set<Call>) returns (r: Result<()>)
      modifies this`tasks
      ensures tasks == if Query in faults then old(tasks) else CompleteRow(old(tasks), id)
      ensures r.Ok? ==>
                && Others(old(tasks), tasks, id) && id in tasks
                && tasks[id] == old(tasks)[id].(status := Completed, lockedBy := None, lockedAt := None)
      ensures r == if Query in faults then Err(Internal) else if id !in old(tasks) then Err(NotFound) else Ok(())
    {
      if Query in faults {
        return Err(Internal);
      }
      r := if id in tasks then Ok(()) else Err(NotFound);
      tasks := CompleteRow(tasks, id);
    }

    method FailTask(id: TaskId, message: Message, next: Option<Time>, faults: set<Call>) returns (r: Result<()>)
      modifies this`tasks
      ensures tasks == if Query in faults then old(tasks) else FailRow(old(tasks), id, message, next)
      ensures r.Ok? ==>
                && Others(old(tasks), tasks, id) && id in tasks
                && tasks[id].lastError == Some(message) && tasks[id].attempts == old(tasks)[id].attempts + 1
                && tasks[id].lockedBy == None && tasks[id].lockedAt == None
                && tasks[id].nextRetryAt == (if next.Some? then next else old(tasks)[id].nextRetryAt)
                && tasks[id].status == (if next.Some? then Pending else Failed)
                && tasks[id].payload == old(tasks)[id].payload && tasks[id].key == old(tasks)[id].key
                && tasks[id].createdAt == old(tasks)[id].createdAt && tasks[id].maxRetries == old(tasks)[id].maxRetries
      ensures r.Ok? ==> forall now :: Eligible(tasks[id], now) <==> next.Some? && next.value <= now
      ensures r == if Query in faults then Err(Internal) else if id !in old(tasks) then Err(NotFound) else Ok(())
    {
      if Query in faults {
        return Err(Internal);
      }
      if id !in tasks {
        return Err(NotFound);
      }
      if next.Some? {
        tasks := tasks[id := Retried(tasks[id], message, next.value)];
      } else {
        tasks := tasks[id := Rejected(tasks[id], message)];
      }
      r := Ok(());
    }

    method UnlockStaleTasks(at: Time, age: Time, faults: set<Call>) returns (r: Result<nat>)
      modifies this`tasks
      ensures tasks == if Query in faults then old(tasks) else ReleaseRows(old(tasks), StaleRows(old(tasks), at, age))
      ensures r == if Query in faults then Err(Internal) else Ok(|StaleRows(old(tasks), at, age)|)
      ensures r.Ok? ==> ResetExactly(old(tasks), tasks, set id | id in old(tasks) && old(tasks)[id].status.Running?
                          && old(tasks)[id].lockedAt.Some? && old(tasks)[id].lockedAt.value + age < at)
    {
      if Query in faults {
        return Err(Internal);
      }
      var stale := StaleRows(tasks, at, age);
      tasks := ReleaseRows(tasks, stale);
      r := Ok(|stale|);
    }

    method RecoverTasksByInstance(worker: WorkerId, faults: set<Call>) returns (r: Result<nat>)
      modifies this`tasks
      ensures tasks == if Query in faults then old(tasks) else ReleaseRows(old(tasks), RowsHeldBy(old(tasks), worker))
      ensures r == if Query in faults then Err(Internal) else Ok(|RowsHeldBy(old(tasks), worker)|)
      ensures r.Ok? ==> ResetExactly(old(tasks), tasks, set id | id in old(tasks) && old(tasks)[id].status.Running?
                          && old(tasks)[id].lockedBy == Some(worker))
    {
      if Query in faults {
        return Err(Internal);
      }
      var held := RowsHeldBy(tasks, worker);
      tasks := ReleaseRows(tasks, held);
      r := Ok(|held|);
    }

    // -------------------------------------------------------------- dead-letter repository

    /** A row without last_error breaks the column's NOT NULL, and nothing changes. */
    method MoveToDLQ(id: TaskId, at: Time, faults: set<Call>) returns (r: Result<()>)
      requires Valid()
      modifies this`tasks, this`dead, this`nextLetter
      ensures Valid()
      ensures r.Ok? ==>
                && id in old(tasks) && old(tasks)[id].lastError.Some?
                && old(nextLetter) !in old(dead)
                && tasks == old(tasks) - {id}
                && dead == old(dead)[old(nextLetter) := Letter(id, old(tasks)[id], at)]
      ensures r.Ok? ==>
                && old(nextLetter) in dead
                && var was, letter := old(tasks)[id], dead[old(nextLetter)];
                   && letter.original == id && letter.payload == was.payload && letter.attempts == was.attempts
                   && Some(letter.lastError) == was.lastError && letter.failedAt == at && letter.retriedAt == None
      ensures r.Err? ==> tasks == old(tasks) && dead == old(dead)
      ensures r.Ok? <==> id in old(tasks) && old(tasks)[id].lastError.Some?
                         && faults !! {Begin, Query, Announce, Remove, CommitTx}
      ensures r == Err(NotFound) <==> id !in old(tasks) && faults !! {Begin, Query}
    {
      if Begin in faults {
        return Err(Internal);
      }
      if Query in faults {
        return Err(Internal);
      }
      if id !in tasks {
        return Err(NotFound);
      }
      var read := tasks[id];
      if Announce in faults || read.lastError.None? {
        return Err(Internal);
      }
      if Remove in faults || CommitTx in faults {
        return Err(Internal);
      }
      dead := dead[nextLetter := Letter(id, read, at)];
      nextLetter := nextLetter + 1;
      tasks := tasks - {id};
      r := Ok(());
    }

    /**
      A new task with the dead letter's payload; no outbox event is written. The returned task has only
      the columns that the code fills in: its max_retries is the zero value, not the row's default.
     */
    method Retry(letter: DeadId, at: Time, newId: TaskId, faults: set<Call>) returns (r: Result<Row>)
      requires Valid() && newId !in tasks
      modifies this`tasks, this`dead
      ensures Valid()
      ensures r.Ok? ==>
                && letter in old(dead)
                && r.value == Row(newId, NewTask(old(dead)[letter].payload, None, 0, at))
                && tasks == old(tasks)[newId := NewTask(old(dead)[letter].payload, None, DEFAULT_MAX_RETRIES, at)]
                && dead == old(dead)[letter := old(dead)[letter].(retriedAt := Some(at))]
                && newId in tasks
                && tasks[newId] == Task(Pending, old(dead)[letter].payload, at, None, None, 0, 3, None, None, None)
      ensures r.Err? ==> tasks == old(tasks) && dead == old(dead)
      ensures r.Ok? <==> letter in old(dead) && faults !! {Begin, Query, Announce, Change, CommitTx}
      ensures r == Err(NotFound) <==> letter !in old(dead) && faults !! {Begin, Query}
    {
      if Begin in faults || Query in faults {
        return Err(Internal);
      }
      if letter !in dead {
        return Err(NotFound);
      }
      var row := NewTask(dead[letter].payload, None, DEFAULT_MAX_RETRIES, at);
      if Announce in faults || Change in faults || CommitTx in faults {
        return Err(Internal);
      }
      tasks := tasks[newId := row];
      dead := dead[letter := dead[letter].(retriedAt := Some(at))];
      r := Ok(Row(newId, row.(maxRetries := 0)));
    }

    // -------------------------------------------------------------- outbox repository

    method GetUnpublished(limit: nat, picked: seq<EventId>, badRow: nat, faults: set<Call>)
      returns (r: Result<seq<EventRow>>)
      requires OldestFirst(Unpublished(outbox), limit, picked)
      ensures r.Ok? <==> Query !in faults && |picked| <= badRow
      ensures r.Ok? ==>
                && |r.value| == |picked|
                && (forall i :: 0 <= i < |picked| ==>
                      picked[i] in outbox && r.value[i] == EventRow(picked[i], outbox[picked[i]]))
      ensures r.Ok? ==> OldestEvents(outbox, limit, r.value)
    {
      if Query in faults {
        return Err(Internal);
      }
      var rows: seq<EventRow> := [];
      for i := 0 to |picked|
        invariant i <= badRow && |rows| == i
        invariant forall j :: 0 <= j < i ==> picked[j] in outbox && rows[j] == EventRow(picked[j], outbox[picked[j]])
      {
        if i == badRow {
          return Err(Internal);
        }
        assert picked[i] in Unpublished(outbox);
        rows := rows + [EventRow(picked[i], outbox[picked[i]])];
      }
      EventsAreOldest(outbox, limit, picked, rows);
      r := Ok(rows);
    }

    method MarkPublished(ids: seq<EventId>, at: Time, faults: set<Call>) returns (r: Result<()>)
      requires Valid()
      modifies this`outbox
      ensures Valid()
      ensures r.Ok? <==> Change !in faults
      ensures outbox == if r.Ok? then Mark(old(outbox), Elements(ids), at) else old(outbox)
      ensures outbox.Keys == old(outbox).Keys
      ensures r.Ok? ==> forall e :: e in outbox ==>
                outbox[e] == if e in ids then old(outbox)[e].(publishedAt := Some(at)) else old(outbox)[e]
    {
      if Change in faults {
        return Err(Internal);
      }
      outbox := Mark(outbox, Elements(ids), at);
      r := Ok(());
    }

    method PurgePublished(at: Time, retention: Time, faults: set<Call>) returns (r: Result<()>)
      requires Valid()
      modifies this`outbox
      ensures Valid()
      ensures r.Ok? <==> Remove !in faults
      ensures outbox == if r.Ok? then Purge(old(outbox), at, retention) else old(outbox)
      ensures r.Ok? ==> forall e :: e in old(outbox) ==>
                (e !in outbox <==>
                   old(outbox)[e].publishedAt.Some? && old(outbox)[e].publishedAt.value + retention < at)
      ensures forall e :: e in outbox ==> e in old(outbox) && outbox[e] == old(outbox)[e]
    {
      if Remove in faults {
        return Err(Internal);
      }
      outbox := Purge(outbox, at, retention);
      r := Ok(());
    }

    // -------------------------------------------------------------- instance repository

    /** The id is the primary key. */
    method Register(worker: WorkerId, at: Time, faults: set<Call>) returns (r: Result<()>)
      modifies this`instances
      ensures r.Ok? <==> Query !in faults && worker !in old(instances)
      ensures instances == if r.Ok? then old(instances)[worker := at] else old(instances)
    {
      if Query in faults || worker in instances {
        return Err(Internal);
      }
      instances := instances[worker := at];
      r := Ok(());
    }

    method Heartbeat(worker: WorkerId, at: Time, faults: set<Call>) returns (r: Result<()>)
      modifies this`instances
      ensures r == if Query in faults then Err(Internal)
                   else if worker !in old(instances) then Err(NotFound) else Ok(())
      ensures instances == if r.Ok? then old(instances)[worker := at] else old(instances)
    {
      if Query in faults {
        return Err(Internal);
      }
      if worker !in instances {
        return Err(NotFound);
      }
      instances := instances[worker := at];
      r := Ok(());
    }

    /**
      The stale rows in the order in which the engine visits them; row number `badRow` fails to scan, if
      there is one.
     */
    method GetStaleInstances(at: Time, timeout: Time, badRow: nat, faults: set<Call>) returns (r: Result<seq<WorkerId>>)
      ensures r.Ok? <==> Query !in faults && |Cluster.StaleInstances(instances, at, timeout)| <= badRow
      ensures r.Ok? ==> Distinct(r.value)
      ensures r.Ok? ==> forall w :: w in r.value <==> w in instances && instances[w] < at - timeout
    {
      if Query in faults {
        return Err(Internal);
      }
      var stale := Cluster.StaleInstances(instances, at, timeout);
      var unread := stale;
      var listed: seq<WorkerId> := [];
      while unread != {}
        invariant unread <= stale && Distinct(listed) && |listed| + |unread| == |stale| && |listed| <= badRow
        invariant forall w :: w in listed <==> w in stale && w !in unread
      {
        if |listed| == badRow {
          return Err(Internal);
        }
        var w :| w in unread;
        assert forall v :: v in listed + [w] <==> v in listed || v == w;
        unread := unread - {w};
        listed := listed + [w];
      }
      r := Ok(listed);
    }

    method Deregister(worker: WorkerId, faults: set<Call>) returns (r: Result<()>)
      modifies this`instances
      ensures r.Ok? <==> Query !in faults
      ensures instances == if r.Ok? then old(instances) - {worker} else old(instances)
    {
      if Query in faults {
        return Err(Internal);
      }
      instances := instances - {worker};
      r := Ok(());
    }
  }

  /** The dead letter that a row becomes. */
  function Letter(id: TaskId, read: Task, at: Time): DeadLetter
    requires read.lastError.Some?
  {
    DeadLetter(id, read.payload, read.lastError.value, read.attempts, at, None)
  }

  // ---------------------------------------------------------------- contracts in the columns' own terms

  /** No row but this one changes, and none comes or goes. */
  ghost predicate Others(before: Tasks, after: Tasks, id: TaskId) {
    after.Keys == before.Keys && forall j :: j in before && j != id ==> after[j] == before[j]
  }

  /** The row's own conditions in both claim statements. */
  predicate Due(t: Task, at: Time) {
    t.status == Pending && t.lockedBy == None && (t.nextRetryAt == None || t.nextRetryAt.value <= at)
  }

  /** Exactly these rows go back to pending, without a lock. */
  ghost predicate ResetExactly(before: Tasks, after: Tasks, ids: set<TaskId>) {
    && after.Keys == before.Keys
    && (forall id :: id in before ==>
          after[id] == if id in ids then before[id].(status := Pending, lockedBy := None, lockedAt := None)
                       else before[id])
  }

  /** Exactly these rows become running, locked by the worker. */
  ghost predicate ClaimedExactly(before: Tasks, after: Tasks, ids: seq<TaskId>, worker: WorkerId, at: Time) {
    && after.Keys == before.Keys
    && (forall id :: id in before ==>
          after[id] == if id in ids then before[id].(status := Running, lockedBy := Some(worker), lockedAt := Some(at))
                       else before[id])
  }

  ghost predicate Returns(rows: seq<Row>, id: TaskId) {
    exists i :: 0 <= i < |rows| && rows[i].id == id
  }

  /** The rows are due, in order of creation; a due, unlocked row is left out only for `limit` that are no younger. */
  ghost predicate OldestRows(tasks: Tasks, at: Time, skip: set<TaskId>, limit: nat, rows: seq<Row>) {
    && |rows| <= limit
    && (forall i :: 0 <= i < |rows| ==>
          rows[i].id in tasks && rows[i].task == tasks[rows[i].id] && Due(rows[i].task, at) && rows[i].id !in skip)
    && (forall i, j :: 0 <= i < j < |rows| ==>
          rows[i].id != rows[j].id && rows[i].task.createdAt <= rows[j].task.createdAt)
    && (forall id :: id in tasks && Due(tasks[id], at) && id !in skip && !Returns(rows, id) ==>
          |rows| == limit && forall i :: 0 <= i < |rows| ==> rows[i].task.createdAt <= tasks[id].createdAt)
  }

  lemma BatchIsOldest(tasks: Tasks, at: Time, skip: set<TaskId>, limit: nat, picked: seq<TaskId>, rows: seq<Row>)
    requires OldestFirst(Claimable(tasks, at, skip), limit, picked) && |rows| == |picked|
    requires forall i :: 0 <= i < |picked| ==> picked[i] in tasks && rows[i] == Row(picked[i], tasks[picked[i]])
    ensures OldestRows(tasks, at, skip, limit, rows)
  {
    var open := Claimable(tasks, at, skip);
    assert forall i :: 0 <= i < |picked| ==> picked[i] in open && open[picked[i]] == tasks[picked[i]].createdAt;
    forall id | id in tasks && Due(tasks[id], at) && id !in skip && !Returns(rows, id)
      ensures |rows| == limit && forall i :: 0 <= i < |rows| ==> rows[i].task.createdAt <= tasks[id].createdAt
    {
      assert id in open && open[id] == tasks[id].createdAt;
      assert forall i :: 0 <= i < |picked| ==> rows[i].id == picked[i];
      LeftOutMeansFull(open, limit, picked, id);
    }
  }

  lemma ClaimIsExact(tasks: Tasks, picked: seq<TaskId>, worker: WorkerId, at: Time)
    ensures ClaimedExactly(tasks, ClaimRows(tasks, Elements(picked), worker, at), picked, worker, at)
  {
  }

  ghost predicate ReturnsEvent(rows: seq<EventRow>, e: EventId) {
    exists i :: 0 <= i < |rows| && rows[i].id == e
  }

  /** Unpublished events in order of creation; one is left out only for `limit` that are no younger. */
  ghost predicate OldestEvents(outbox: Events, limit: nat, rows: seq<EventRow>) {
    && |rows| <= limit
    && (forall i :: 0 <= i < |rows| ==>
          rows[i].id in outbox && rows[i].event == outbox[rows[i].id] && rows[i].event.publishedAt == None)
    && (forall i, j :: 0 <= i < j < |rows| ==>
          rows[i].id != rows[j].id && rows[i].event.createdAt <= rows[j].event.createdAt)
    && (forall e :: e in outbox && outbox[e].publishedAt == None && !ReturnsEvent(rows, e) ==>
          |rows| == limit && forall i :: 0 <= i < |rows| ==> rows[i].event.createdAt <= outbox[e].createdAt)
  }

  lemma EventsAreOldest(outbox: Events, limit: nat, picked: seq<EventId>, rows: seq<EventRow>)
    requires OldestFirst(Unpublished(outbox), limit, picked) && |rows| == |picked|
    requires forall i :: 0 <= i < |picked| ==> picked[i] in outbox && rows[i] == EventRow(picked[i], outbox[picked[i]])
    ensures OldestEvents(outbox, limit, rows)
  {
    var open := Unpublished(outbox);
    assert forall i :: 0 <= i < |picked| ==> picked[i] in open && open[picked[i]] == outbox[picked[i]].createdAt;
    forall e | e in outbox && outbox[e].publishedAt == None && !ReturnsEvent(rows, e)
      ensures |rows| == limit && forall i :: 0 <= i < |rows| ==> rows[i].event.createdAt <= outbox[e].createdAt
    {
      assert e in open && open[e] == outbox[e].createdAt;
      assert forall i :: 0 <= i < |picked| ==> rows[i].id == picked[i];
      LeftOutMeansFull(open, limit, picked, e);
    }
  }
}
