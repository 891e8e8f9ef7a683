/** The outbox publisher's cycle: read a batch, publish event by event, mark what was acknowledged, purge. */
module Publisher {
  import opened Wrappers
  import opened Oldest
  import opened TaskTable
  import opened Outbox
  import opened Database

  /** What became of one publish call: whether the message is in the log, and whether that was acknowledged. */
  datatype Outcome = Outcome(stored: bool, acked: bool)

  /** The ids whose publish was acknowledged, in order. */
  function Acked(ids: seq<EventId>, outcomes: seq<Outcome>): seq<EventId>
    requires |ids| == |outcomes|
  {
    if ids == [] then []
    else
      var n := |ids| - 1;
      Acked(ids[..n], outcomes[..n]) + if outcomes[n].acked then [ids[n]] else []
  }

  function Stored(tasks: seq<TaskId>, outcomes: seq<Outcome>): seq<TaskId>
    requires |tasks| == |outcomes|
  {
    if tasks == [] then []
    else
      var n := |tasks| - 1;
      Stored(tasks[..n], outcomes[..n]) + if outcomes[n].stored then [tasks[n]] else []
  }

  /** Acked is exactly the acknowledged part of the batch. */
  lemma {:induction false} AckedExactly(ids: seq<EventId>, outcomes: seq<Outcome>, e: EventId)
    requires |ids| == |outcomes|
    ensures e in Acked(ids, outcomes) <==> exists i :: 0 <= i < |ids| && ids[i] == e && outcomes[i].acked
  {
    if ids != [] {
      var n := |ids| - 1;
      AckedExactly(ids[..n], outcomes[..n], e);
      if e in Acked(ids[..n], outcomes[..n]) {
        var i :| 0 <= i < n && ids[..n][i] == e && outcomes[..n][i].acked;
        assert ids[i] == e && outcomes[i].acked;
      }
      if i :| 0 <= i < n && ids[i] == e && outcomes[i].acked {
        assert ids[..n][i] == e && outcomes[..n][i].acked;
      }
    }
  }

  lemma {:induction false} AllAcked(ids: seq<EventId>, outcomes: seq<Outcome>)
    requires |ids| == |outcomes| && forall i :: 0 <= i < |outcomes| ==> outcomes[i].acked
    ensures Acked(ids, outcomes) == ids
  {
    if ids != [] {
      var n := |ids| - 1;
      AllAcked(ids[..n], outcomes[..n]);
      assert ids == ids[..n] + [ids[n]];
    }
  }

  /** How many of the first `k` messages were stored. */
  function Rank(outcomes: seq<Outcome>, k: nat): (n: nat)
    requires k <= |outcomes|
    ensures n <= k
  {
    if k == 0 then 0 else Rank(outcomes, k - 1) + if outcomes[k - 1].stored then 1 else 0
  }

  lemma {:induction false} RankOfPrefix(outcomes: seq<Outcome>, m: nat, k: nat)
    requires k <= m <= |outcomes|
    ensures Rank(outcomes[..m], k) == Rank(outcomes, k)
    decreases k
  {
    if k > 0 {
      RankOfPrefix(outcomes, m, k - 1);
    }
  }

  /** Stored is exactly the stored messages, one entry for each, in the order of the batch. */
  lemma {:induction false} StoredInOrder(tasks: seq<TaskId>, outcomes: seq<Outcome>)
    requires |tasks| == |outcomes|
    ensures |Stored(tasks, outcomes)| == Rank(outcomes, |outcomes|)
    ensures forall i :: 0 <= i < |tasks| && outcomes[i].stored ==>
              Rank(outcomes, i) < |Stored(tasks, outcomes)| && Stored(tasks, outcomes)[Rank(outcomes, i)] == tasks[i]
  {
    if tasks != [] {
      var n := |tasks| - 1;
      StoredInOrder(tasks[..n], outcomes[..n]);
      RankOfPrefix(outcomes, n, n);
      forall i | 0 <= i < |tasks| && outcomes[i].stored
        ensures Rank(outcomes, i) < |Stored(tasks, outcomes)| && Stored(tasks, outcomes)[Rank(outcomes, i)] == tasks[i]
      {
        RankOfPrefix(outcomes, n, i);
        if i < n {
          assert tasks[..n][i] == tasks[i] && outcomes[..n][i] == outcomes[i];
        }
      }
    }
  }

  /** The messages of the batch are in the log behind what was there, one for each stored outcome, in order. */
  ghost predicate Logged(before: seq<TaskId>, after: seq<TaskId>, tasks: seq<TaskId>, outcomes: seq<Outcome>)
    requires |tasks| == |outcomes|
  {
    && |after| == |before| + Rank(outcomes, |outcomes|) && after[..|before|] == before
    && (forall i :: 0 <= i < |tasks| && outcomes[i].stored ==>
          |before| + Rank(outcomes, i) < |after| && after[|before| + Rank(outcomes, i)] == tasks[i])
  }

  lemma AppendingLogs(before: seq<TaskId>, tasks: seq<TaskId>, outcomes: seq<Outcome>)
    requires |tasks| == |outcomes|
    ensures Logged(before, before + Stored(tasks, outcomes), tasks, outcomes)
  {
    StoredInOrder(tasks, outcomes);
  }

  /** An event stops being unpublished only when its message is in the log. */
  ghost predicate NothingLost(before: Events, after: Events, log: seq<TaskId>) {
    forall e :: e in before && before[e].publishedAt == None && (e !in after || after[e].publishedAt != None) ==>
      before[e].task in log
  }

  lemma AckedAreLogged(outbox: Events, ids: seq<EventId>, tasks: seq<TaskId>, outcomes: seq<Outcome>,
                       before: seq<TaskId>, log: seq<TaskId>, e: EventId)
    requires |ids| == |tasks| == |outcomes| && Logged(before, log, tasks, outcomes)
    requires forall i :: 0 <= i < |ids| ==> ids[i] in outbox && tasks[i] == outbox[ids[i]].task
    requires forall i :: 0 <= i < |ids| && outcomes[i].acked ==> outcomes[i].stored
    requires e in Acked(ids, outcomes)
    ensures e in outbox && outbox[e].task in log
  {
    AckedExactly(ids, outcomes, e);
    var i :| 0 <= i < |ids| && ids[i] == e && outcomes[i].acked;
    assert log[|before| + Rank(outcomes, i)] == tasks[i];
  }

  /** Marking the acknowledged events, and purging, loses nothing. */
  lemma MarkLosesNothing(outbox: Events, ids: seq<EventId>, tasks: seq<TaskId>, outcomes: seq<Outcome>,
                         before: seq<TaskId>, log: seq<TaskId>, at: Time, later: Time, retention: Time)
    requires |ids| == |tasks| == |outcomes| && Logged(before, log, tasks, outcomes)
    requires forall i :: 0 <= i < |ids| ==> ids[i] in outbox && tasks[i] == outbox[ids[i]].task
    requires forall i :: 0 <= i < |ids| && outcomes[i].acked ==> outcomes[i].stored
    ensures var marked := Mark(outbox, Elements(Acked(ids, outcomes)), at);
            NothingLost(outbox, marked, log) && NothingLost(outbox, Purge(marked, later, retention), log)
  {
    forall e | e in Acked(ids, outcomes)
      ensures e in outbox && outbox[e].task in log
    {
      AckedAreLogged(outbox, ids, tasks, outcomes, before, log, e);
    }
  }

  /** The Kafka topic; an acknowledged message is in its log. */
  class Producer {
    var log: seq<TaskId>

    constructor ()
      ensures log == []
    {
      log := [];
    }

    method Publish(task: TaskId, outcome: Outcome) returns (r: Result<()>)
      requires outcome.acked ==> outcome.stored
      modifies this`log
      ensures log == old(log) + if outcome.stored then [task] else []
      ensures r.Ok? <==> outcome.acked
    {
      if outcome.stored {
        log := log + [task];
      }
      r := if outcome.acked then Ok(()) else Err(Internal);
    }
  }

  class OutboxPublisher {
    const repo: Store
    const producer: Producer
    const batchSize: nat
    const retention: Time

    constructor (repo: Store, producer: Producer, batchSize: nat, retention: Time)
      ensures this.repo == repo && this.producer == producer && this.batchSize == batchSize
                && this.retention == retention
    {
      this.repo, this.producer, this.batchSize, this.retention := repo, producer, batchSize, retention;
    }

    method PublishEvent(row: EventRow, outcome: Outcome, publishedIDs: seq<EventId>) returns (ids: seq<EventId>)
      requires outcome.acked ==> outcome.stored
      modifies producer`log
      ensures producer.log == old(producer.log) + if outcome.stored then [row.event.task] else []
      ensures ids == publishedIDs + if outcome.acked then [row.id] else []
    {
      var r := producer.Publish(row.event.task, outcome);
      if r.Err? {
        return publishedIDs;
      }
      ids := publishedIDs + [row.id];
    }

    /** The loop of a cycle: every event is published, and the ids of the acknowledged ones are collected. */
    method PublishAll(rows: seq<EventRow>, outcomes: seq<Outcome>) returns (ids: seq<EventId>)
      requires |outcomes| == |rows| && forall i :: 0 <= i < |outcomes| ==> outcomes[i].acked ==> outcomes[i].stored
      modifies producer`log
      ensures ids == Acked(IdsIn(rows), outcomes)
      ensures producer.log == old(producer.log) + Stored(TasksIn(rows), outcomes)
    {
      ids := [];
      for i := 0 to |rows|
        invariant ids == Acked(IdsIn(rows)[..i], outcomes[..i])
        invariant producer.log == old(producer.log) + Stored(TasksIn(rows)[..i], outcomes[..i])
      {
        ids := PublishEvent(rows[i], outcomes[i], ids);
        assert IdsIn(rows)[..i + 1][..i] == IdsIn(rows)[..i] && outcomes[..i + 1][..i] == outcomes[..i];
        assert TasksIn(rows)[..i + 1][..i] == TasksIn(rows)[..i];
      }
      assert IdsIn(rows)[..|rows|] == IdsIn(rows) && TasksIn(rows)[..|rows|] == TasksIn(rows);
      assert outcomes[..|rows|] == outcomes;
    }

    /** The end of a cycle: nothing is marked for an empty list, and a failed mark skips the purge. */
    method MarkAndPurge(ids: seq<EventId>, at: Time, later: Time, faults: set<Call>)
      requires repo.Valid()
      modifies repo`outbox
      ensures repo.Valid()
      ensures repo.outbox == Left(old(repo.outbox), ids, at, later, retention, faults)
    {
      if |ids| > 0 {
        var marked := repo.MarkPublished(ids, at, faults);
        if marked.Err? {
          return;
        }
      }
      MarkNone(old(repo.outbox), at);
      var purged := repo.PurgePublished(later, retention, faults);
    }

    /**
      The marked events are exactly those whose publish was acknowledged; unread or unacknowledged
      events stay unpublished. A failed mark ends the cycle before the purge.
     */
    method ProcessCycle(picked: seq<EventId>, badRow: nat, outcomes: seq<Outcome>, at: Time, later: Time,
                        faults: set<Call>)
      requires repo.Valid()
      requires OldestFirst(Unpublished(repo.outbox), batchSize, picked)
      requires |outcomes| == |picked| && forall i :: 0 <= i < |outcomes| ==> outcomes[i].acked ==> outcomes[i].stored
      modifies repo`outbox, producer`log
      ensures repo.Valid()
      ensures forall i :: 0 <= i < |picked| ==> picked[i] in old(repo.outbox)
      ensures if Query in faults || badRow < |picked| then
                repo.outbox == old(repo.outbox) && producer.log == old(producer.log)
              else
                && Logged(old(producer.log), producer.log, TasksOf(old(repo.outbox), picked), outcomes)
                && producer.log == old(producer.log) + Stored(TasksOf(old(repo.outbox), picked), outcomes)
                && repo.outbox == Left(old(repo.outbox), Acked(picked, outcomes), at, later, retention, faults)
      ensures NothingLost(old(repo.outbox), repo.outbox, producer.log)
      ensures Query !in faults && |picked| <= badRow ==>
                CycledExactly(old(repo.outbox), repo.outbox, picked, outcomes, at, later, retention, faults)
      ensures faults == {} && |picked| <= badRow && (forall i :: 0 <= i < |outcomes| ==> outcomes[i].acked) ==>
                CleanCycle(old(repo.outbox), repo.outbox, batchSize)
    {
      ghost var before, log := repo.outbox, producer.log;
      ReadsWhatIsThere(before, batchSize, picked);
      CycleLaws(before, batchSize, picked, outcomes, log, at, later, retention, faults);
      var fetched := repo.GetUnpublished(batchSize, picked, badRow, faults);
      if fetched.Err? {
        return;
      }
      RowsOfBatch(before, picked, fetched.value);
      var ids := PublishAll(fetched.value, outcomes);
      MarkAndPurge(ids, at, later, faults);
    }
  }

  function IdsIn(rows: seq<EventRow>): (ids: seq<EventId>)
    ensures |ids| == |rows| && forall i :: 0 <= i < |rows| ==> ids[i] == rows[i].id
  {
    seq(|rows|, i requires 0 <= i < |rows| => rows[i].id)
  }

  function TasksIn(rows: seq<EventRow>): (tasks: seq<TaskId>)
    ensures |tasks| == |rows| && forall i :: 0 <= i < |rows| ==> tasks[i] == rows[i].event.task
  {
    seq(|rows|, i requires 0 <= i < |rows| => rows[i].event.task)
  }

  /** The event's publish was acknowledged in this batch. */
  ghost predicate WasAcked(picked: seq<EventId>, outcomes: seq<Outcome>, e: EventId)
    requires |picked| == |outcomes|
  {
    exists i :: 0 <= i < |picked| && picked[i] == e && outcomes[i].acked
  }

  /**
    Event by event: the acknowledged ones are marked, unless the mark fails; then, unless the mark or the
    purge fails, those published longer ago than the retention are gone; nothing else changes.
   */
  ghost predicate CycledExactly(before: Events, after: Events, picked: seq<EventId>, outcomes: seq<Outcome>, at: Time,
                                later: Time, retention: Time, faults: set<Call>)
    requires |picked| == |outcomes|
  {
    var markFails := Change in faults && exists e :: WasAcked(picked, outcomes, e);
    && after.Keys <= before.Keys
    && (forall e :: e in before ==>
          var stamp := if WasAcked(picked, outcomes, e) && !markFails then Some(at) else before[e].publishedAt;
          && (e in after ==> after[e] == before[e].(publishedAt := stamp))
          && (e !in after <==> !markFails && Remove !in faults && stamp.Some? && stamp.value + retention < later))
  }

  lemma LeftExactly(outbox: Events, picked: seq<EventId>, outcomes: seq<Outcome>, at: Time, later: Time,
                    retention: Time, faults: set<Call>)
    requires |picked| == |outcomes|
    ensures CycledExactly(outbox, Left(outbox, Acked(picked, outcomes), at, later, retention, faults), picked, outcomes,
                          at, later, retention, faults)
  {
    var acked := Acked(picked, outcomes);
    forall e
      ensures e in acked <==> WasAcked(picked, outcomes, e)
    {
      AckedExactly(picked, outcomes, e);
    }
    assert acked != [] ==> WasAcked(picked, outcomes, acked[0]);
  }

  /** The outbox that a cycle leaves behind after its publishes. */
  function Left(outbox: Events, acked: seq<EventId>, at: Time, later: Time, retention: Time, faults: set<Call>)
    : Events
  {
    if acked != [] && Change in faults then outbox
    else
      var marked := Mark(outbox, Elements(acked), at);
      if Remove in faults then marked else Purge(marked, later, retention)
  }

  lemma ReadsWhatIsThere(outbox: Events, limit: nat, picked: seq<EventId>)
    requires OldestFirst(Unpublished(outbox), limit, picked)
    ensures forall i :: 0 <= i < |picked| ==> picked[i] in outbox
  {
    assert forall i :: 0 <= i < |picked| ==> picked[i] in Unpublished(outbox);
  }

  lemma RowsOfBatch(outbox: Events, picked: seq<EventId>, rows: seq<EventRow>)
    requires |rows| == |picked|
    requires forall i :: 0 <= i < |picked| ==> picked[i] in outbox && rows[i] == EventRow(picked[i], outbox[picked[i]])
    ensures IdsIn(rows) == picked && TasksIn(rows) == TasksOf(outbox, picked)
  {
  }

  lemma LeftLosesNothing(outbox: Events, picked: seq<EventId>, tasks: seq<TaskId>, outcomes: seq<Outcome>,
                         before: seq<TaskId>, log: seq<TaskId>, at: Time, later: Time, retention: Time,
                         faults: set<Call>)
    requires |picked| == |tasks| == |outcomes| && Logged(before, log, tasks, outcomes)
    requires forall i :: 0 <= i < |picked| ==> picked[i] in outbox && tasks[i] == outbox[picked[i]].task
    requires forall i :: 0 <= i < |picked| && outcomes[i].acked ==> outcomes[i].stored
    ensures NothingLost(outbox, Left(outbox, Acked(picked, outcomes), at, later, retention, faults), log)
  {
    MarkLosesNothing(outbox, picked, tasks, outcomes, before, log, at, later, retention);
  }

  lemma LeftIsClean(outbox: Events, limit: nat, picked: seq<EventId>, outcomes: seq<Outcome>,
                    at: Time, later: Time, retention: Time)
    requires |picked| == |outcomes| && OldestFirst(Unpublished(outbox), limit, picked)
    requires forall i :: 0 <= i < |outcomes| ==> outcomes[i].acked
    ensures CleanCycle(outbox, Left(outbox, Acked(picked, outcomes), at, later, retention, {}), limit)
  {
    AllAcked(picked, outcomes);
  }

  /** What a cycle leaves behind: its messages in order, nothing lost, and without faults a clean cycle. */
  lemma CycleLaws(outbox: Events, limit: nat, picked: seq<EventId>, outcomes: seq<Outcome>, log: seq<TaskId>,
                  at: Time, later: Time, retention: Time, faults: set<Call>)
    requires |picked| == |outcomes| && forall i :: 0 <= i < |picked| ==> picked[i] in outbox
    requires OldestFirst(Unpublished(outbox), limit, picked)
    requires forall i :: 0 <= i < |outcomes| && outcomes[i].acked ==> outcomes[i].stored
    ensures var tasks := TasksOf(outbox, picked);
            var left := Left(outbox, Acked(picked, outcomes), at, later, retention, faults);
            && Logged(log, log + Stored(tasks, outcomes), tasks, outcomes)
            && NothingLost(outbox, left, log + Stored(tasks, outcomes))
            && CycledExactly(outbox, left, picked, outcomes, at, later, retention, faults)
            && (faults == {} && (forall i :: 0 <= i < |outcomes| ==> outcomes[i].acked) ==>
                  CleanCycle(outbox, left, limit))
    ensures NothingLost(outbox, outbox, log)
  {
    var tasks := TasksOf(outbox, picked);
    AppendingLogs(log, tasks, outcomes);
    LeftLosesNothing(outbox, picked, tasks, outcomes, log, log + Stored(tasks, outcomes), at, later, retention, faults);
    LeftExactly(outbox, picked, outcomes, at, later, retention, faults);
    if faults == {} && forall i :: 0 <= i < |outcomes| ==> outcomes[i].acked {
      LeftIsClean(outbox, limit, picked, outcomes, at, later, retention);
    }
  }

  lemma MarkNone(outbox: Events, at: Time)
    ensures Mark(outbox, Elements([]), at) == outbox
  {
    assert Elements([]) == {};
  }

  function TasksOf(outbox: Events, ids: seq<EventId>): (tasks: seq<TaskId>)
    requires forall i :: 0 <= i < |ids| ==> ids[i] in outbox
    ensures |tasks| == |ids| && forall i :: 0 <= i < |ids| ==> tasks[i] == outbox[ids[i]].task
  {
    seq(|ids|, i requires 0 <= i < |ids| => outbox[ids[i]].task)
  }
}
