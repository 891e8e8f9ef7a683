/** The `outbox` table, any number of interleaved publisher cycles, and the Kafka log they feed. */
module Outbox {
  import opened Wrappers
  import opened Oldest
  import opened TaskTable

  type EventId = nat

  /** An outbox row; its payload names the created task. */
  datatype Event = Event(task: TaskId, createdAt: Time, publishedAt: Option<Time>)

  type Events = map<EventId, Event>

  // ---------------------------------------------------------------- statements

  function Unpublished(outbox: Events): (stamps: map<EventId, Time>)
    ensures forall e :: e in stamps <==> e in outbox && outbox[e].publishedAt.None?
  {
    map e | e in outbox && outbox[e].publishedAt.None? :: outbox[e].createdAt
  }

  function Mark(outbox: Events, ids: set<EventId>, at: Time): Events {
    map e | e in outbox :: if e in ids then outbox[e].(publishedAt := Some(at)) else outbox[e]
  }

  /** Published rows older than the retention; unpublished rows never match. */
  function Expired(outbox: Events, at: Time, retention: Time): (ids: set<EventId>)
    ensures forall e :: e in ids ==> e in outbox && outbox[e].publishedAt.Some?
  {
    set e | e in outbox && outbox[e].publishedAt.Some? && outbox[e].publishedAt.value < at - retention
  }

  function Purge(outbox: Events, at: Time, retention: Time): Events {
    outbox - Expired(outbox, at, retention)
  }

  // ---------------------------------------------------------------- publishers as a machine

  /** A publisher's cycle: the events it read, how far it is, and the ids whose publish was acknowledged. */
  datatype Cycle = Cycle(ids: seq<EventId>, tasks: seq<TaskId>, pos: nat, acked: seq<EventId>)

  /** `emitted` is every event ever inserted. */
  datatype Bus = Bus(outbox: Events, log: seq<TaskId>, cycles: map<nat, Cycle>, emitted: map<EventId, TaskId>)

  datatype Step =
    | Emit(id: EventId, task: TaskId, at: Time)
    | Fetch(cycle: nat, limit: nat, ids: seq<EventId>)
    | Publish(cycle: nat, stored: bool, acked: bool)
    | MarkAll(cycle: nat, at: Time)
    | Abandon(cycle: nat)
    | Sweep(at: Time, retention: Time)

  const SILENT := Bus(map[], [], map[], map[])

  ghost predicate Named(emitted: map<EventId, TaskId>, task: TaskId) {
    exists e :: e in emitted && emitted[e] == task
  }

  /** An acknowledged message is in the log; an unacknowledged one may or may not be. */
  ghost predicate Enabled(b: Bus, s: Step) {
    match s
    case Emit(id, _, _) => id !in b.emitted
    case Fetch(cycle, limit, ids) => cycle !in b.cycles && OldestFirst(Unpublished(b.outbox), limit, ids)
    case Publish(cycle, stored, acked) =>
      cycle in b.cycles && b.cycles[cycle].pos < |b.cycles[cycle].ids| == |b.cycles[cycle].tasks| && (acked ==> stored)
    case MarkAll(cycle, _) => cycle in b.cycles && b.cycles[cycle].pos == |b.cycles[cycle].ids|
    case Abandon(_) => true
    case Sweep(_, _) => true
  }

  ghost function Next(b: Bus, s: Step): Bus
    requires Enabled(b, s)
  {
    match s
    case Emit(id, task, at) =>
      b.(outbox := b.outbox[id := Event(task, at, None)], emitted := b.emitted[id := task])
    case Fetch(cycle, _, ids) =>
      b.(cycles := b.cycles[cycle := Cycle(ids, seq(|ids|, i requires 0 <= i < |ids| => b.outbox[ids[i]].task), 0, [])])
    case Publish(cycle, stored, acked) =>
      var c := b.cycles[cycle];
      b.(log := if stored then b.log + [c.tasks[c.pos]] else b.log,
         cycles := b.cycles[cycle := c.(pos := c.pos + 1,
                                        acked := if acked then c.acked + [c.ids[c.pos]] else c.acked)])
    case MarkAll(cycle, at) =>
      b.(outbox := Mark(b.outbox, Elements(b.cycles[cycle].acked), at), cycles := b.cycles - {cycle})
    case Abandon(cycle) => b.(cycles := b.cycles - {cycle})
    case Sweep(at, retention) => b.(outbox := Purge(b.outbox, at, retention))
  }

  // ---------------------------------------------------------------- the invariant

  /** Gone from the outbox, or marked published. */
  ghost predicate Settled(b: Bus, e: EventId) {
    e !in b.outbox || b.outbox[e].publishedAt.Some?
  }

  ghost predicate CycleOk(b: Bus, c: Cycle) {
    && |c.tasks| == |c.ids| && c.pos <= |c.ids|
    && (forall i :: 0 <= i < |c.ids| ==> c.ids[i] in b.emitted && b.emitted[c.ids[i]] == c.tasks[i])
    && (forall e :: e in c.acked ==> e in b.emitted && b.emitted[e] in b.log)
  }

  ghost predicate Inv(b: Bus) {
    && b.outbox.Keys <= b.emitted.Keys
    && (forall e :: e in b.outbox ==> b.outbox[e].task == b.emitted[e])
    && (forall e, f :: e in b.emitted && f in b.emitted && b.emitted[e] == b.emitted[f] ==> e == f)
    && (forall e :: e in b.emitted && Settled(b, e) ==> b.emitted[e] in b.log)
    && (forall i :: 0 <= i < |b.log| ==> Named(b.emitted, b.log[i]))
    && (forall p :: p in b.cycles ==> CycleOk(b, b.cycles[p]))
  }

  lemma EmitKeepsInv(b: Bus, s: Step)
    requires Inv(b) && Enabled(b, s) && s.Emit? && !Named(b.emitted, s.task)
    ensures Inv(Next(b, s))
  {
    var d := Next(b, s);
    forall i | 0 <= i < |d.log|
      ensures Named(d.emitted, d.log[i])
    {
      assert Named(b.emitted, b.log[i]);
      var e :| e in b.emitted && b.emitted[e] == b.log[i];
      assert d.emitted[e] == d.log[i];
    }
    forall e | e in d.emitted && Settled(d, e)
      ensures d.emitted[e] in d.log
    {
      assert e != s.id && Settled(b, e);
    }
    forall p | p in d.cycles
      ensures CycleOk(d, d.cycles[p])
    {
      assert CycleOk(b, b.cycles[p]);
    }
  }

  lemma FetchKeepsInv(b: Bus, s: Step)
    requires Inv(b) && Enabled(b, s) && s.Fetch?
    ensures Inv(Next(b, s))
  {
    var d := Next(b, s);
    assert forall i :: 0 <= i < |s.ids| ==> s.ids[i] in Unpublished(b.outbox);
    forall p | p in d.cycles
      ensures CycleOk(d, d.cycles[p])
    {
      assert p != s.cycle ==> CycleOk(b, b.cycles[p]);
    }
  }

  lemma PublishKeepsCycle(b: Bus, s: Step, p: nat)
    requires Inv(b) && Enabled(b, s) && s.Publish? && p in b.cycles
    ensures p in Next(b, s).cycles && CycleOk(Next(b, s), Next(b, s).cycles[p])
  {
    var d := Next(b, s);
    var c := b.cycles[s.cycle];
    assert CycleOk(b, b.cycles[p]) && CycleOk(b, c);
    assert forall t :: t in b.log ==> t in d.log;
    assert s.stored ==> d.log[|b.log|] == c.tasks[c.pos];
  }

  lemma PublishKeepsInv(b: Bus, s: Step)
    requires Inv(b) && Enabled(b, s) && s.Publish?
    ensures Inv(Next(b, s))
  {
    var d := Next(b, s);
    forall p | p in d.cycles
      ensures CycleOk(d, d.cycles[p])
    {
      PublishKeepsCycle(b, s, p);
    }
    var c := b.cycles[s.cycle];
    assert CycleOk(b, c);
    assert b.emitted[c.ids[c.pos]] == c.tasks[c.pos];
    forall e | e in b.emitted && Settled(d, e)
      ensures b.emitted[e] in d.log
    {
      assert Settled(b, e);
    }
  }

  lemma EndKeepsInv(b: Bus, s: Step)
    requires Inv(b) && Enabled(b, s) && (s.MarkAll? || s.Abandon? || s.Sweep?)
    ensures Inv(Next(b, s))
  {
    var d := Next(b, s);
    forall e | e in d.emitted && Settled(d, e)
      ensures d.emitted[e] in d.log
    {
      if !Settled(b, e) {
        assert s.MarkAll? && CycleOk(b, b.cycles[s.cycle]);
      }
    }
    forall p | p in d.cycles
      ensures CycleOk(d, d.cycles[p])
    {
      assert CycleOk(b, b.cycles[p]);
    }
  }

  /** A create announces a task that has no event yet; the creating transaction sees to that. */
  lemma KeepsInv(b: Bus, s: Step)
    requires Inv(b) && Enabled(b, s) && (s.Emit? ==> !Named(b.emitted, s.task))
    ensures Inv(Next(b, s))
  {
    match s
    case Emit(_, _, _) => EmitKeepsInv(b, s);
    case Fetch(_, _, _) => FetchKeepsInv(b, s);
    case Publish(_, _, _) => PublishKeepsInv(b, s);
    case _ => EndKeepsInv(b, s);
  }

  // ---------------------------------------------------------------- draining

  /** One undisturbed cycle: read a batch, publish all of it, mark all of it, purge. */
  ghost predicate CleanCycle(a: Events, b: Events, limit: nat) {
    exists ids, at, later, retention ::
      OldestFirst(Unpublished(a), limit, ids) && b == Purge(Mark(a, Elements(ids), at), later, retention)
  }

  /** Exactly the batch stops being unpublished. */
  lemma BatchLeaves(a: Events, limit: nat, ids: seq<EventId>, at: Time, later: Time, retention: Time)
    requires OldestFirst(Unpublished(a), limit, ids)
    ensures var b := Purge(Mark(a, Elements(ids), at), later, retention);
            && Unpublished(b) == Unpublished(a) - Elements(ids)
            && |Unpublished(b)| == Less(|Unpublished(a)|, limit)
  {
    var b := Purge(Mark(a, Elements(ids), at), later, retention);
    DistinctCount(ids);
    assert Elements(ids) <= Unpublished(a).Keys;
    assert Unpublished(b).Keys == Unpublished(a).Keys - Elements(ids);
    assert |Unpublished(b).Keys| == |Unpublished(a).Keys| - |Elements(ids)|;
  }

  function Less(n: int, m: int): int {
    if n <= m then 0 else n - m
  }

  ghost predicate CleanRun(outboxes: seq<Events>, limit: nat) {
    forall k :: 0 < k < |outboxes| ==> CleanCycle(outboxes[k - 1], outboxes[k], limit)
  }

  lemma CycleCount(a: Events, b: Events, limit: nat)
    requires CleanCycle(a, b, limit)
    ensures |Unpublished(b)| == Less(|Unpublished(a)|, limit)
  {
    var ids, at, later, retention :|
      OldestFirst(Unpublished(a), limit, ids) && b == Purge(Mark(a, Elements(ids), at), later, retention);
    BatchLeaves(a, limit, ids, at, later, retention);
  }

  lemma OneMoreCycle(n: int, k: nat, limit: nat)
    ensures Less(Less(n, k * limit), limit) == Less(n, (k + 1) * limit)
  {
    assert 0 <= k * limit;
    assert (k + 1) * limit == k * limit + limit;
  }

  /** With n events to send, k undisturbed cycles leave n - k * limit of them, and none once k * limit >= n. */
  lemma {:induction false} Drain(outboxes: seq<Events>, limit: nat, k: nat)
    requires CleanRun(outboxes, limit) && k < |outboxes|
    ensures |Unpublished(outboxes[k])| == Less(|Unpublished(outboxes[0])|, k * limit)
    decreases k
  {
    if k > 0 {
      Drain(outboxes, limit, k - 1);
      CycleCount(outboxes[k - 1], outboxes[k], limit);
      OneMoreCycle(|Unpublished(outboxes[0])|, k - 1, limit);
    }
  }

  // ---------------------------------------------------------------- order and retention

  /** An event that a cycle passes over was not older than any that it took, and these fill the batch. */
  lemma PassedOverByCycle(a: Events, b: Events, limit: nat, e: EventId)
    requires CleanCycle(a, b, limit) && e in a && a[e].publishedAt == None && e in b && b[e].publishedAt == None
    ensures var taken := Unpublished(a).Keys - Unpublished(b).Keys;
            |taken| == limit && forall f :: f in taken ==> f in a && a[f].createdAt <= a[e].createdAt
  {
    var ids, at, later, retention :|
      OldestFirst(Unpublished(a), limit, ids) && b == Purge(Mark(a, Elements(ids), at), later, retention);
    BatchLeaves(a, limit, ids, at, later, retention);
    var open := Unpublished(a);
    assert forall f :: f in open ==> open[f] == a[f].createdAt;
    LeftOutMeansFull(open, limit, ids, e);
    DistinctCount(ids);
    assert forall i :: 0 <= i < |ids| ==> ids[i] in open;
    assert open.Keys - Unpublished(b).Keys == Elements(ids);
  }

  /** A cycle with what it marked, when, and its purge. */
  datatype Cleaned = Cleaned(ids: seq<EventId>, at: Time, later: Time, retention: Time)

  ghost predicate CycleBy(a: Events, b: Events, limit: nat, c: Cleaned) {
    OldestFirst(Unpublished(a), limit, c.ids) && b == Purge(Mark(a, Elements(c.ids), c.at), c.later, c.retention)
  }

  ghost predicate CyclesRun(outboxes: seq<Events>, cycles: seq<Cleaned>, limit: nat) {
    && |outboxes| == |cycles| + 1
    && (forall k :: 0 <= k < |cycles| ==> CycleBy(outboxes[k], outboxes[k + 1], limit, cycles[k]))
  }

  /** No purge up to this one came later than the retention allows. */
  ghost predicate AllEarly(cycles: seq<Cleaned>, i: nat, k: nat)
    requires i <= k < |cycles|
  {
    forall j :: i <= j <= k ==> cycles[j].later <= cycles[i].at + cycles[j].retention
  }

  lemma CycleEffect(a: Events, b: Events, limit: nat, c: Cleaned, e: EventId)
    requires CycleBy(a, b, limit, c) && e in a
    ensures var marked := if e in c.ids then Some(c.at) else a[e].publishedAt;
            && (e in b <==> marked.None? || c.later <= marked.value + c.retention)
            && (e in b ==> b[e] == a[e].(publishedAt := marked))
    ensures a[e].publishedAt.Some? ==> e !in c.ids
  {
    assert forall i :: 0 <= i < |c.ids| ==> c.ids[i] in Unpublished(a);
  }

  /**
    An event that was marked in cycle `i` is in the outbox after cycle `k`, with that time, if and only
    if no purge in between came more than the retention after its mark.
   */
  lemma {:induction false} Retention(outboxes: seq<Events>, cycles: seq<Cleaned>, limit: nat, i: nat, k: nat,
                                     e: EventId)
    requires CyclesRun(outboxes, cycles, limit) && i <= k < |cycles| && e in cycles[i].ids
    ensures e in outboxes[k + 1] <==> AllEarly(cycles, i, k)
    ensures e in outboxes[k + 1] ==> outboxes[k + 1][e].publishedAt == Some(cycles[i].at)
    decreases k
  {
    assert CycleBy(outboxes[k], outboxes[k + 1], limit, cycles[k]);
    if k == i {
      var n :| 0 <= n < |cycles[i].ids| && cycles[i].ids[n] == e;
      assert e in Unpublished(outboxes[i]);
      CycleEffect(outboxes[k], outboxes[k + 1], limit, cycles[k], e);
    } else {
      Retention(outboxes, cycles, limit, i, k - 1, e);
      if e in outboxes[k] {
        CycleEffect(outboxes[k], outboxes[k + 1], limit, cycles[k], e);
      }
    }
  }
}
