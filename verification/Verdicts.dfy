/**
  Why a task is where it is: every final state of a task is explained by its payload and by what
  happened in the run.
 */
module Verdicts {
  import opened Wrappers
  import opened TaskTable
  import opened Decision
  import opened TaskLife
  import opened Board
  import opened Invariants
  import opened Guarantees

  /** An object with a type: the only kind of payload that is ever handed to a handler. */
  predicate Runnable(payload: Payload) {
    payload.Typed? && payload.kind != ""
  }

  /** The one error a rejection can store for a payload. */
  function Cause(payload: Payload): Message {
    match payload
    case Malformed(reason) => InvalidPayload(reason)
    case Typed(kind, _) => if kind == "" then MissingType else UnknownType(kind)
  }

  // ---------------------------------------------------------------- one task

  ghost predicate Judged(c: Cell) {
    && (c.row.Some? ==>
          && (c.row.value.status.Failed? ==> c.row.value.lastError == Some(Cause(c.life.payload)))
          && (c.row.value.status.Completed? || c.row.value.nextRetryAt.Some? ==> Runnable(c.life.payload)))
    && (forall n :: n in c.live && c.live[n].stage.Moving? ==> Runnable(c.life.payload))
  }

  lemma JudgedSettle(c: Cell, n: nat, known: set<string>, failure: Option<string>, next: Time)
    requires Faithful(c) && Judged(c) && n in c.live
    ensures Judged(Settled(c, n, Decide(known, c.live[n].task, failure), next))
  {
  }

  lemma JudgedStep(c: Cell, mv: Move, now: Time)
    requires Faithful(c) && Judged(c) && Allowed(c, mv, now) && !mv.Override?
    ensures Judged(Apply(c, mv))
  {
    if mv.Settle? {
      JudgedSettle(c, mv.n, mv.known, mv.failure, mv.next);
    }
  }

  /** The executor's write that explains a final status: a handler's success, or a payload that no handler takes. */
  predicate Explains(known: set<string>, failure: Option<string>, payload: Payload, status: Status) {
    match status
    case Completed => Runnable(payload) && payload.kind in known && failure.None?
    case Failed => !Runnable(payload) || payload.kind !in known
    case _ => false
  }

  lemma MoveExplains(c: Cell, mv: Move, status: Status)
    requires Faithful(c) && Possible(c, mv) && !mv.Override?
    requires status.Completed? || status.Failed?
    requires var d := Apply(c, mv); d.row.Some? && d.row.value.status == status
    ensures (c.row.Some? && c.row.value.status == status)
            || (mv.Settle? && Explains(mv.known, mv.failure, c.life.payload, status))
  {
  }

  // ---------------------------------------------------------------- all tasks

  ghost predicate AllJudged(b: Board) {
    && Shaped(b)
    && (forall id :: id in b.life ==> Judged(At(b, id)))
    && (forall d :: d in b.dead ==> Runnable(b.dead[d].payload))
  }

  lemma LettersJudged(b: Board, s: Step)
    requires AllFaithful(b) && AllJudged(b) && Enabled(b, s)
    ensures forall d :: d in Next(b, s).dead ==> Runnable(Next(b, s).dead[d].payload)
  {
    if s.Transfer? {
      assert Judged(At(b, s.id)) && Faithful(At(b, s.id)) && s.n in At(b, s.id).live;
    } else {
      StepEffect(b, s);
      forall d | d in Next(b, s).dead
        ensures Runnable(Next(b, s).dead[d].payload)
      {
        assert b.dead[d].(retriedAt := None).payload == Next(b, s).dead[d].(retriedAt := None).payload;
      }
    }
  }

  lemma KeepsJudged(b: Board, s: Step)
    requires AllFaithful(b) && AllJudged(b) && Enabled(b, s) && !s.Override?
    ensures AllJudged(Next(b, s))
  {
    StaysShaped(b, s);
    LettersJudged(b, s);
    forall id | id in Next(b, s).life
      ensures Judged(At(Next(b, s), id))
    {
      if id in b.life {
        Projection(b, s, id);
        JudgedStep(At(b, id), MoveOf(b, s, id), b.now);
      } else {
        Birth(b, s, id);
      }
    }
  }

  lemma {:induction false} AlwaysJudged(batch: nat, maxRetries: nat, now: Time, steps: seq<Step>)
    requires Valid(Empty(batch, maxRetries, now), steps) && NoOverride(steps)
    ensures AllJudged(Exec(Empty(batch, maxRetries, now), steps))
    decreases |steps|
  {
    if steps != [] {
      var n := |steps| - 1;
      AlwaysJudged(batch, maxRetries, now, steps[..n]);
      EmptyIsSafe(batch, maxRetries, now);
      AlwaysSound(Empty(batch, maxRetries, now), steps[..n]);
      KeepsJudged(Exec(Empty(batch, maxRetries, now), steps[..n]), steps[n]);
    }
  }

  /**
    A task whose payload no handler can take is never completed, retried or dead-lettered in any run
    without the override, and a failed task stores exactly the reason of its rejection.
   */
  lemma OutcomesHaveCauses(batch: nat, maxRetries: nat, now: Time, steps: seq<Step>, id: TaskId)
    requires Valid(Empty(batch, maxRetries, now), steps) && NoOverride(steps)
    requires id in Exec(Empty(batch, maxRetries, now), steps).life
    ensures var r := Exec(Empty(batch, maxRetries, now), steps);
            && (!Runnable(r.life[id].payload) ==>
                  && id in r.tasks && !r.tasks[id].status.Completed? && r.tasks[id].nextRetryAt.None?
                  && (forall d :: d in r.dead ==> r.dead[d].original != id))
            && (id in r.tasks && r.tasks[id].status.Failed? ==>
                  r.tasks[id].lastError == Some(Cause(r.life[id].payload)))
  {
    var r := Exec(Empty(batch, maxRetries, now), steps);
    AlwaysJudged(batch, maxRetries, now, steps);
    Conservation(batch, maxRetries, now, steps, id);
    assert Judged(At(r, id));
  }

  lemma StepExplains(b: Board, s: Step, id: TaskId, status: Status)
    requires AllFaithful(b) && Enabled(b, s) && !s.Override? && (status.Completed? || status.Failed?)
    requires id in Next(b, s).tasks && Next(b, s).tasks[id].status == status
    ensures (id in b.tasks && b.tasks[id].status == status)
            || (s.Settle? && s.id == id && id in b.life && Explains(s.known, s.failure, b.life[id].payload, status))
  {
    StaysShaped(b, s);
    if id in b.life {
      CellExplains(b, s, id, status);
    } else {
      Birth(b, s, id);
    }
  }

  lemma CellExplains(b: Board, s: Step, id: TaskId, status: Status)
    requires AllFaithful(b) && Enabled(b, s) && !s.Override? && (status.Completed? || status.Failed?) && id in b.life
    requires id in Next(b, s).tasks && Next(b, s).tasks[id].status == status
    ensures (id in b.tasks && b.tasks[id].status == status)
            || (s.Settle? && s.id == id && Explains(s.known, s.failure, b.life[id].payload, status))
  {
    Projection(b, s, id);
    assert At(Next(b, s), id).row == Some(Next(b, s).tasks[id]);
    MoveExplains(At(b, id), MoveOf(b, s, id), status);
  }

  /** A step of the run that ended an execution of the task in the given status. */
  ghost predicate Decided(steps: seq<Step>, k: nat, id: TaskId, payload: Payload, status: Status) {
    k < |steps| && steps[k].Settle? && steps[k].id == id && Explains(steps[k].known, steps[k].failure, payload, status)
  }

  ghost predicate Explained(b: Board, steps: seq<Step>, id: TaskId) {
    id in b.tasks && (b.tasks[id].status.Completed? || b.tasks[id].status.Failed?) ==>
      id in b.life && exists k :: Decided(steps, k, id, b.life[id].payload, b.tasks[id].status)
  }

  lemma StaysExplained(b: Board, before: seq<Step>, s: Step, id: TaskId)
    requires AllFaithful(b) && Enabled(b, s) && !s.Override? && Explained(b, before, id)
    ensures Explained(Next(b, s), before + [s], id)
  {
    var d := Next(b, s);
    if id in d.tasks && (d.tasks[id].status.Completed? || d.tasks[id].status.Failed?) {
      var status := d.tasks[id].status;
      StepExplains(b, s, id, status);
      KeepsBirth(b, s, id);
      var payload := b.life[id].payload;
      if id in b.tasks && b.tasks[id].status == status {
        var k :| Decided(before, k, id, payload, status);
        assert Decided(before + [s], k, id, payload, status);
      } else {
        assert Decided(before + [s], |before|, id, payload, status);
      }
    }
  }

  /**
    A completed task was completed by a handler that returned success for it, and a failed one was
    given to a process that has no handler for it.
   */
  lemma {:induction false} FinalByExecution(batch: nat, maxRetries: nat, now: Time, steps: seq<Step>, id: TaskId)
    requires Valid(Empty(batch, maxRetries, now), steps) && NoOverride(steps)
    ensures Explained(Exec(Empty(batch, maxRetries, now), steps), steps, id)
    decreases |steps|
  {
    if steps != [] {
      var n := |steps| - 1;
      FinalByExecution(batch, maxRetries, now, steps[..n], id);
      AlwaysFaithful(batch, maxRetries, now, steps[..n]);
      ExplainedOneStepOn(Empty(batch, maxRetries, now), steps, id);
    }
  }

  lemma AlwaysFaithful(batch: nat, maxRetries: nat, now: Time, steps: seq<Step>)
    requires Valid(Empty(batch, maxRetries, now), steps)
    ensures AllFaithful(Exec(Empty(batch, maxRetries, now), steps))
  {
    EmptyIsSafe(batch, maxRetries, now);
    AlwaysSound(Empty(batch, maxRetries, now), steps);
  }

  lemma ExplainedOneStepOn(b: Board, steps: seq<Step>, id: TaskId)
    requires steps != [] && Valid(b, steps) && NoOverride(steps)
    requires var n := |steps| - 1; AllFaithful(Exec(b, steps[..n])) && Explained(Exec(b, steps[..n]), steps[..n], id)
    ensures Explained(Exec(b, steps), steps, id)
  {
    var n := |steps| - 1;
    StaysExplained(Exec(b, steps[..n]), steps[..n], steps[n], id);
    assert steps[..n] + [steps[n]] == steps;
  }
}
