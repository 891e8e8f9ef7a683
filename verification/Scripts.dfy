/** Runs made to order: from any point of a run, what one task can be led through by steps of the processes alone. */
module Scripts {
  import opened Wrappers
  import opened TaskTable
  import opened Decision
  import opened TaskLife
  import opened Board
  import opened Guarantees

  /** Every execution of the run looks its handler up in one of the tables; a program that registers one has one. */
  ghost predicate Uses(steps: seq<Step>, tables: iset<set<string>>) {
    forall i :: 0 <= i < |steps| && steps[i].Settle? ==> steps[i].known in tables
  }

  /** No recovery and no override. */
  ghost predicate Calm(steps: seq<Step>, tables: iset<set<string>>) {
    && Uses(steps, tables)
    && (forall i :: 0 <= i < |steps| ==> !steps[i].Override? && !steps[i].UnlockStale? && !steps[i].Recover?)
  }

  /** One task, the dead letters, the clock, and the handler tables that processes may have. */
  datatype Scene = Scene(cell: Cell, dead: DeadLetters, now: Time, tables: iset<set<string>>)

  ghost function SceneOf(r: Board, id: TaskId, tables: iset<set<string>>): Scene
    requires Shaped(r) && id in r.life
  {
    Scene(At(r, id), r.dead, r.now, tables)
  }

  /** The run `before`, continued by the calm steps `after`, leads the task to the scene. */
  ghost predicate Leads(b: Board, before: seq<Step>, after: seq<Step>, id: TaskId, scene: Scene) {
    && Valid(b, before + after) && Calm(after, scene.tables)
    && id in Exec(b, before + after).life && SceneOf(Exec(b, before + after), id, scene.tables) == scene
  }

  lemma Starts(b: Board, before: seq<Step>, id: TaskId, tables: iset<set<string>>)
    requires Valid(b, before) && id in Exec(b, before).life
    ensures Leads(b, before, [], id, SceneOf(Exec(b, before), id, tables))
  {
    assert before + [] == before;
  }

  /** One step more, seen from the task through the move that it makes there. */
  lemma Acts(b: Board, before: seq<Step>, after: seq<Step>, id: TaskId, scene: Scene, s: Step, mv: Move)
    requires Leads(b, before, after, id, scene)
    requires var r := Exec(b, before + after); Enabled(r, s) && MoveOf(r, s, id) == mv
    requires Calm([s], scene.tables) && !s.Tick?
    ensures Possible(scene.cell, mv)
    ensures Leads(b, before, after + [s], id,
                  scene.(cell := Apply(scene.cell, mv), dead := Next(Exec(b, before + after), s).dead))
  {
    var r := Exec(b, before + after);
    Extend(b, before + after, s);
    assert before + after + [s] == before + (after + [s]);
    Projection(r, s, id);
    ClockStays(r, s);
    assert [s][0] == s;
  }

  lemma ClockStays(b: Board, s: Step)
    requires Shaped(b) && Enabled(b, s) && !s.Tick?
    ensures Next(b, s).now == b.now
  {
  }

  lemma LettersStay(b: Board, s: Step)
    requires Shaped(b) && Enabled(b, s) && (s.ClaimOne? || s.Shift? || s.Settle?)
    ensures Next(b, s).dead == b.dead
  {
  }

  lemma Claims(b: Board, before: seq<Step>, after: seq<Step>, id: TaskId, scene: Scene, w: WorkerId)
    returns (more: seq<Step>)
    requires Leads(b, before, after, id, scene) && scene.cell.row.Some? && Eligible(scene.cell.row.value, scene.now)
    ensures Leads(b, before, more, id, scene.(cell := Apply(scene.cell, Move.Claim(w, scene.now, true))))
  {
    var s := ClaimOne(w, scene.now, id);
    Acts(b, before, after, id, scene, s, Move.Claim(w, scene.now, true));
    LettersStay(Exec(b, before + after), s);
    more := after + [s];
  }

  lemma Shifts(b: Board, before: seq<Step>, after: seq<Step>, id: TaskId, scene: Scene, n: nat)
    returns (more: seq<Step>)
    requires Leads(b, before, after, id, scene) && Possible(scene.cell, Move.Shift(n))
    ensures Leads(b, before, more, id, scene.(cell := Apply(scene.cell, Move.Shift(n))))
  {
    var s := Step.Shift(id, n);
    assert scene.cell.live == Exec(b, before + after).live[id];
    Acts(b, before, after, id, scene, s, Move.Shift(n));
    LettersStay(Exec(b, before + after), s);
    more := after + [s];
  }

  /** Envelope `n` ends with the given handler table and handler result. */
  lemma Settles(b: Board, before: seq<Step>, after: seq<Step>, id: TaskId, scene: Scene,
                n: nat, known: set<string>, failure: Option<string>)
    returns (more: seq<Step>)
    requires Leads(b, before, after, id, scene) && n in scene.cell.live && scene.cell.live[n].stage.Executing?
    requires known in scene.tables
    ensures more == after + [Step.Settle(id, n, known, failure, scene.now)]
    ensures Leads(b, before, more, id,
                  scene.(cell := Settled(scene.cell, n, Decide(known, scene.cell.live[n].task, failure), scene.now)))
  {
    var s := Step.Settle(id, n, known, failure, scene.now);
    assert scene.cell.live == Exec(b, before + after).live[id];
    Acts(b, before, after, id, scene, s, Move.Settle(n, known, failure, scene.now));
    LettersStay(Exec(b, before + after), s);
    more := after + [s];
  }

  lemma {:induction false} FreshLetter(dead: DeadLetters, upTo: set<DeadId>) returns (d: DeadId)
    requires upTo <= dead.Keys
    ensures d !in upTo && forall e :: e in upTo ==> e < d
  {
    if upTo == {} {
      return 0;
    }
    var e :| e in upTo;
    d := FreshLetter(dead, upTo - {e});
    assert forall i :: i in upTo ==> i == e || i in upTo - {e};
    if d <= e {
      d := e + 1;
    }
  }

  /** The dead letter that the transfer of envelope `n` writes. */
  function LetterOf(id: TaskId, read: Task, at: Time): DeadLetter
    requires read.lastError.Some?
  {
    DeadLetter(id, read.payload, read.lastError.value, read.attempts, at, None)
  }

  lemma Transfers(b: Board, before: seq<Step>, after: seq<Step>, id: TaskId, scene: Scene, n: nat)
    returns (more: seq<Step>, letter: DeadId)
    requires Leads(b, before, after, id, scene) && n in scene.cell.live && scene.cell.live[n].stage.Moving?
    requires scene.cell.live[n].stage.read.lastError.Some?
    ensures letter !in scene.dead && more == after + [Step.Transfer(id, n, letter, scene.now)]
    ensures Leads(b, before, more, id,
                  scene.(cell := Transferred(scene.cell, n),
                         dead := scene.dead[letter := LetterOf(id, scene.cell.live[n].stage.read, scene.now)]))
  {
    letter := FreshLetter(scene.dead, scene.dead.Keys);
    var s := Step.Transfer(id, n, letter, scene.now);
    assert scene.cell.live == Exec(b, before + after).live[id];
    Acts(b, before, after, id, scene, s, Move.Transfer(n));
    more := after + [s];
  }

  // ---------------------------------------------------------------- whole executions

  /** The cell with envelope `n` in a handler. */
  function InHandler(c: Cell, n: nat): Cell
    requires n in c.live
  {
    c.(live := c.live[n := c.live[n].(stage := Executing)])
  }

  /** An envelope that is not yet in a handler, or is, gets there. */
  lemma Proceeds(b: Board, before: seq<Step>, after: seq<Step>, id: TaskId, scene: Scene, n: nat)
    returns (more: seq<Step>)
    requires Leads(b, before, after, id, scene) && n in scene.cell.live && !scene.cell.live[n].stage.Moving?
    ensures Leads(b, before, more, id, scene.(cell := InHandler(scene.cell, n)))
  {
    var c := scene.cell;
    more := after;
    if c.live[n].stage.Unsent? {
      more := Shifts(b, before, more, id, scene, n);
      var d := Apply(c, Move.Shift(n));
      more := Shifts(b, before, more, id, scene.(cell := d), n);
      assert Apply(d, Move.Shift(n)) == InHandler(c, n);
    } else if c.live[n].stage.Queued? {
      more := Shifts(b, before, more, id, scene, n);
      assert Apply(c, Move.Shift(n)) == InHandler(c, n);
    } else {
      assert InHandler(c, n).live == c.live;
      assert InHandler(c, n) == c;
    }
  }

  /** The cell after a claim whose envelope has reached a handler. */
  function Begun(c: Cell, w: WorkerId, now: Time): Cell
    requires c.row.Some?
  {
    var row := Claimed(c.row.value, w, now);
    Cell(Some(row), c.live[c.life.claims := Envelope(w, row, Executing)], c.life.(claims := c.life.claims + 1))
  }

  lemma Begins(b: Board, before: seq<Step>, after: seq<Step>, id: TaskId, scene: Scene, w: WorkerId)
    returns (more: seq<Step>)
    requires Leads(b, before, after, id, scene) && scene.cell.row.Some? && Eligible(scene.cell.row.value, scene.now)
    ensures Leads(b, before, more, id, scene.(cell := Begun(scene.cell, w, scene.now)))
  {
    var c := scene.cell;
    var d := Apply(c, Move.Claim(w, scene.now, true));
    more := Claims(b, before, after, id, scene, w);
    more := Proceeds(b, before, more, id, scene.(cell := d), c.life.claims);
    assert InHandler(d, c.life.claims).live == Begun(c, w, scene.now).live;
  }
}
