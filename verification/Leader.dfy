/**
  Leadership: the coordinator's ticker loop, the advisory lock behind TryAcquireLeader and
  ReleaseLeader (PostgreSQL 16 manual, section 13.3.5), and main's shutdown order.
 */
module Leader {
  import opened Wrappers
  import opened TaskTable

  // ---------------------------------------------------------------- one coordinator

  /**
    `contexts` are the leader contexts made so far, true once cancelled; a loop is the index of the
    context it was started with. Cancelling the parent cancels every one of them.
   */
  datatype Coord = Coord(
    isLeader: bool,
    contexts: seq<bool>,
    monitors: seq<nat>,
    cleaners: seq<nat>,
    parentCancelled: bool)

  const FRESH := Coord(false, [], [], [], false)

  /** One tick: an error changes nothing, gaining starts both loops, losing cancels their context. */
  function Ticked(c: Coord, acquired: Result<bool>): Coord {
    if acquired.Err? then c
    else if acquired.value && !c.isLeader then
      Coord(true, c.contexts + [false], c.monitors + [|c.contexts|], c.cleaners + [|c.contexts|], c.parentCancelled)
    else if !acquired.value && c.isLeader && c.contexts != [] then
      c.(isLeader := false, contexts := c.contexts[|c.contexts| - 1 := true])
    else c
  }

  /** Loops whose context is not cancelled. */
  function Live(loops: seq<nat>, contexts: seq<bool>, parentCancelled: bool): nat {
    if loops == [] then 0
    else
      var i := loops[|loops| - 1];
      Live(loops[..|loops| - 1], contexts, parentCancelled)
      + if i < |contexts| && !contexts[i] && !parentCancelled then 1 else 0
  }

  function LiveMonitors(c: Coord): nat {
    Live(c.monitors, c.contexts, c.parentCancelled)
  }

  function LiveCleaners(c: Coord): nat {
    Live(c.cleaners, c.contexts, c.parentCancelled)
  }

  predicate Leading(c: Coord) {
    c.isLeader && !c.parentCancelled
  }

  /** Only the newest context can be open, and it is open exactly while the flag is set. */
  ghost predicate CoordOk(c: Coord) {
    && c.monitors == c.cleaners
    && |c.monitors| == |c.contexts|
    && (forall i :: 0 <= i < |c.monitors| ==> c.monitors[i] == i)
    && (forall i :: 0 <= i < |c.contexts| ==> (c.contexts[i] <==> !(c.isLeader && i == |c.contexts| - 1)))
    && (c.isLeader ==> c.contexts != [])
  }

  lemma TickKeepsOk(c: Coord, acquired: Result<bool>)
    requires CoordOk(c)
    ensures CoordOk(Ticked(c, acquired))
  {
  }

  lemma {:induction false} NoneLive(loops: seq<nat>, contexts: seq<bool>, parentCancelled: bool)
    requires forall i :: 0 <= i < |loops| ==> loops[i] < |contexts| ==> contexts[loops[i]] || parentCancelled
    ensures Live(loops, contexts, parentCancelled) == 0
  {
    if loops != [] {
      NoneLive(loops[..|loops| - 1], contexts, parentCancelled);
    }
  }

  lemma LiveLoops(c: Coord)
    requires CoordOk(c)
    ensures LiveMonitors(c) == LiveCleaners(c) == if Leading(c) then 1 else 0
  {
    if Leading(c) {
      NoneLive(c.monitors[..|c.monitors| - 1], c.contexts, c.parentCancelled);
    } else {
      NoneLive(c.monitors, c.contexts, c.parentCancelled);
    }
  }

  function TickedAll(c: Coord, results: seq<Result<bool>>): Coord {
    if results == [] then c
    else Ticked(TickedAll(c, results[..|results| - 1]), results[|results| - 1])
  }

  /** The last result that was not an error, or false. */
  function LastAnswer(results: seq<Result<bool>>): bool {
    if results == [] then false
    else
      var last := results[|results| - 1];
      if last.Ok? then last.value else LastAnswer(results[..|results| - 1])
  }

  /**
    For any sequence of acquire results there is one monitor and one cleaner exactly while the last
    answer that was not an error said leader, and none otherwise.
   */
  lemma {:induction false} LoopsFollowAnswers(results: seq<Result<bool>>)
    ensures var c := TickedAll(FRESH, results);
            && CoordOk(c) && !c.parentCancelled
            && (c.isLeader <==> LastAnswer(results))
            && LiveMonitors(c) == LiveCleaners(c) == if LastAnswer(results) then 1 else 0
  {
    if results != [] {
      LoopsFollowAnswers(results[..|results| - 1]);
      TickKeepsOk(TickedAll(FRESH, results[..|results| - 1]), results[|results| - 1]);
    }
    LiveLoops(TickedAll(FRESH, results));
  }

  /** The coordinator object. */
  class Coordinator {
    var isLeader: bool
    var contexts: seq<bool>
    var leaderCancel: Option<nat>
    var monitors: seq<nat>
    var cleaners: seq<nat>
    var parentCancelled: bool

    function State(): Coord
      reads this
    {
      Coord(isLeader, contexts, monitors, cleaners, parentCancelled)
    }

    ghost predicate Valid()
      reads this
    {
      && CoordOk(State())
      && leaderCancel == if contexts == [] then None else Some(|contexts| - 1)
    }

    constructor ()
      ensures Valid() && State() == FRESH
    {
      isLeader, contexts, leaderCancel, monitors, cleaners, parentCancelled := false, [], None, [], [], false;
    }

    /** The body of the ticker case; `acquired` is what TryAcquireLeader returned. */
    method Tick(acquired: Result<bool>)
      requires Valid()
      modifies this`isLeader, this`contexts, this`leaderCancel, this`monitors, this`cleaners
      ensures Valid() && State() == Ticked(old(State()), acquired)
      ensures LiveMonitors(State()) == LiveCleaners(State()) == if isLeader && !parentCancelled then 1 else 0
    {
      TickKeepsOk(State(), acquired);
      if acquired.Ok? {
        if acquired.value && !isLeader {
          isLeader := true;
          leaderCancel := Some(|contexts|);
          monitors := monitors + [|contexts|];
          cleaners := cleaners + [|contexts|];
          contexts := contexts + [false];
        } else if !acquired.value && isLeader {
          isLeader := false;
          contexts := contexts[leaderCancel.value := true];
        }
      }
      LiveLoops(State());
    }

    method CancelParent()
      requires Valid()
      modifies this`parentCancelled
      ensures Valid() && State() == old(State()).(parentCancelled := true)
      ensures LiveMonitors(State()) == LiveCleaners(State()) == 0
    {
      parentCancelled := true;
      LiveLoops(State());
    }
  }

  // ---------------------------------------------------------------- the advisory lock

  /** A held connection answers true without asking; a failed attempt leaves the lock alone. */
  function Acquire(held: bool, lock: Option<WorkerId>, fails: bool): Result<bool> {
    if held then Ok(true)
    else if fails then Err(Internal)
    else Ok(lock.None?)
  }

  /** The server's side of the lock: the session that holds it. */
  class AdvisoryLock {
    var holder: Option<WorkerId>

    constructor ()
      ensures holder == None
    {
      holder := None;
    }
  }

  /** The repository keeps the connection that holds the lock, and answers from it without asking again. */
  class InstanceRepository {
    const server: AdvisoryLock
    const session: WorkerId
    var leaderConn: Option<WorkerId>

    constructor (server: AdvisoryLock, session: WorkerId)
      ensures this.server == server && this.session == session && leaderConn == None
    {
      this.server, this.session := server, session;
      leaderConn := None;
    }

    /** A kept connection is the one that holds the lock. */
    ghost predicate Valid()
      reads this, server
    {
      leaderConn.Some? <==> server.holder == Some(session)
    }

    method TryAcquireLeader(connectFails: bool, queryFails: bool) returns (r: Result<bool>)
      requires Valid()
      modifies this`leaderConn, server`holder
      ensures Valid()
      ensures r == Acquire(old(leaderConn).Some?, old(server.holder), connectFails || queryFails)
      ensures leaderConn.Some? <==> r == Ok(true)
      ensures old(leaderConn).Some? ==> r == Ok(true)
      ensures r.Err? <==> old(leaderConn).None? && (connectFails || queryFails)
      ensures old(leaderConn).None? && r.Ok? ==> r.value == (old(server.holder) == None)
      ensures server.holder == if r == Ok(true) then Some(session) else old(server.holder)
    {
      if leaderConn.Some? {
        return Ok(true);
      }
      if connectFails {
        return Err(Internal);
      }
      var conn := session;
      if queryFails {
        return Err(Internal);
      }
      if server.holder.Some? {
        return Ok(false);
      }
      server.holder := Some(conn);
      leaderConn := Some(conn);
      r := Ok(true);
    }

    /** A failed unlock is a broken connection, whose session the server ends. */
    method ReleaseLeader(queryFails: bool) returns (r: Result<bool>)
      requires Valid()
      modifies this`leaderConn, server`holder
      ensures Valid() && leaderConn == None
      ensures server.holder == if old(leaderConn).None? then old(server.holder) else None
      ensures r == if old(leaderConn).None? then Ok(false) else if queryFails then Err(Internal) else Ok(true)
    {
      if leaderConn.None? {
        return Ok(false);
      }
      leaderConn := None;
      server.holder := None;
      r := if queryFails then Err(Internal) else Ok(true);
    }
  }

  // ---------------------------------------------------------------- all processes

  /** `held` is a non-nil leaderConn; `returned` a coordinator loop that has ended. */
  datatype Node = Node(coord: Coord, held: bool, returned: bool)

  /** `lock` is the session that holds the advisory lock. */
  datatype System = System(nodes: map<WorkerId, Node>, lock: Option<WorkerId>)

  datatype Step =
    | Join(w: WorkerId)
    | Tick(w: WorkerId, fails: bool)
    | Cancel(w: WorkerId)
    | Return(w: WorkerId)
    | Unlock(w: WorkerId)
    | Crash(w: WorkerId)

  /** Main cancels, waits for the coordinator's loop, and only later releases the lock. */
  predicate Enabled(s: System, step: Step) {
    match step
    case Join(w) => w !in s.nodes
    case Tick(w, _) => w in s.nodes && !s.nodes[w].returned
    case Cancel(w) => w in s.nodes
    case Return(w) => w in s.nodes && s.nodes[w].coord.parentCancelled
    case Unlock(w) => w in s.nodes && s.nodes[w].returned
    case Crash(w) => w in s.nodes
  }

  function Next(s: System, step: Step): System
    requires Enabled(s, step)
  {
    match step
    case Join(w) => s.(nodes := s.nodes[w := Node(FRESH, false, false)])
    case Tick(w, fails) =>
      var acquired := Acquire(s.nodes[w].held, s.lock, fails);
      var gained := acquired == Ok(true);
      System(s.nodes[w := s.nodes[w].(coord := Ticked(s.nodes[w].coord, acquired), held := s.nodes[w].held || gained)],
             if gained then Some(w) else s.lock)
    case Cancel(w) => s.(nodes := s.nodes[w := s.nodes[w].(coord := s.nodes[w].coord.(parentCancelled := true))])
    case Return(w) => s.(nodes := s.nodes[w := s.nodes[w].(returned := true)])
    case Unlock(w) =>
      if !s.nodes[w].held then s
      else System(s.nodes[w := s.nodes[w].(held := false)], None)
    case Crash(w) => System(s.nodes - {w}, if s.nodes[w].held then None else s.lock)
  }

  ghost predicate Inv(s: System) {
    && (forall w :: w in s.nodes ==>
          && CoordOk(s.nodes[w].coord)
          && (s.nodes[w].held <==> s.lock == Some(w))
          && (Leading(s.nodes[w].coord) ==> s.nodes[w].held)
          && (s.nodes[w].returned ==> s.nodes[w].coord.parentCancelled))
    && (s.lock.Some? ==> s.lock.value in s.nodes)
  }

  lemma KeepsInv(s: System, step: Step)
    requires Inv(s) && Enabled(s, step)
    ensures Inv(Next(s, step))
  {
    if step.Tick? {
      TickKeepsOk(s.nodes[step.w].coord, Acquire(s.nodes[step.w].held, s.lock, step.fails));
    }
  }

  ghost predicate Run(s: System, steps: seq<Step>, r: System)
    decreases |steps|
  {
    if steps == [] then r == s
    else Enabled(s, steps[0]) && Run(Next(s, steps[0]), steps[1..], r)
  }

  lemma {:induction false} AlwaysInv(s: System, steps: seq<Step>, r: System)
    requires Inv(s) && Run(s, steps, r)
    ensures Inv(r)
    decreases |steps|
  {
    if steps != [] {
      KeepsInv(s, steps[0]);
      AlwaysInv(Next(s, steps[0]), steps[1..], r);
    }
  }

  /**
    In every run at most one process has leader loops with an open context, and that process holds
    the advisory lock; a process that gives the lock up has no such loop.
   */
  lemma OneLeader(steps: seq<Step>, r: System, v: WorkerId, w: WorkerId)
    requires Run(System(map[], None), steps, r) && v in r.nodes && w in r.nodes
    ensures LiveMonitors(r.nodes[w].coord) == LiveCleaners(r.nodes[w].coord) <= 1
    ensures LiveMonitors(r.nodes[v].coord) > 0 && LiveMonitors(r.nodes[w].coord) > 0 ==> v == w
    ensures LiveMonitors(r.nodes[w].coord) > 0 ==> r.lock == Some(w)
    ensures Enabled(r, Unlock(w)) ==> LiveMonitors(r.nodes[w].coord) == 0
  {
    AlwaysInv(System(map[], None), steps, r);
    LiveLoops(r.nodes[v].coord);
    LiveLoops(r.nodes[w].coord);
  }

  /**
    A free lock is granted: in every reachable state without a holder, the next tick that reaches the
    database, of any process that is not shutting down, makes that process leader, with one monitor and
    one cleaner.
   */
  lemma FreeLockIsGranted(steps: seq<Step>, r: System, w: WorkerId)
    requires Run(System(map[], None), steps, r) && r.lock == None
    requires w in r.nodes && !r.nodes[w].returned && !r.nodes[w].coord.parentCancelled
    ensures Enabled(r, Tick(w, false))
    ensures var d := Next(r, Tick(w, false));
            && d.lock == Some(w) && w in d.nodes && d.nodes[w].held && d.nodes[w].coord.isLeader
            && LiveMonitors(d.nodes[w].coord) == LiveCleaners(d.nodes[w].coord) == 1
  {
    AlwaysInv(System(map[], None), steps, r);
    var d := Next(r, Tick(w, false));
    KeepsInv(r, Tick(w, false));
    LiveLoops(d.nodes[w].coord);
  }

  /** A leader stays leader whatever its ticks return, and a rival's tick changes nothing. */
  lemma LeaderStays(steps: seq<Step>, r: System, w: WorkerId, v: WorkerId, fails: bool)
    requires Run(System(map[], None), steps, r) && w in r.nodes && Leading(r.nodes[w].coord)
    requires Enabled(r, Tick(v, fails))
    ensures var d := Next(r, Tick(v, fails));
            && d.lock == Some(w) && w in d.nodes && d.nodes[w] == r.nodes[w]
            && (v != w ==> LiveMonitors(d.nodes[v].coord) == 0)
  {
    AlwaysInv(System(map[], None), steps, r);
    KeepsInv(r, Tick(v, fails));
    LiveLoops(Next(r, Tick(v, fails)).nodes[v].coord);
  }

  /** A leader that crashes, or gives the lock up, leaves it free. */
  lemma LeaderLeavesLockFree(steps: seq<Step>, r: System, w: WorkerId, step: Step)
    requires Run(System(map[], None), steps, r) && r.lock == Some(w) && Enabled(r, step)
    requires step == Crash(w) || step == Unlock(w)
    ensures Next(r, step).lock == None
  {
    AlwaysInv(System(map[], None), steps, r);
  }
}
