/**
  The whole system with time. Every process has the pool and the two senders of module Waiting, every
  claim of the cluster is a claim of its process's pool, a worker's loop body ends only after its
  write, and time passes everywhere at once. Then no carried task is ever found stale, and the
  guarantees of safe recovery need no premise about envelopes: only dead instances must be taken
  for stale.
 */
module Timed {
  import opened Wrappers
  import opened TaskTable
  import opened TaskLife
  import opened SafeCluster
  import Board
  import Cluster
  import Guarantees
  import Invariants
  import Recovery
  import Waiting

  /** A task and the number of the claim that made the envelope. */
  type Key = (TaskId, nat)

  /** An envelope as its process sees it. */
  datatype Watched = Watched(owner: WorkerId, watch: Waiting.Watch)

  /** A claim's duration is below `lag`, and `age` is the stale age. */
  datatype System = System(
    cluster: Cluster.Cluster,
    pools: map<WorkerId, Waiting.Pool>,
    watches: map<Key, Watched>,
    lag: nat,
    age: nat)

  datatype Step =
    | Boot(w: WorkerId, workers: nat, limit: nat)
    | Poll(w: WorkerId, at: Time, skip: set<TaskId>, ids: seq<TaskId>)
    | Fetch(w: WorkerId, at: Time, id: TaskId)
    | InPool(w: WorkerId, move: Waiting.Step)
    | Act(act: Cluster.Step)
    | Tick

  function NewPool(now: Time, workers: nat, limit: nat, batch: nat): Waiting.Pool {
    Waiting.Pool(now, seq(workers, _ => None), [], [], None, Waiting.NoOne, limit, batch)
  }

  /** The cluster's share of a step. */
  function Share(s: Step): (share: seq<Cluster.Step>)
    ensures |share| <= 1
  {
    match s
    case Poll(w, at, skip, ids) => [Cluster.Work(Board.ClaimBatch(w, at, skip, ids))]
    case Fetch(w, at, id) => [Cluster.Work(Board.ClaimOne(w, at, id))]
    case Act(act) => [act]
    case Tick => [Cluster.Work(Board.Tick(1))]
    case _ => []
  }

  /** The pool's share of a claim. */
  function PoolShare(s: Step): Waiting.Step
    requires s.Poll? || s.Fetch? || s.InPool?
  {
    match s
    case Poll(_, _, _, ids) => Waiting.Poll(seq(|ids|, _ => 0))
    case Fetch(_, _, _) => Waiting.Fetch(0)
    case InPool(_, act) => act
  }

  predicate IsClaim(s: Cluster.Step) {
    s.Work? && (s.move.ClaimBatch? || s.move.ClaimOne?)
  }

  /** The worker still has the envelope in hand: its write has not happened. */
  ghost predicate InHand(sys: System, w: WorkerId, worker: nat) {
    exists id: TaskId, n: nat :: Board.Carried(sys.cluster.board, id, n) && (id, n) in sys.watches
                    && sys.watches[(id, n)].owner == w && sys.watches[(id, n)].watch.place == Waiting.OnWorker(worker)
  }

  ghost predicate Enabled(sys: System, s: Step)
    requires Board.Shaped(sys.cluster.board)
  {
    && (forall act :: act in Share(s) ==> Cluster.Enabled(sys.cluster, act))
    && match s
       case Boot(w, workers, limit) =>
         && w !in sys.pools && 1 <= workers
         && Waiting.AgeSuffices(workers, sys.cluster.board.batch, limit, sys.lag, sys.age)
       case Poll(w, at, _, _) =>
         w in sys.pools && Waiting.Enabled(sys.pools[w], PoolShare(s)) && sys.cluster.board.now - sys.lag <= at
       case Fetch(w, at, _) =>
         w in sys.pools && Waiting.Enabled(sys.pools[w], PoolShare(s)) && sys.cluster.board.now - sys.lag <= at
       case InPool(w, act) =>
         && w in sys.pools && Waiting.Enabled(sys.pools[w], act)
         && (act.Attempt? || act.Start? || (act.Finish? && !InHand(sys, w, act.worker)))
       case Act(act) =>
         && !IsClaim(act)
         && (act.Work? ==> !act.move.Tick? && (act.move.UnlockStale? ==> act.move.age == sys.age))
       case Tick => forall w :: w in sys.pools ==> Waiting.Enabled(sys.pools[w], Waiting.Wait)
  }

  /** What one process's pool does to the envelopes that it holds. */
  ghost function Followed(watches: map<Key, Watched>, w: WorkerId, p: Waiting.Pool, s: Waiting.Step): map<Key, Watched>
    requires Waiting.Enabled(p, s) && Waiting.Channel(p)
  {
    map k | k in watches ::
      if watches[k].owner == w then Watched(w, Waiting.Follow(p, s, watches[k].watch)) else watches[k]
  }

  function ClaimedIds(s: Step): seq<TaskId> {
    match s
    case Poll(_, _, _, ids) => ids
    case Fetch(_, _, id) => [id]
    case _ => []
  }

  function Position(ids: seq<TaskId>, id: TaskId): (i: nat)
    requires id in ids
    ensures i < |ids| && ids[i] == id
  {
    if ids[0] == id then 0 else 1 + Position(ids[1..], id)
  }

  function NewKeys(b: Board.Board, ids: seq<TaskId>): (keys: set<Key>)
    ensures forall k :: k in keys <==> k.0 in ids && k.0 in b.life && k.1 == b.life[k.0].claims
  {
    var keys := set id | id in ids && id in b.life :: (id, b.life[id].claims);
    assert forall k: Key :: k.0 in ids && k.0 in b.life && k.1 == b.life[k.0].claims ==> k == (k.0, b.life[k.0].claims);
    keys
  }

  /** The envelopes that a claim makes, each with its place in the batch, beside the older ones of the process. */
  ghost function AfterClaim(watches: map<Key, Watched>, b: Board.Board, w: WorkerId, p: Waiting.Pool, s: Step)
    : map<Key, Watched>
    requires (s.Poll? || s.Fetch?) && Waiting.Enabled(p, PoolShare(s)) && Waiting.Channel(p)
  {
    var ids, keys, older := ClaimedIds(s), NewKeys(b, ClaimedIds(s)), Followed(watches, w, p, PoolShare(s));
    map k | k in watches.Keys + keys ::
      if k in keys then Watched(w, Waiting.Noticed(p, PoolShare(s), Position(ids, k.0))) else older[k]
  }

  /** A unit of time in every process. */
  ghost function AllWaited(sys: System): map<Key, Watched>
    requires forall w :: w in sys.pools ==> Waiting.Enabled(sys.pools[w], Waiting.Wait) && Waiting.Channel(sys.pools[w])
  {
    map k | k in sys.watches ::
      var x := sys.watches[k];
      if x.owner in sys.pools then Watched(x.owner, Waiting.Follow(sys.pools[x.owner], Waiting.Wait, x.watch)) else x
  }

  ghost function NextCluster(sys: System, s: Step): Cluster.Cluster
    requires Board.Shaped(sys.cluster.board) && Enabled(sys, s)
  {
    if Share(s) == [] then sys.cluster else Cluster.Next(sys.cluster, Share(s)[0])
  }

  ghost function Next(sys: System, s: Step): System
    requires Board.Shaped(sys.cluster.board) && Enabled(sys, s)
    requires forall w :: w in sys.pools ==> Waiting.Channel(sys.pools[w])
  {
    var d := sys.(cluster := NextCluster(sys, s));
    match s
    case Boot(w, workers, limit) =>
      d.(pools := sys.pools[w := NewPool(sys.cluster.board.now, workers, limit, sys.cluster.board.batch)])
    case Poll(w, _, _, _) =>
      d.(pools := sys.pools[w := Waiting.Next(sys.pools[w], PoolShare(s))],
         watches := AfterClaim(sys.watches, sys.cluster.board, w, sys.pools[w], s))
    case Fetch(w, _, _) =>
      d.(pools := sys.pools[w := Waiting.Next(sys.pools[w], PoolShare(s))],
         watches := AfterClaim(sys.watches, sys.cluster.board, w, sys.pools[w], s))
    case InPool(w, move) =>
      d.(pools := sys.pools[w := Waiting.Next(sys.pools[w], move)],
         watches := Followed(sys.watches, w, sys.pools[w], move))
    case Act(act) =>
      if act.Die? || act.Leave? then d.(pools := sys.pools - {act.worker}) else d
    case Tick =>
      d.(pools := map w | w in sys.pools :: Waiting.Next(sys.pools[w], Waiting.Wait), watches := AllWaited(sys))
  }

  // ---------------------------------------------------------------- where an envelope comes from

  predicate ClaimsTask(s: Board.Step, id: TaskId) {
    (s.ClaimBatch? && id in s.ids) || (s.ClaimOne? && s.id == id)
  }

  /** The row's lock, if it has one. */
  function LockOf(b: Board.Board, id: TaskId): Option<Time> {
    if id in b.tasks then b.tasks[id].lockedAt else None
  }

  lemma OldEnvelope(c: Cell, mv: Move, n: nat)
    requires Possible(c, mv) && !mv.Claim? && n in Apply(c, mv).live
    ensures n in c.live && Apply(c, mv).live[n].worker == c.live[n].worker
    ensures Apply(c, mv).row.Some? && Apply(c, mv).row.value.lockedAt.Some? ==>
              c.row.Some? && c.row.value.lockedAt == Apply(c, mv).row.value.lockedAt
  {
  }

  lemma NewEnvelope(c: Cell, mv: Move, n: nat)
    requires Owned(c) && Possible(c, mv) && mv.Claim? && n in Apply(c, mv).live
    ensures n == c.life.claims && Apply(c, mv).live[n].worker == mv.worker
    ensures Apply(c, mv).row.value.lockedAt == Some(mv.at)
  {
  }

  lemma ClaimOrigin(b: Board.Board, s: Board.Step, id: TaskId, n: nat)
    requires Invariants.AllOwned(b) && Board.Enabled(b, s)
    requires ClaimsTask(s, id) && Board.Carried(Board.Next(b, s), id, n)
    ensures id in b.life && n == b.life[id].claims && Board.Next(b, s).live[id][n].worker == s.worker
    ensures LockOf(Board.Next(b, s), id) == Some(s.at)
  {
    if s.ClaimBatch? {
      assert id in Claimable(b.tasks, s.at, s.skip);
    }
    Board.Projection(b, s, id);
    NewEnvelope(Board.At(b, id), Board.MoveOf(b, s, id), n);
    assert Board.At(Board.Next(b, s), id).live == Board.Next(b, s).live[id];
  }

  lemma OtherOrigin(b: Board.Board, s: Board.Step, id: TaskId, n: nat)
    requires Board.Shaped(b) && Board.Enabled(b, s) && !ClaimsTask(s, id) && Board.Carried(Board.Next(b, s), id, n)
    ensures Board.Carried(b, id, n) && Board.Next(b, s).live[id][n].worker == b.live[id][n].worker
    ensures LockOf(Board.Next(b, s), id).Some? ==> LockOf(Board.Next(b, s), id) == LockOf(b, id)
  {
    Board.StaysShaped(b, s);
    if id in b.life {
      Board.Projection(b, s, id);
      assert n in Board.At(Board.Next(b, s), id).live;
      OldEnvelope(Board.At(b, id), Board.MoveOf(b, s, id), n);
    } else {
      Invariants.Birth(b, s, id);
    }
  }

  // ---------------------------------------------------------------- the invariant

  ghost predicate PoolOk(sys: System, w: WorkerId)
    requires w in sys.pools
  {
    var p := sys.pools[w];
    && Waiting.Orderly(p) && p.now == sys.cluster.board.now && p.batch == sys.cluster.board.batch
    && Waiting.AgeSuffices(|p.slots|, p.batch, p.limit, sys.lag, sys.age)
  }

  /** A carried envelope is in its process's pool, on time, and was locked at most a claim's duration before. */
  ghost predicate Attended(sys: System, id: TaskId, n: nat)
    requires Board.Carried(sys.cluster.board, id, n)
  {
    && (id, n) in sys.watches
    && var x := sys.watches[(id, n)];
       && x.owner == sys.cluster.board.live[id][n].worker && x.owner in sys.pools
       && Waiting.Tracked(sys.pools[x.owner], x.watch) && !x.watch.place.Ended?
       && (LockOf(sys.cluster.board, id).Some? ==> x.watch.since - sys.lag <= LockOf(sys.cluster.board, id).value)
  }

  ghost predicate Timely(sys: System) {
    && Board.Shaped(sys.cluster.board)
    && (forall w :: w in sys.pools ==> PoolOk(sys, w))
    && (forall id, n :: Board.Carried(sys.cluster.board, id, n) ==> Attended(sys, id, n))
  }

  /** So no carried task is ever found stale. */
  lemma TimelyIsPrompt(sys: System, s: Step)
    requires Timely(sys) && Enabled(sys, s) && Share(s) != []
    ensures Prompt(sys.cluster, Share(s)[0])
  {
    var act := Share(s)[0];
    assert act in Share(s);
    if act.Work? && act.move.UnlockStale? {
      forall id, n | Board.Carried(sys.cluster.board, id, n) && LockOf(sys.cluster.board, id).Some?
        ensures act.move.at - act.move.age <= LockOf(sys.cluster.board, id).value
      {
        assert Attended(sys, id, n);
        var x := sys.watches[(id, n)];
        assert PoolOk(sys, x.owner);
        Waiting.TrackedIsYoung(sys.pools[x.owner], x.watch, sys.lag, sys.age);
      }
    }
  }

  // ---------------------------------------------------------------- every step keeps it

  /** The board after a step, and its clock. */
  lemma BoardClock(c: Cluster.Cluster, s: Cluster.Step)
    requires Board.Shaped(c.board) && Cluster.Enabled(c, s)
    ensures Board.Shaped(Cluster.Next(c, s).board) && Cluster.Next(c, s).board == Cluster.NextBoard(c, s)
    ensures Cluster.Next(c, s).board.batch == c.board.batch
    ensures !(s.Work? && s.move.Tick?) ==> Cluster.Next(c, s).board.now == c.board.now
  {
    Cluster.StaysShaped(c, s);
  }

  lemma ClockOfStep(sys: System, s: Step)
    requires Board.Shaped(sys.cluster.board) && Enabled(sys, s)
    ensures Board.Shaped(NextCluster(sys, s).board) && NextCluster(sys, s).board.batch == sys.cluster.board.batch
    ensures NextCluster(sys, s).board.now == sys.cluster.board.now + if s.Tick? then 1 else 0
  {
    if Share(s) != [] {
      assert Share(s)[0] in Share(s);
      BoardClock(sys.cluster, Share(s)[0]);
    }
  }

  lemma KeepsPoolOk(sys: System, s: Step, w: WorkerId)
    requires Timely(sys) && Enabled(sys, s) && w in Next(sys, s).pools
    ensures PoolOk(Next(sys, s), w)
  {
    ClockOfStep(sys, s);
    if w in sys.pools {
      assert PoolOk(sys, w);
      if (s.Poll? || s.Fetch? || s.InPool?) && s.w == w {
        Waiting.KeepsOrderly(sys.pools[w], PoolShare(s));
      } else if s.Tick? {
        Waiting.KeepsOrderly(sys.pools[w], Waiting.Wait);
      }
    }
  }

  /** Boot and the pool's own steps leave the board alone. */
  lemma InsideKeepsAttended(sys: System, s: Step, id: TaskId, n: nat)
    requires Timely(sys) && Enabled(sys, s) && (s.Boot? || s.InPool?) && Board.Carried(sys.cluster.board, id, n)
    ensures Attended(Next(sys, s), id, n)
  {
    assert Attended(sys, id, n);
    var x := sys.watches[(id, n)];
    assert PoolOk(sys, x.owner);
    assert x.watch.place.OnWorker? ==> InHand(sys, x.owner, x.watch.place.worker);
    if s.InPool? && s.w == x.owner {
      Waiting.KeepsTracked(sys.pools[s.w], s.move, x.watch);
    }
  }

  /** An envelope in its process's pool, as far as the pool goes. */
  ghost predicate Pooled(pools: map<WorkerId, Waiting.Pool>, x: Watched) {
    x.owner in pools && Waiting.Tracked(pools[x.owner], x.watch) && !x.watch.place.Ended?
  }

  lemma WaitedStaysPooled(sys: System, k: Key)
    requires forall w :: w in sys.pools ==>
               && Waiting.Enabled(sys.pools[w], Waiting.Wait)
               && Waiting.Channel(sys.pools[w]) && Waiting.Orderly(sys.pools[w])
    requires k in sys.watches && Pooled(sys.pools, sys.watches[k])
    ensures var after := AllWaited(sys);
            && k in after && after[k].owner == sys.watches[k].owner
            && after[k].watch.since == sys.watches[k].watch.since
            && Pooled(map w | w in sys.pools :: Waiting.Next(sys.pools[w], Waiting.Wait), after[k])
  {
    Waiting.KeepsTracked(sys.pools[sys.watches[k].owner], Waiting.Wait, sys.watches[k].watch);
  }

  /** Time passes for every envelope in every process. */
  lemma TickKeepsAttended(sys: System, s: Step, id: TaskId, n: nat)
    requires Timely(sys) && Enabled(sys, s) && s.Tick? && Board.Carried(Next(sys, s).cluster.board, id, n)
    ensures Attended(Next(sys, s), id, n)
  {
    var act := Share(s)[0];
    assert act in Share(s);
    BoardClock(sys.cluster, act);
    OtherOrigin(sys.cluster.board, act.move, id, n);
    assert Attended(sys, id, n);
    forall w | w in sys.pools
      ensures Waiting.Orderly(sys.pools[w])
    {
      assert PoolOk(sys, w);
    }
    WaitedStaysPooled(sys, (id, n));
  }

  lemma OlderStaysPooled(watches: map<Key, Watched>, pools: map<WorkerId, Waiting.Pool>, b: Board.Board,
                         w: WorkerId, s: Step, k: Key)
    requires (s.Poll? || s.Fetch?) && w in pools && Waiting.Orderly(pools[w]) && Waiting.Enabled(pools[w], PoolShare(s))
    requires k in watches && k !in NewKeys(b, ClaimedIds(s)) && Pooled(pools, watches[k])
    ensures var after := AfterClaim(watches, b, w, pools[w], s);
            && k in after && after[k].owner == watches[k].owner && after[k].watch.since == watches[k].watch.since
            && Pooled(pools[w := Waiting.Next(pools[w], PoolShare(s))], after[k])
  {
    if watches[k].owner == w {
      Waiting.KeepsTracked(pools[w], PoolShare(s), watches[k].watch);
    }
  }

  lemma OlderKeepsAttended(sys: System, s: Step, move: Board.Step, id: TaskId, n: nat)
    requires Timely(sys) && Enabled(sys, s) && (s.Poll? || s.Fetch?) && Share(s) == [Cluster.Work(move)]
    requires Board.Carried(Next(sys, s).cluster.board, id, n) && !ClaimsTask(move, id)
    ensures Attended(Next(sys, s), id, n)
  {
    assert Cluster.Work(move) in Share(s);
    BoardClock(sys.cluster, Cluster.Work(move));
    OtherOrigin(sys.cluster.board, move, id, n);
    assert Attended(sys, id, n) && PoolOk(sys, s.w);
    assert (id, n) !in NewKeys(sys.cluster.board, ClaimedIds(s));
    OlderStaysPooled(sys.watches, sys.pools, sys.cluster.board, s.w, s, (id, n));
  }

  /** A claim puts its envelopes into its process's pool. */
  lemma NewerIsAttended(sys: System, s: Step, move: Board.Step, id: TaskId, n: nat)
    requires Timely(sys) && Enabled(sys, s) && (s.Poll? || s.Fetch?) && Share(s) == [Cluster.Work(move)]
    requires Invariants.AllOwned(sys.cluster.board)
    requires Board.Carried(Next(sys, s).cluster.board, id, n) && ClaimsTask(move, id)
    ensures Attended(Next(sys, s), id, n)
  {
    assert Cluster.Work(move) in Share(s);
    BoardClock(sys.cluster, Cluster.Work(move));
    ClaimOrigin(sys.cluster.board, move, id, n);
    assert PoolOk(sys, s.w) && id in ClaimedIds(s) && (id, n) in NewKeys(sys.cluster.board, ClaimedIds(s));
    Waiting.NoticedTracked(sys.pools[s.w], PoolShare(s), Position(ClaimedIds(s), id));
  }

  /** The other steps of the cluster make no envelope; a process that is gone has none. */
  lemma ActKeepsAttended(sys: System, s: Step, id: TaskId, n: nat)
    requires Timely(sys) && Enabled(sys, s) && s.Act? && Board.Carried(Next(sys, s).cluster.board, id, n)
    ensures Attended(Next(sys, s), id, n)
  {
    var c, act := sys.cluster, s.act;
    assert act in Share(s);
    BoardClock(c, act);
    var share := Cluster.OnBoard(c, act);
    if share != [] {
      OtherOrigin(c.board, share[0], id, n);
    }
    assert Attended(sys, id, n);
    assert PoolOk(sys, sys.watches[(id, n)].owner);
    if act.Die? {
      CrashLeavesNone(c.board, act.worker);
    } else if act.Leave? {
      LeaverCarriesNone(c, act);
    }
  }

  lemma KeepsAttended(sys: System, s: Step, id: TaskId, n: nat)
    requires Timely(sys) && Invariants.AllOwned(sys.cluster.board) && Enabled(sys, s)
    requires Board.Carried(Next(sys, s).cluster.board, id, n)
    ensures Attended(Next(sys, s), id, n)
  {
    match s
    case Boot(_, _, _) => InsideKeepsAttended(sys, s, id, n);
    case InPool(_, _) => InsideKeepsAttended(sys, s, id, n);
    case Tick => TickKeepsAttended(sys, s, id, n);
    case Act(_) => ActKeepsAttended(sys, s, id, n);
    case _ =>
      var move := Share(s)[0].move;
      if ClaimsTask(move, id) {
        NewerIsAttended(sys, s, move, id, n);
      } else {
        OlderKeepsAttended(sys, s, move, id, n);
      }
  }

  lemma KeepsTimely(sys: System, s: Step)
    requires Timely(sys) && Invariants.AllOwned(sys.cluster.board) && Enabled(sys, s)
    ensures Timely(Next(sys, s))
  {
    var d := Next(sys, s);
    if Share(s) != [] {
      assert Share(s)[0] in Share(s);
      BoardClock(sys.cluster, Share(s)[0]);
    }
    forall w | w in d.pools
      ensures PoolOk(d, w)
    {
      KeepsPoolOk(sys, s, w);
    }
    forall id, n | Board.Carried(d.cluster.board, id, n)
      ensures Attended(d, id, n)
    {
      KeepsAttended(sys, s, id, n);
    }
  }

  // ---------------------------------------------------------------- over runs

  function Start(batch: nat, maxRetries: nat, now: Time, lag: nat, age: nat): System {
    System(Cluster.Empty(batch, maxRetries, now), map[], map[], lag, age)
  }

  /** A step of the system; the only premise is that the instances taken for stale are dead. */
  ghost predicate Goes(sys: System, s: Step, d: System) {
    && Board.Shaped(sys.cluster.board) && (forall w :: w in sys.pools ==> Waiting.Channel(sys.pools[w]))
    && Enabled(sys, s) && d == Next(sys, s)
    && (Share(s) != [] ==> Recovery.DeadOnly(sys.cluster, Share(s)[0]))
  }

  /** The states before, between and after the steps. */
  ghost predicate Run(states: seq<System>, steps: seq<Step>) {
    |states| == |steps| + 1 && forall k :: 0 <= k < |steps| ==> Goes(states[k], steps[k], states[k + 1])
  }

  /** The cluster's steps among the first `k`. */
  function Trace(steps: seq<Step>, k: nat): seq<Cluster.Step>
    requires k <= |steps|
  {
    if k == 0 then [] else Trace(steps, k - 1) + Share(steps[k - 1])
  }

  /** The run of the cluster inside, and that it meets the premises of safe recovery. */
  ghost predicate Inside(c: Cluster.Cluster, trace: seq<Cluster.Step>, r: Cluster.Cluster) {
    && Cluster.Valid(c, trace) && Cluster.Exec(c, trace) == r
    && Recovery.DeadOnlyRun(c, trace) && PromptRun(c, trace)
  }

  lemma InsideGrows(c: Cluster.Cluster, trace: seq<Cluster.Step>, r: Cluster.Cluster, act: Cluster.Step)
    requires Inside(c, trace, r) && Board.Shaped(r.board) && Cluster.Enabled(r, act)
    requires Recovery.DeadOnly(r, act) && Prompt(r, act)
    ensures Inside(c, trace + [act], Cluster.Next(r, act))
  {
    assert (trace + [act])[..|trace|] == trace;
  }

  lemma OwnedInside(batch: nat, maxRetries: nat, now: Time, trace: seq<Cluster.Step>, r: Cluster.Cluster)
    requires Inside(Cluster.Empty(batch, maxRetries, now), trace, r)
    ensures Invariants.AllOwned(r.board)
  {
    AlwaysSafeSystem(batch, maxRetries, now, trace);
    SafeSystemParts(r);
  }

  lemma StepsInside(c: Cluster.Cluster, trace: seq<Cluster.Step>, p: System, s: Step, d: System)
    requires Goes(p, s, d) && Timely(p) && Invariants.AllOwned(p.cluster.board) && Inside(c, trace, p.cluster)
    ensures Timely(d) && Inside(c, trace + Share(s), d.cluster)
  {
    KeepsTimely(p, s);
    if Share(s) == [] {
      assert trace + Share(s) == trace;
    } else {
      var act := Share(s)[0];
      assert act in Share(s) && Share(s) == [act];
      TimelyIsPrompt(p, s);
      InsideGrows(c, trace, p.cluster, act);
    }
  }

  lemma {:induction false} RunsInside(batch: nat, maxRetries: nat, now: Time, states: seq<System>, steps: seq<Step>,
                                      k: nat)
    requires Run(states, steps) && k < |states|
    requires states[0] == Start(batch, maxRetries, now, states[0].lag, states[0].age)
    ensures Timely(states[k])
    ensures Inside(Cluster.Empty(batch, maxRetries, now), Trace(steps, k), states[k].cluster)
    decreases k
  {
    if k > 0 {
      var c := Cluster.Empty(batch, maxRetries, now);
      assert Goes(states[k - 1], steps[k - 1], states[k]);
      RunsInside(batch, maxRetries, now, states, steps, k - 1);
      OwnedInside(batch, maxRetries, now, Trace(steps, k - 1), states[k - 1].cluster);
      StepsInside(c, Trace(steps, k - 1), states[k - 1], steps[k - 1], states[k]);
    }
  }

  /**
    In every run of the timed system in which only dead instances are taken for stale, a task is
    carried at most once, by a live process, and its row is running and locked by it.
   */
  lemma TimedSingleOwner(batch: nat, maxRetries: nat, now: Time, states: seq<System>, steps: seq<Step>,
                         id: TaskId, m: nat, n: nat)
    requires Run(states, steps) && states[0] == Start(batch, maxRetries, now, states[0].lag, states[0].age)
    requires var b := states[|steps|].cluster.board; Board.Carried(b, id, m) && Board.Carried(b, id, n)
    ensures m == n
    ensures var r := states[|steps|].cluster;
            && id in r.board.tasks && r.board.tasks[id].status.Running?
            && r.board.tasks[id].lockedBy == Some(r.board.live[id][n].worker)
            && r.board.live[id][n].worker !in r.gone
  {
    RunsInside(batch, maxRetries, now, states, steps, |steps|);
    ClusterSingleOwner(batch, maxRetries, now, Trace(steps, |steps|), id, m, n);
  }

  /** And recovery of it resets only tasks that no process carries. */
  lemma TimedRecoveryIsSafe(batch: nat, maxRetries: nat, now: Time, states: seq<System>, steps: seq<Step>)
    requires Run(states, steps) && states[0] == Start(batch, maxRetries, now, states[0].lag, states[0].age)
    ensures var c, trace := Cluster.Empty(batch, maxRetries, now), Trace(steps, |steps|);
            && Cluster.Valid(c, trace) && Cluster.Exec(c, trace) == states[|steps|].cluster
            && Guarantees.Valid(c.board, Cluster.Trace(c, trace))
            && Guarantees.SafelyRecovered(c.board, Cluster.Trace(c, trace))
  {
    RunsInside(batch, maxRetries, now, states, steps, |steps|);
    RecoveryIsSafe(batch, maxRetries, now, Trace(steps, |steps|));
  }

  const SECOND: nat := Waiting.SECOND

  /** A process with the defaults can join exactly when claims take less than 66 s. */
  lemma DefaultsMayBoot(sys: System, w: WorkerId)
    requires Board.Shaped(sys.cluster.board) && w !in sys.pools
    requires sys.cluster.board.batch == 10 && sys.age == 300 * SECOND
    ensures Enabled(sys, Boot(w, 5, 30 * SECOND)) <==> sys.lag < 66 * SECOND
  {
    Waiting.DefaultsSuffice(sys.lag);
  }
}
