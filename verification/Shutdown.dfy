/**
  One process from serving to exit: a dispatcher and a consumer that block on a bounded channel, W
  pool workers, and main's shutdown order.
 */
module Shutdown {

  import opened Pool

  /** `Claiming` is a poll or claim in flight; `Sending` holds what is still to be sent, blocked or not. */
  datatype Sender = Idle | Claiming | Sending(rest: nat) | Stopped

  datatype Main = Serving | AwaitCoordinator | AwaitPublisher | AwaitConsumer | AwaitDispatcher | Draining | Exited

  datatype Process = Process(
    workers: nat,
    tickets: Tickets,
    quit: set<nat>,
    closed: bool,
    dispatcher: Sender,
    consumer: Sender,
    coordinatorDone: bool,
    publisherDone: bool,
    main: Main)

  datatype Who = Dispatcher | Consumer

  datatype Step =
    | BeginClaim(who: Who)
    | EndClaim(who: Who, count: nat)
    | Send(who: Who)
    | StopSender(who: Who)
    | Take(worker: nat)
    | Finish(worker: nat)
    | Quit(worker: nat)
    | Cancel
    | CoordinatorStops
    | PublisherStops
    | Advance

  function New(workers: nat): Process {
    Process(workers, NO_TICKETS, {}, false, Idle, Idle, false, false, Serving)
  }

  predicate Cancelled(p: Process) {
    !p.main.Serving?
  }

  function SenderOf(p: Process, who: Who): Sender {
    if who.Dispatcher? then p.dispatcher else p.consumer
  }

  function Put(p: Process, who: Who, s: Sender): Process {
    if who.Dispatcher? then p.(dispatcher := s) else p.(consumer := s)
  }

  predicate Free(p: Process, worker: nat) {
    worker < p.workers && worker !in p.tickets.running && worker !in p.quit
  }

  function Depth(p: Process): int {
    |p.tickets.fate| - p.tickets.taken
  }

  predicate AllQuit(p: Process) {
    forall i :: 0 <= i < p.workers ==> i in p.quit
  }

  /** After the cancel no new claim begins; one that is in flight may still return its batch. */
  predicate Enabled(p: Process, s: Step) {
    match s
    case BeginClaim(who) => SenderOf(p, who).Idle? && !Cancelled(p)
    case EndClaim(who, count) => SenderOf(p, who).Claiming? && (who.Consumer? ==> count <= 1)
    case Send(who) => SenderOf(p, who).Sending? && SenderOf(p, who).rest > 0 && Depth(p) < 2 * p.workers
    case StopSender(who) => SenderOf(p, who).Idle? && Cancelled(p)
    case Take(worker) => Free(p, worker) && 0 < Depth(p)
    case Finish(worker) => worker in p.tickets.running && p.tickets.running[worker] < |p.tickets.fate|
    case Quit(worker) => Free(p, worker) && p.closed && Depth(p) == 0
    case Cancel => p.main.Serving?
    case CoordinatorStops => Cancelled(p) && !p.coordinatorDone
    case PublisherStops => Cancelled(p) && !p.publisherDone
    case Advance =>
      match p.main
      case AwaitCoordinator => p.coordinatorDone
      case AwaitPublisher => p.publisherDone
      case AwaitConsumer => p.consumer.Stopped?
      case AwaitDispatcher => p.dispatcher.Stopped?
      case Draining => AllQuit(p)
      case _ => false
  }

  function Next(p: Process, s: Step): Process
    requires Enabled(p, s)
  {
    match s
    case BeginClaim(who) => Put(p, who, Claiming)
    case EndClaim(who, count) => Put(p, who, if count == 0 then Idle else Sending(count))
    case Send(who) =>
      var rest := SenderOf(p, who).rest - 1;
      Put(p, who, if rest == 0 then Idle else Sending(rest)).(tickets := Sent(p.tickets))
    case StopSender(who) => Put(p, who, Stopped)
    case Take(worker) => p.(tickets := Taken(p.tickets, worker))
    case Finish(worker) => p.(tickets := Finished(p.tickets, worker))
    case Quit(worker) => p.(quit := p.quit + {worker})
    case Cancel => p.(main := AwaitCoordinator)
    case CoordinatorStops => p.(coordinatorDone := true)
    case PublisherStops => p.(publisherDone := true)
    case Advance => Advanced(p)
  }

  /** Main's order: coordinator, publisher, consumer, dispatcher, and only then close the channel. */
  function Advanced(p: Process): Process {
    match p.main
    case AwaitCoordinator => p.(main := AwaitPublisher)
    case AwaitPublisher => p.(main := AwaitConsumer)
    case AwaitConsumer => p.(main := AwaitDispatcher)
    case AwaitDispatcher => p.(main := Draining, closed := true)
    case Draining => p.(main := Exited)
    case _ => p
  }

  // ---------------------------------------------------------------- the invariant

  /** The channel is closed only once both senders have stopped, and workers quit only after it is empty. */
  ghost predicate Order(p: Process) {
    && (p.closed <==> p.main.Draining? || p.main.Exited?)
    && (p.main.AwaitDispatcher? || p.closed ==> p.consumer.Stopped?)
    && (p.closed ==> p.dispatcher.Stopped?)
    && (p.dispatcher.Stopped? || p.consumer.Stopped? ==> Cancelled(p))
    && (p.main.AwaitPublisher? || p.main.AwaitConsumer? || p.main.AwaitDispatcher? || p.closed ==> p.coordinatorDone)
    && (p.main.AwaitConsumer? || p.main.AwaitDispatcher? || p.closed ==> p.publisherDone)
    && p.dispatcher != Sending(0) && p.consumer != Sending(0)
  }

  ghost predicate Workers(p: Process) {
    && (forall i :: i in p.tickets.running ==> i < p.workers && i !in p.quit)
    && (p.quit != {} ==> p.closed && Depth(p) == 0)
    && (p.main.Exited? ==> AllQuit(p))
    && Depth(p) <= 2 * p.workers
  }

  ghost predicate Inv(p: Process) {
    Exact(p.tickets) && Order(p) && Workers(p)
  }

  lemma NewInv(workers: nat)
    ensures Inv(New(workers))
  {
  }

  lemma KeepsExact(p: Process, s: Step)
    requires Exact(p.tickets) && Enabled(p, s)
    ensures Exact(Next(p, s).tickets)
  {
    match s
    case Take(worker) => TakeStaysExact(p.tickets, worker);
    case Finish(worker) => FinishStaysExact(p.tickets, worker);
    case _ =>
  }

  lemma KeepsOrder(p: Process, s: Step)
    requires Order(p) && Enabled(p, s)
    ensures Order(Next(p, s))
  {
  }

  lemma KeepsWorkers(p: Process, s: Step)
    requires Order(p) && Workers(p) && Enabled(p, s)
    ensures Workers(Next(p, s))
  {
  }

  lemma KeepsInv(p: Process, s: Step)
    requires Inv(p) && Enabled(p, s)
    ensures Inv(Next(p, s)) && Next(p, s).workers == p.workers
  {
    KeepsExact(p, s);
    KeepsOrder(p, s);
    KeepsWorkers(p, s);
  }

  // ---------------------------------------------------------------- progress of the drain

  function Weight(s: Sender): nat {
    match s
    case Idle => 1
    case Claiming => 2
    case Sending(rest) => 4 * rest + 2
    case Stopped => 0
  }

  function Stage(m: Main): nat {
    match m
    case Serving => 7
    case AwaitCoordinator => 6
    case AwaitPublisher => 5
    case AwaitConsumer => 4
    case AwaitDispatcher => 3
    case Draining => 2
    case Exited => 1
  }

  function InFlight(p: Process): nat {
    (if p.dispatcher.Claiming? then 1 else 0) + (if p.consumer.Claiming? then 1 else 0)
  }

  function Remaining(workers: nat, quit: set<nat>): set<nat> {
    set i | 0 <= i < workers && i !in quit
  }

  /** Unsent, queued and executing envelopes, and the parties still to stop. */
  function Work(p: Process): int {
    Weight(p.dispatcher) + Weight(p.consumer) + 2 * Depth(p) + |p.tickets.running.Keys|
    + |Remaining(p.workers, p.quit)| + Stage(p.main)
    + (if p.coordinatorDone then 0 else 1) + (if p.publisherDone then 0 else 1)
  }

  ghost predicate Shrinks(p: Process, q: Process) {
    InFlight(q) < InFlight(p) || (InFlight(q) == InFlight(p) && Work(q) < Work(p))
  }

  lemma WorkerStepShrinks(p: Process, s: Step)
    requires Enabled(p, s) && (s.Take? || s.Finish? || s.Quit?)
    ensures Shrinks(p, Next(p, s))
  {
    match s
    case Take(worker) =>
      assert Taken(p.tickets, worker).running.Keys == p.tickets.running.Keys + {worker};
    case Finish(worker) =>
      assert Finished(p.tickets, worker).running.Keys == p.tickets.running.Keys - {worker};
    case Quit(worker) =>
      assert worker in Remaining(p.workers, p.quit);
      assert Remaining(p.workers, p.quit + {worker}) == Remaining(p.workers, p.quit) - {worker};
    case _ =>
  }

  lemma SenderStepShrinks(p: Process, s: Step)
    requires Cancelled(p) && Enabled(p, s) && !s.Take? && !s.Finish? && !s.Quit? && !s.Advance?
    ensures Shrinks(p, Next(p, s))
  {
  }

  /** Once shutdown has begun every step makes progress: a claim in flight ends, or the work shrinks. */
  lemma StepShrinks(p: Process, s: Step)
    requires Inv(p) && Cancelled(p) && Enabled(p, s)
    ensures Cancelled(Next(p, s)) && Shrinks(p, Next(p, s)) && 0 <= Work(p)
  {
    match s
    case Take(_) => WorkerStepShrinks(p, s);
    case Finish(_) => WorkerStepShrinks(p, s);
    case Quit(_) => WorkerStepShrinks(p, s);
    case Advance => assert Stage(Advanced(p).main) < Stage(p.main);
    case _ => SenderStepShrinks(p, s);
  }

  /** And until main has exited some step is possible: blocked senders cannot deadlock the drain. */
  lemma NeverStuck(p: Process) returns (s: Step)
    requires Inv(p) && Cancelled(p) && !p.main.Exited? && 1 <= p.workers
    ensures Enabled(p, s)
  {
    if p.dispatcher.Claiming? {
      return EndClaim(Dispatcher, 0);
    } else if p.consumer.Claiming? {
      return EndClaim(Consumer, 0);
    } else if p.tickets.running.Keys != {} {
      var i :| i in p.tickets.running;
      return Finish(i);
    } else if 0 < Depth(p) {
      return Take(0);
    } else if p.dispatcher.Sending? {
      return Send(Dispatcher);
    } else if p.consumer.Sending? {
      return Send(Consumer);
    } else if p.dispatcher.Idle? {
      return StopSender(Dispatcher);
    } else if p.consumer.Idle? {
      return StopSender(Consumer);
    } else if !p.coordinatorDone {
      return CoordinatorStops;
    } else if !p.publisherDone {
      return PublisherStops;
    } else if p.main.Draining? && !AllQuit(p) {
      var i :| 0 <= i < p.workers && i !in p.quit;
      return Quit(i);
    } else {
      return Advance;
    }
  }

  // ---------------------------------------------------------------- over runs

  ghost predicate Run(p: Process, steps: seq<Step>, q: Process)
    decreases |steps|
  {
    if steps == [] then q == p
    else Enabled(p, steps[0]) && Run(Next(p, steps[0]), steps[1..], q)
  }

  lemma {:induction false} AlwaysInv(p: Process, steps: seq<Step>, q: Process)
    requires Inv(p) && Run(p, steps, q)
    ensures Inv(q) && q.workers == p.workers
    decreases |steps|
  {
    if steps != [] {
      KeepsInv(p, steps[0]);
      AlwaysInv(Next(p, steps[0]), steps[1..], q);
    }
  }

  /**
    In every run nothing is ever sent on the closed channel, the channel holds at most 2W envelopes,
    and once main has exited every envelope sent was processed exactly once and no worker is active.
   */
  lemma DrainIsExact(workers: nat, steps: seq<Step>, q: Process)
    requires 1 <= workers && Run(New(workers), steps, q)
    ensures q.closed ==> !q.dispatcher.Sending? && !q.consumer.Sending?
    ensures Depth(q) <= 2 * workers
    ensures q.main.Exited? ==>
              && q.tickets.processed == |q.tickets.fate| && q.tickets.running.Keys == {}
              && (forall i :: 0 <= i < |q.tickets.fate| ==> q.tickets.fate[i].Done?)
  {
    NewInv(workers);
    AlwaysInv(New(workers), steps, q);
    if q.main.Exited? {
      assert 0 in q.quit;
      assert q.tickets.running.Keys == {};
      QuietMeansDone(q.tickets);
    }
  }

  ghost predicate CanExit(p: Process) {
    exists steps, q :: Run(p, steps, q) && q.main.Exited?
  }

  lemma ExitAfterStep(p: Process, s: Step)
    requires Enabled(p, s) && CanExit(Next(p, s))
    ensures CanExit(p)
  {
    var steps, q :| Run(Next(p, s), steps, q) && q.main.Exited?;
    assert ([s] + steps)[1..] == steps;
    assert Run(p, [s] + steps, q);
  }

  /** From every state in shutdown the exit can be reached. */
  lemma {:induction false} DrainCompletes(p: Process)
    requires Inv(p) && Cancelled(p) && 1 <= p.workers
    ensures CanExit(p)
    decreases InFlight(p), Work(p)
  {
    if p.main.Exited? {
      assert Run(p, [], p);
    } else {
      var s := NeverStuck(p);
      KeepsInv(p, s);
      StepShrinks(p, s);
      DrainCompletes(Next(p, s));
      ExitAfterStep(p, s);
    }
  }

  ghost predicate Stuck(p: Process) {
    forall s :: !Enabled(p, s)
  }

  /** In shutdown nothing is possible exactly when main has exited. */
  lemma OnlyExitIsFinal(p: Process)
    requires Inv(p) && Cancelled(p) && 1 <= p.workers
    ensures p.main.Exited? <==> Stuck(p)
  {
    if p.main.Exited? {
      forall s
        ensures !Enabled(p, s)
      {
        NothingAfterExit(p, s);
      }
    } else {
      var s := NeverStuck(p);
    }
  }

  lemma NothingAfterExit(p: Process, s: Step)
    requires Inv(p) && p.main.Exited? && 1 <= p.workers
    ensures !Enabled(p, s)
  {
    assert 0 in p.quit;
    assert p.tickets.running.Keys == {};
  }

  /** An infinite schedule: at every moment some possible step is taken, as long as one is possible. */
  ghost predicate Scheduled(states: nat -> Process, acts: nat -> Step) {
    forall i: nat :: Goes(states(i), acts(i), states(i + 1))
  }

  ghost predicate Goes(p: Process, s: Step, q: Process) {
    (Enabled(p, s) && q == Next(p, s)) || (Stuck(p) && q == p)
  }

  /**
    No schedule avoids the exit: from any state in shutdown, whichever possible steps are taken in
    whichever order, main exits after finitely many of them.
   */
  lemma {:induction false} EveryScheduleExits(states: nat -> Process, acts: nat -> Step, i: nat) returns (j: nat)
    requires Scheduled(states, acts)
    requires Inv(states(i)) && Cancelled(states(i)) && 1 <= states(i).workers
    ensures i <= j && states(j).main.Exited?
    decreases InFlight(states(i)), Work(states(i))
  {
    if states(i).main.Exited? {
      return i;
    }
    OnlyExitIsFinal(states(i));
    assert Goes(states(i), acts(i), states(i + 1));
    KeepsInv(states(i), acts(i));
    StepShrinks(states(i), acts(i));
    j := EveryScheduleExits(states, acts, i + 1);
  }
}
