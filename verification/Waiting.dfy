/**
  How long a claimed envelope waits for a worker, in one process: W workers, a channel for 2W
  envelopes, and its two senders. The dispatcher sends a batch one by one, the consumer one envelope
  at a time; a send blocks while the channel is full, and blocked senders are served in the order in
  which they came. Handlers end within `limit`. Time passes only when nothing else can happen at once.
 */
module Waiting {
  import opened Wrappers
  import opened TaskTable

  /** A running handler: its envelope and how long it has run. */
  datatype Job = Job(ticket: nat, age: nat)

  datatype Who = Dispatcher | Consumer

  /** The senders that found the channel full, in the order in which they came. */
  datatype Blocked = NoOne | One(who: Who) | Both(first: Who)

  /**
    One slot for each worker; tickets name envelopes. `rest` are the dispatcher's unsent envelopes,
    `pending` is the consumer's.
   */
  datatype Pool = Pool(
    now: Time,
    slots: seq<Option<Job>>,
    queue: seq<nat>,
    rest: seq<nat>,
    pending: Option<nat>,
    blocked: Blocked,
    limit: nat,
    batch: nat)

  datatype Step =
    | Poll(mates: seq<nat>)
    | Fetch(ticket: nat)
    | Attempt(who: Who)
    | Start(worker: nat)
    | Finish(worker: nat)
    | Wait

  predicate AllBusy(slots: seq<Option<Job>>) {
    forall i :: 0 <= i < |slots| ==> slots[i].Some?
  }

  predicate Has(p: Pool, who: Who) {
    if who.Dispatcher? then p.rest != [] else p.pending.Some?
  }

  /** The sender has nothing to send, or has tried and is blocked. */
  predicate Settled(p: Pool, who: Who) {
    Has(p, who) ==> Waits(p.blocked, who)
  }

  predicate Waits(b: Blocked, who: Who) {
    b.Both? || b == One(who)
  }

  function First(b: Blocked): Option<Who> {
    match b
    case NoOne => None
    case One(who) => Some(who)
    case Both(first) => Some(first)
  }

  function Other(who: Who): Who {
    if who.Dispatcher? then Consumer else Dispatcher
  }

  function Joined(b: Blocked, who: Who): Blocked {
    if b.NoOne? then One(who) else Both(Other(who))
  }

  function Served(b: Blocked): Blocked {
    if b.Both? then One(Other(b.first)) else NoOne
  }

  /**
    A claim is a round trip to the database: before one returns, the other sender has tried to send
    what it has. `Poll` and `Fetch` are the returns.
   */
  predicate Enabled(p: Pool, s: Step) {
    match s
    case Poll(mates) => p.rest == [] && |mates| <= p.batch && Settled(p, Consumer)
    case Fetch(_) => p.pending.None? && Settled(p, Dispatcher)
    case Attempt(who) => !Settled(p, who)
    case Start(worker) => worker < |p.slots| && p.slots[worker].None? && p.queue != []
    case Finish(worker) => worker < |p.slots| && p.slots[worker].Some?
    case Wait =>
      && Settled(p, Dispatcher) && Settled(p, Consumer)
      && (p.queue != [] ==> AllBusy(p.slots))
      && (forall i :: 0 <= i < |p.slots| && p.slots[i].Some? ==> p.slots[i].value.age < p.limit)
  }

  function Older(slots: seq<Option<Job>>): (r: seq<Option<Job>>)
    ensures |r| == |slots|
    ensures forall i :: 0 <= i < |slots| ==>
              r[i] == if slots[i].Some? then Some(Job(slots[i].value.ticket, slots[i].value.age + 1)) else None
  {
    if slots == [] then []
    else [if slots[0].Some? then Some(Job(slots[0].value.ticket, slots[0].value.age + 1)) else None] + Older(slots[1..])
  }

  /** The channel takes the next envelope of the sender. */
  function Admitted(p: Pool, who: Who): Pool
    requires Has(p, who)
  {
    match who
    case Dispatcher => p.(queue := p.queue + [p.rest[0]], rest := p.rest[1..])
    case Consumer => p.(queue := p.queue + [p.pending.value], pending := None)
  }

  /** A worker takes the oldest envelope. */
  function Begun(p: Pool, worker: nat): Pool
    requires Enabled(p, Start(worker))
  {
    p.(slots := p.slots[worker := Some(Job(p.queue[0], 0))], queue := p.queue[1..])
  }

  /** The place that became free goes to the first blocked sender. */
  function Next(p: Pool, s: Step): Pool
    requires Enabled(p, s) && Channel(p)
  {
    match s
    case Poll(mates) => p.(rest := mates)
    case Fetch(ticket) => p.(pending := Some(ticket))
    case Attempt(who) => if |p.queue| < Room(p) then Admitted(p, who) else p.(blocked := Joined(p.blocked, who))
    case Start(worker) =>
      var d := Begun(p, worker);
      if p.blocked.NoOne? then d else Admitted(d.(blocked := Served(p.blocked)), First(p.blocked).value)
    case Finish(worker) => p.(slots := p.slots[worker := None])
    case Wait => p.(now := p.now + 1, slots := Older(p.slots))
  }

  function Room(p: Pool): nat {
    2 * |p.slots|
  }

  /** Senders are blocked only while the channel is full, and only with something to send. */
  predicate Channel(p: Pool) {
    && |p.queue| <= Room(p)
    && (!p.blocked.NoOne? ==> |p.queue| == Room(p))
    && (Waits(p.blocked, Dispatcher) ==> Has(p, Dispatcher))
    && (Waits(p.blocked, Consumer) ==> Has(p, Consumer))
  }

  ghost predicate Orderly(p: Pool) {
    && Channel(p)
    && 1 <= |p.slots| && |p.rest| <= p.batch
    && (forall i :: 0 <= i < |p.slots| && p.slots[i].Some? ==> p.slots[i].value.age <= p.limit)
  }

  lemma KeepsOrderly(p: Pool, s: Step)
    requires Orderly(p) && Enabled(p, s)
    ensures Orderly(Next(p, s))
    ensures Next(p, s).limit == p.limit && |Next(p, s).slots| == |p.slots| && Next(p, s).batch == p.batch
  {
  }

  // ---------------------------------------------------------------- work ahead

  /** Handler time the running envelopes may still use. */
  function Left(slots: seq<Option<Job>>, limit: nat): int {
    if slots == [] then 0
    else (if slots[0].Some? then limit - slots[0].value.age else 0) + Left(slots[1..], limit)
  }

  function Busy(slots: seq<Option<Job>>): nat {
    if slots == [] then 0 else (if slots[0].Some? then 1 else 0) + Busy(slots[1..])
  }

  lemma {:induction false} LeftUpdates(slots: seq<Option<Job>>, limit: nat, i: nat, v: Option<Job>)
    requires i < |slots|
    ensures Left(slots[i := v], limit) ==
            Left(slots, limit) - (if slots[i].Some? then limit - slots[i].value.age else 0)
            + (if v.Some? then limit - v.value.age else 0)
  {
    if i > 0 {
      LeftUpdates(slots[1..], limit, i - 1, v);
      assert slots[i := v][1..] == slots[1..][i - 1 := v];
    } else {
      assert slots[i := v][1..] == slots[1..];
    }
  }

  lemma {:induction false} LeftAges(slots: seq<Option<Job>>, limit: nat)
    ensures Left(Older(slots), limit) == Left(slots, limit) - Busy(slots)
  {
    if slots != [] {
      LeftAges(slots[1..], limit);
      assert Older(slots)[1..] == Older(slots[1..]);
    }
  }

  lemma {:induction false} AllBusyCount(slots: seq<Option<Job>>)
    requires AllBusy(slots)
    ensures Busy(slots) == |slots|
  {
    if slots != [] {
      AllBusyCount(slots[1..]);
    }
  }

  lemma {:induction false} LeftBounds(slots: seq<Option<Job>>, limit: nat)
    requires forall i :: 0 <= i < |slots| && slots[i].Some? ==> slots[i].value.age <= limit
    ensures 0 <= Left(slots, limit) <= Busy(slots) * limit
  {
    if slots != [] {
      LeftBounds(slots[1..], limit);
      var rest := Busy(slots[1..]);
      assert (rest + 1) * limit == rest * limit + limit;
    }
  }

  // ---------------------------------------------------------------- watching one envelope

  datatype Place = Unsent(mates: nat) | AtConsumer | Queued(index: nat) | OnWorker(worker: nat) | Ended

  /** An envelope claimed at `since`, and how many envelopes at most are to start before it, fixed at its claim. */
  datatype Watch = Watch(ticket: nat, since: Time, budget: nat, place: Place)

  /** Everything between a new envelope and the workers: running, queued, held by the other sender, and its mates. */
  function AheadAtClaim(p: Pool, s: Step, j: nat): nat {
    Busy(p.slots) + |p.queue| + if s.Poll? then (if p.pending.Some? then 1 else 0) + j else |p.rest|
  }

  /** Later envelopes of the consumer that can slip in: one before each mate that is sent first. */
  function Slips(s: Step, j: nat): nat {
    if s.Poll? then j else 0
  }

  /** Envelope `j` of the batch, or the consumer's envelope. */
  predicate Claims(s: Step, j: nat) {
    match s
    case Poll(mates) => j < |mates|
    case Fetch(_) => j == 0
    case _ => false
  }

  function Noticed(p: Pool, s: Step, j: nat): Watch
    requires Claims(s, j)
  {
    Watch(if s.Poll? then s.mates[j] else s.ticket, p.now, AheadAtClaim(p, s, j) + Slips(s, j),
          if s.Poll? then Unsent(j) else AtConsumer)
  }

  /** The sender whose envelope a step admits to the channel, if any. */
  function Admits(p: Pool, s: Step): Option<Who> {
    match s
    case Attempt(who) => if |p.queue| < Room(p) then Some(who) else None
    case Start(_) => First(p.blocked)
    case _ => None
  }

  function Moved(p: Pool, s: Step, place: Place): Place
    requires Enabled(p, s) && Channel(p)
  {
    var last := |Next(p, s).queue| - 1;
    match place
    case Unsent(mates) =>
      if Admits(p, s) != Some(Dispatcher) then place else if mates == 0 && 0 <= last then Queued(last)
      else if mates == 0 then Ended else Unsent(mates - 1)
    case AtConsumer => if Admits(p, s) == Some(Consumer) && 0 <= last then Queued(last) else place
    case Queued(index) =>
      if !s.Start? then place else if index == 0 then OnWorker(s.worker) else Queued(index - 1)
    case OnWorker(worker) => if s == Finish(worker) then Ended else place
    case Ended => place
  }

  /** The envelope is where its watch says. */
  predicate InPlace(p: Pool, w: Watch) {
    match w.place
    case Unsent(mates) => mates < |p.rest| && p.rest[mates] == w.ticket
    case AtConsumer => p.pending == Some(w.ticket)
    case Queued(index) => index < |p.queue| && p.queue[index] == w.ticket
    case OnWorker(worker) => worker < |p.slots| && p.slots[worker].Some? && p.slots[worker].value.ticket == w.ticket
    case Ended => true
  }

  lemma StaysInPlace(p: Pool, s: Step, w: Watch)
    requires Orderly(p) && Enabled(p, s) && InPlace(p, w)
    ensures InPlace(Next(p, s), w.(place := Moved(p, s, w.place)))
  {
  }

  predicate DispatcherFirst(p: Pool) {
    First(p.blocked) == Some(Dispatcher)
  }

  /** Envelopes that can still start before the one at `place`. */
  function Ahead(p: Pool, place: Place): nat {
    match place
    case Unsent(mates) => |p.queue| + 2 * mates + if p.pending.Some? && !DispatcherFirst(p) then 1 else 0
    case AtConsumer => |p.queue| + if !Waits(p.blocked, Consumer) then |p.rest| else if DispatcherFirst(p) then 1 else 0
    case Queued(index) => index
    case _ => 0
  }

  /** No step adds to the envelopes ahead, and a start takes one away. */
  lemma AheadShrinks(p: Pool, s: Step, w: Watch)
    requires Orderly(p) && Enabled(p, s) && InPlace(p, w) && !w.place.OnWorker? && !w.place.Ended?
    ensures var place := Moved(p, s, w.place);
            if s.Start? then place.OnWorker? || Ahead(Next(p, s), place) + 1 <= Ahead(p, w.place)
            else Ahead(Next(p, s), place) <= Ahead(p, w.place) && !place.OnWorker?
    ensures Moved(p, s, w.place) != Ended
  {
  }

  ghost predicate OnTime(p: Pool, w: Watch) {
    match w.place
    case OnWorker(worker) =>
      worker < |p.slots| && p.slots[worker].Some?
      && |p.slots| * (p.now - p.slots[worker].value.age - w.since) <= w.budget * p.limit
    case Ended => true
    case _ => |p.slots| * (p.now - w.since) + Left(p.slots, p.limit) + Ahead(p, w.place) * p.limit <= w.budget * p.limit
  }

  lemma MulMono(a: int, b: int, n: nat)
    requires a <= b
    ensures n * a <= n * b && a * n <= b * n
  {
    assert n * b == n * a + n * (b - a);
    assert b * n == a * n + (b - a) * n;
  }

  lemma NoticedAhead(p: Pool, s: Step, j: nat)
    requires Orderly(p) && Enabled(p, s) && Claims(s, j)
    ensures var q, w := Next(p, s), Noticed(p, s, j);
            InPlace(q, w) && Busy(p.slots) + Ahead(q, w.place) <= w.budget && q.slots == p.slots && q.now == w.since
  {
  }

  lemma NoticedOnTime(p: Pool, s: Step, j: nat)
    requires Orderly(p) && Enabled(p, s) && Claims(s, j)
    ensures OnTime(Next(p, s), Noticed(p, s, j)) && InPlace(Next(p, s), Noticed(p, s, j))
  {
    var w := Noticed(p, s, j);
    NoticedAhead(p, s, j);
    LeftBounds(p.slots, p.limit);
    SpendsWithin(Busy(p.slots), Ahead(Next(p, s), w.place), w.budget, p.limit);
  }

  lemma SpendsWithin(busy: nat, ahead: nat, budget: nat, limit: nat)
    requires busy + ahead <= budget
    ensures busy * limit + ahead * limit <= budget * limit
  {
    MulMono(busy + ahead, budget, limit);
    assert (busy + ahead) * limit == busy * limit + ahead * limit;
  }

  /** An envelope that starts takes its handler time from the envelopes ahead. */
  lemma WorkShrinks(before: nat, after: nat, started: nat, limit: nat)
    requires after + started <= before
    ensures after * limit + started * limit <= before * limit
  {
    SpendsWithin(after, started, before, limit);
  }

  /** Handler time left, after a step that is not the passing of time. */
  lemma LeftMoves(p: Pool, s: Step)
    requires Orderly(p) && Enabled(p, s) && !s.Wait?
    ensures Left(Next(p, s).slots, p.limit) <= Left(p.slots, p.limit) + if s.Start? then p.limit else 0
    ensures 0 <= Left(p.slots, p.limit)
  {
    LeftBounds(p.slots, p.limit);
    match s
    case Start(worker) => LeftUpdates(p.slots, p.limit, worker, Some(Job(p.queue[0], 0)));
    case Finish(worker) => LeftUpdates(p.slots, p.limit, worker, None);
    case _ =>
  }

  lemma StepOnTime(p: Pool, s: Step, w: Watch)
    requires Orderly(p) && Enabled(p, s) && InPlace(p, w) && OnTime(p, w) && !s.Wait?
    requires !w.place.OnWorker? && !w.place.Ended?
    ensures OnTime(Next(p, s), w.(place := Moved(p, s, w.place)))
  {
    var place := Moved(p, s, w.place);
    AheadShrinks(p, s, w);
    LeftMoves(p, s);
    WorkShrinks(Ahead(p, w.place), 0, 0, p.limit);
    if !place.OnWorker? {
      WorkShrinks(Ahead(p, w.place), Ahead(Next(p, s), place), if s.Start? then 1 else 0, p.limit);
    }
  }

  /** While it waits all workers are busy, so each unit of time uses up W units of the work ahead. */
  lemma WaitOnTime(p: Pool, w: Watch)
    requires Orderly(p) && Enabled(p, Wait) && InPlace(p, w) && OnTime(p, w)
    requires !w.place.OnWorker? && !w.place.Ended?
    ensures OnTime(Next(p, Wait), w)
  {
    assert p.queue != [];
    LeftAges(p.slots, p.limit);
    AllBusyCount(p.slots);
    var n, t := |p.slots|, p.now - w.since;
    assert n * (t + 1) == n * t + n;
  }

  lemma KeepsOnTime(p: Pool, s: Step, w: Watch)
    requires Orderly(p) && Enabled(p, s) && InPlace(p, w) && OnTime(p, w)
    ensures OnTime(Next(p, s), w.(place := Moved(p, s, w.place)))
  {
    if !w.place.OnWorker? && !w.place.Ended? {
      if s.Wait? {
        WaitOnTime(p, w);
        assert w.(place := Moved(p, s, w.place)) == w;
      } else {
        StepOnTime(p, s, w);
      }
    }
  }

  // ---------------------------------------------------------------- over runs

  ghost predicate Run(p: Pool, w: Watch, steps: seq<Step>, q: Pool, v: Watch)
    decreases |steps|
  {
    if steps == [] then q == p && v == w
    else
      && Channel(p) && Enabled(p, steps[0])
      && Run(Next(p, steps[0]), w.(place := Moved(p, steps[0], w.place)), steps[1..], q, v)
  }

  lemma {:induction false} AlwaysOnTime(p: Pool, w: Watch, steps: seq<Step>, q: Pool, v: Watch)
    requires Orderly(p) && InPlace(p, w) && OnTime(p, w) && Run(p, w, steps, q, v)
    ensures Orderly(q) && InPlace(q, v) && OnTime(q, v)
    ensures q.limit == p.limit && |q.slots| == |p.slots| && q.batch == p.batch
    ensures v.since == w.since && v.budget == w.budget && v.ticket == w.ticket
    decreases |steps|
  {
    if steps != [] {
      var next := w.(place := Moved(p, steps[0], w.place));
      KeepsOrderly(p, steps[0]);
      StaysInPlace(p, steps[0], w);
      KeepsOnTime(p, steps[0], w);
      AlwaysOnTime(Next(p, steps[0]), next, steps[1..], q, v);
    }
  }

  /** The envelope claimed by step `s`, followed through a run that begins with that step. */
  ghost predicate Follows(p: Pool, s: Step, j: nat, steps: seq<Step>, q: Pool, v: Watch) {
    Channel(p) && Enabled(p, s) && Claims(s, j) && Run(Next(p, s), Noticed(p, s, j), steps, q, v)
  }

  lemma Extend(n: nat, start: int, age: nat, limit: nat, work: int)
    requires n * start <= work && age <= limit
    ensures n * (start + age) <= work + n * limit
  {
    assert n * (start + age) == n * start + n * age;
    MulMono(age, limit, n);
  }

  /**
    An envelope with n envelopes ahead of it at its claim, j of them mates of its batch, starts within
    (n + j) * limit / W, whatever is claimed later; and its handler has ended a further `limit` later.
   */
  lemma WaitingBound(p: Pool, s: Step, j: nat, steps: seq<Step>, q: Pool, v: Watch)
    requires Orderly(p) && Follows(p, s, j, steps, q, v)
    ensures InPlace(q, v) && v.ticket == if s.Poll? then s.mates[j] else s.ticket
    ensures var work := (AheadAtClaim(p, s, j) + Slips(s, j)) * p.limit;
            match v.place
            case Ended => true
            case OnWorker(worker) =>
              && |p.slots| * (q.now - q.slots[worker].value.age - p.now) <= work
              && |p.slots| * (q.now - p.now) <= work + |p.slots| * p.limit
            case _ => |p.slots| * (q.now - p.now) <= work
  {
    NoticedOnTime(p, s, j);
    KeepsOrderly(p, s);
    AlwaysOnTime(Next(p, s), Noticed(p, s, j), steps, q, v);
    LeftBounds(q.slots, q.limit);
    match v.place
    case Ended =>
    case OnWorker(worker) =>
      var age := q.slots[worker].value.age;
      Extend(|p.slots|, q.now - age - p.now, age, p.limit, v.budget * p.limit);
    case _ => MulMono(0, Ahead(q, v.place), p.limit);
  }

  /**
    The most that can be ahead at a claim, slips included: W running, 2W queued, one of the consumer,
    and the batch twice.
   */
  function MostAhead(workers: nat, batch: nat): nat {
    3 * workers + if batch == 0 then 0 else 2 * batch - 1
  }

  lemma {:induction false} BusyBound(slots: seq<Option<Job>>)
    ensures Busy(slots) <= |slots|
  {
    if slots != [] {
      BusyBound(slots[1..]);
    }
  }

  lemma ClaimBudget(p: Pool, s: Step, j: nat)
    requires Orderly(p) && Enabled(p, s) && Claims(s, j)
    ensures AheadAtClaim(p, s, j) + Slips(s, j) <= MostAhead(|p.slots|, p.batch)
  {
    BusyBound(p.slots);
  }

  lemma BelowAge(n: nat, elapsed: int, lag: nat, limit: nat, work: int, age: nat)
    requires n * elapsed <= work + n * limit && work + n * (limit + lag) < n * age
    ensures elapsed + lag < age
  {
    assert n * (limit + lag) == n * limit + n * lag;
    assert n * (elapsed + lag) == n * elapsed + n * lag;
    if age <= elapsed + lag {
      MulMono(age, elapsed + lag, n);
      assert false;
    }
  }

  /** A stale age that no live envelope can reach: the most work ahead, one handler, and the claim's own duration. */
  predicate AgeSuffices(workers: nat, batch: nat, limit: nat, lag: nat, age: nat) {
    MostAhead(workers, batch) * limit + workers * (limit + lag) < workers * age
  }

  /**
    Then UnlockStaleTasks never resets a task before its handler has returned: not in any state, not
    for any traffic. `lag` is the time from the lock, which is the start of the claim, to its return.
   */
  lemma NeverStaleWhileLive(p: Pool, s: Step, j: nat, steps: seq<Step>, q: Pool, v: Watch,
                            tasks: Tasks, id: TaskId, at: Time, lag: nat, age: nat)
    requires Orderly(p) && Follows(p, s, j, steps, q, v) && !v.place.Ended?
    requires AgeSuffices(|p.slots|, p.batch, p.limit, lag, age)
    requires id in tasks && tasks[id].lockedAt.Some? && p.now - lag <= tasks[id].lockedAt.value && at <= q.now
    ensures id !in StaleRows(tasks, at, age)
  {
    var work := (AheadAtClaim(p, s, j) + Slips(s, j)) * p.limit;
    WaitingBound(p, s, j, steps, q, v);
    ClaimBudget(p, s, j);
    MulMono(AheadAtClaim(p, s, j) + Slips(s, j), MostAhead(|p.slots|, p.batch), p.limit);
    MulMono(0, p.limit, |p.slots|);
    BelowAge(|p.slots|, q.now - p.now, lag, p.limit, work, age);
  }

  // ---------------------------------------------------------------- as an invariant

  /** The envelope is where its watch says, on time, and within the budget of any claim. */
  ghost predicate Tracked(p: Pool, w: Watch) {
    InPlace(p, w) && OnTime(p, w) && w.budget <= MostAhead(|p.slots|, p.batch)
  }

  function Follow(p: Pool, s: Step, w: Watch): Watch
    requires Enabled(p, s) && Channel(p)
  {
    w.(place := Moved(p, s, w.place))
  }

  lemma NoticedTracked(p: Pool, s: Step, j: nat)
    requires Orderly(p) && Enabled(p, s) && Claims(s, j)
    ensures Tracked(Next(p, s), Noticed(p, s, j))
  {
    KeepsOrderly(p, s);
    NoticedOnTime(p, s, j);
    ClaimBudget(p, s, j);
  }

  lemma KeepsTracked(p: Pool, s: Step, w: Watch)
    requires Orderly(p) && Enabled(p, s) && Tracked(p, w)
    ensures Tracked(Next(p, s), Follow(p, s, w))
  {
    KeepsOrderly(p, s);
    StaysInPlace(p, s, w);
    KeepsOnTime(p, s, w);
  }

  lemma Elapsed(p: Pool, w: Watch)
    requires Orderly(p) && InPlace(p, w) && OnTime(p, w) && !w.place.Ended?
    ensures |p.slots| * (p.now - w.since) <= w.budget * p.limit + |p.slots| * p.limit
  {
    LeftBounds(p.slots, p.limit);
    MulMono(0, p.limit, |p.slots|);
    match w.place
    case OnWorker(worker) =>
      var age := p.slots[worker].value.age;
      Extend(|p.slots|, p.now - age - w.since, age, p.limit, w.budget * p.limit);
    case _ => MulMono(0, Ahead(p, w.place), p.limit);
  }

  /** An envelope that has not ended was claimed less than the stale age ago, its claim's duration included. */
  lemma TrackedIsYoung(p: Pool, w: Watch, lag: nat, age: nat)
    requires Orderly(p) && Tracked(p, w) && !w.place.Ended?
    requires AgeSuffices(|p.slots|, p.batch, p.limit, lag, age)
    ensures p.now - w.since + lag < age
  {
    Elapsed(p, w);
    MulMono(w.budget, MostAhead(|p.slots|, p.batch), p.limit);
    BelowAge(|p.slots|, p.now - w.since, lag, p.limit, w.budget * p.limit, age);
  }

  const SECOND: nat := 1_000_000_000

  /**
    With the defaults (5 workers, batch 10, 30 s handlers, 5 min stale age) that is so exactly for
    claims under 66 s.
   */
  lemma DefaultsSuffice(lag: nat)
    ensures AgeSuffices(5, 10, 30 * SECOND, lag, 300 * SECOND) <==> lag < 66 * SECOND
  {
  }

  lemma DefaultsNeverStale(p: Pool, s: Step, j: nat, steps: seq<Step>, q: Pool, v: Watch,
                           tasks: Tasks, id: TaskId, at: Time)
    requires |p.slots| == 5 && p.batch == 10 && p.limit == 30 * SECOND
    requires Orderly(p) && Follows(p, s, j, steps, q, v) && !v.place.Ended?
    requires id in tasks && tasks[id].lockedAt.Some? && p.now - 66 * SECOND < tasks[id].lockedAt.value && at <= q.now
    ensures id !in StaleRows(tasks, at, 300 * SECOND)
  {
    DefaultsSuffice(66 * SECOND - 1);
    NeverStaleWhileLive(p, s, j, steps, q, v, tasks, id, at, 66 * SECOND - 1, 300 * SECOND);
  }

  /** Counted in envelopes: up to 44 ahead, slips included, meet the stale age, and no more. */
  lemma DefaultsAllow44(ahead: nat)
    ensures ahead <= 44 <==> ahead * (30 * SECOND) + 5 * (30 * SECOND) < 5 * (300 * SECOND)
    ensures MostAhead(5, 10) == 34
  {
  }
}
