/**
  The worker pool: a bounded FIFO channel feeding W workers. Tickets number the envelopes in the
  order the channel accepted them, and every ticket has one fate: waiting, with a worker, done.
 */
module Pool {

  datatype Fate = Waiting | With(worker: nat) | Done

  /** The first `taken` tickets have left the channel; `running` maps a worker to its ticket. */
  datatype Tickets = Tickets(taken: nat, fate: seq<Fate>, running: map<nat, nat>, processed: nat)

  const NO_TICKETS := Tickets(0, [], map[], 0)

  function Sent(t: Tickets): Tickets {
    t.(fate := t.fate + [Waiting])
  }

  /** `worker` receives the oldest envelope of the channel. */
  function Taken(t: Tickets, worker: nat): Tickets
    requires t.taken < |t.fate|
  {
    t.(taken := t.taken + 1, fate := t.fate[t.taken := With(worker)], running := t.running[worker := t.taken])
  }

  function Ended(fate: seq<Fate>, ticket: nat): seq<Fate> {
    if ticket < |fate| then fate[ticket := Done] else fate
  }

  function Finished(t: Tickets, worker: nat): Tickets
    requires worker in t.running
  {
    t.(fate := Ended(t.fate, t.running[worker]), running := t.running - {worker}, processed := t.processed + 1)
  }

  /** Exactly the tickets still in the channel wait, and a worker has the ticket that it is recorded with. */
  ghost predicate Placed(t: Tickets) {
    && t.taken <= |t.fate|
    && (forall i :: 0 <= i < |t.fate| ==> (t.fate[i].Waiting? <==> t.taken <= i))
    && (forall w {:trigger w in t.running} :: w in t.running ==>
          t.running[w] < |t.fate| && t.fate[t.running[w]] == With(w))
    && (forall i :: 0 <= i < |t.fate| && t.fate[i].With? ==>
          t.fate[i].worker in t.running && t.running[t.fate[i].worker] == i)
  }

  ghost predicate Exact(t: Tickets) {
    Placed(t) && t.processed + |t.running.Keys| == t.taken
  }

  lemma TakeStaysExact(t: Tickets, worker: nat)
    requires Exact(t) && worker !in t.running && t.taken < |t.fate|
    ensures Exact(Taken(t, worker))
  {
    assert Taken(t, worker).running.Keys == t.running.Keys + {worker};
  }

  lemma FinishStaysExact(t: Tickets, worker: nat)
    requires Exact(t) && worker in t.running
    ensures Exact(Finished(t, worker))
  {
    assert Finished(t, worker).running.Keys == t.running.Keys - {worker};
  }

  /** No ticket goes back: what is done stays done, and a worker's ticket only gets done. */
  lemma FatesOnlyAdvance(t: Tickets, worker: nat, i: nat)
    requires Exact(t) && i < |t.fate|
    ensures Sent(t).fate[i] == t.fate[i]
    ensures worker !in t.running && t.taken < |t.fate| ==>
              Taken(t, worker).fate[i] == if i == t.taken then With(worker) else t.fate[i]
    ensures worker in t.running ==>
              Finished(t, worker).fate[i] == if t.fate[i] == With(worker) then Done else t.fate[i]
  {
  }

  /** When the channel is empty and no worker is active, everything sent has been processed, once. */
  lemma QuietMeansDone(t: Tickets)
    requires Exact(t) && t.taken == |t.fate| && t.running.Keys == {}
    ensures t.processed == |t.fate| && (forall i :: 0 <= i < |t.fate| ==> t.fate[i].Done?)
  {
  }

  // ---------------------------------------------------------------- tickets and envelopes

  /** The channel's contents and the workers' hands, as the tickets tell them. */
  ghost predicate Describes<E>(t: Tickets, accepted: seq<E>, queue: seq<E>, held: map<nat, E>) {
    && t.taken <= |t.fate| == |accepted|
    && queue == accepted[t.taken..]
    && held.Keys == t.running.Keys
    && (forall w :: w in held ==> t.running[w] < |accepted| && held[w] == accepted[t.running[w]])
  }

  /** The tickets are in order and tell the contents of a channel of capacity `room` and of the workers' hands. */
  ghost predicate Accounts<E>(t: Tickets, accepted: seq<E>, queue: seq<E>, held: map<nat, E>, room: nat) {
    Exact(t) && Describes(t, accepted, queue, held) && |queue| <= room
  }

  lemma SendAccounts<E>(t: Tickets, accepted: seq<E>, queue: seq<E>, held: map<nat, E>, room: nat, e: E)
    requires Accounts(t, accepted, queue, held, room) && |queue| < room
    ensures Accounts(Sent(t), accepted + [e], queue + [e], held, room)
  {
    assert Exact(Sent(t));
  }

  lemma ReceiveAccounts<E>(t: Tickets, accepted: seq<E>, queue: seq<E>, held: map<nat, E>, room: nat, worker: nat)
    requires Accounts(t, accepted, queue, held, room) && worker !in held && queue != []
    ensures t.taken < |t.fate|
    ensures Accounts(Taken(t, worker), accepted, queue[1..], held[worker := queue[0]], room)
    ensures |held[worker := queue[0]].Keys| == |held.Keys| + 1
  {
    TakeStaysExact(t, worker);
    ReceiveDescribes(t, accepted, queue, held, worker);
  }

  lemma ReceiveDescribes<E>(t: Tickets, accepted: seq<E>, queue: seq<E>, held: map<nat, E>, worker: nat)
    requires Describes(t, accepted, queue, held) && worker !in held && queue != []
    ensures Describes(Taken(t, worker), accepted, queue[1..], held[worker := queue[0]])
    ensures |held[worker := queue[0]].Keys| == |held.Keys| + 1
  {
    assert held[worker := queue[0]].Keys == held.Keys + {worker};
  }

  lemma FinishAccounts<E>(t: Tickets, accepted: seq<E>, queue: seq<E>, held: map<nat, E>, room: nat, worker: nat)
    requires Accounts(t, accepted, queue, held, room) && worker in held
    ensures worker in t.running && t.running[worker] < |t.fate|
    ensures Accounts(Finished(t, worker), accepted, queue, held - {worker}, room)
    ensures |(held - {worker}).Keys| == |held.Keys| - 1
  {
    FinishStaysExact(t, worker);
    assert (held - {worker}).Keys == held.Keys - {worker};
  }

  /** The pool object. `held` is what each worker's loop body has in hand. */
  class WorkerPool<E(==)> {
    const workerCount: nat
    var queue: seq<E>
    var held: map<nat, E>
    var closed: bool
    var active: nat
    var processed: nat
    ghost var accepted: seq<E>
    ghost var tickets: Tickets

    ghost predicate Valid()
      reads this
    {
      && Accounts(tickets, accepted, queue, held, 2 * workerCount)
      && (forall w :: w in held ==> w < workerCount)
      && active == |held.Keys|
      && processed == tickets.processed
    }

    constructor (workerCount: nat)
      ensures Valid() && this.workerCount == workerCount
      ensures accepted == [] && queue == [] && !closed && tickets == NO_TICKETS
    {
      this.workerCount := workerCount;
      queue, held, closed, active, processed := [], map[], false, 0, 0;
      accepted, tickets := [], NO_TICKETS;
    }

    /** A send that does not block: the channel is open and has room. */
    method Send(e: E)
      requires Valid() && !closed && |queue| < 2 * workerCount
      modifies this`queue, this`accepted, this`tickets
      ensures Valid() && tickets == Sent(old(tickets))
      ensures queue == old(queue) + [e] && accepted == old(accepted) + [e]
    {
      SendAccounts(tickets, accepted, queue, held, 2 * workerCount, e);
      queue := queue + [e];
      accepted := accepted + [e];
      tickets := Sent(tickets);
    }

    /** A worker's receive and the start of its loop body. Envelopes leave in the order they came. */
    method Receive(worker: nat) returns (e: E)
      requires Valid() && worker < workerCount && worker !in held && queue != []
      modifies this`queue, this`held, this`active, this`tickets
      ensures Valid() && old(tickets).taken < |old(tickets).fate| && tickets == Taken(old(tickets), worker)
      ensures e == old(queue)[0] && queue == old(queue)[1..]
      ensures active == old(active) + 1 && held == old(held)[worker := e]
    {
      e := queue[0];
      ReceiveAccounts(tickets, accepted, queue, held, 2 * workerCount, worker);
      queue, held, tickets := queue[1..], held[worker := e], Taken(tickets, worker);
      active := active + 1;
    }

    /** The end of a worker's loop body. */
    method Finish(worker: nat)
      requires Valid() && worker in held
      modifies this`held, this`active, this`processed, this`tickets
      ensures worker in old(tickets).running
      ensures Valid() && tickets == Finished(old(tickets), worker)
      ensures active == old(active) - 1 && processed == old(processed) + 1 && held == old(held) - {worker}
    {
      FinishAccounts(tickets, accepted, queue, held, 2 * workerCount, worker);
      ghost var after := Finished(tickets, worker);
      held := held - {worker};
      active := active - 1;
      processed := processed + 1;
      tickets := after;
    }

    /** The first half of Stop. */
    method Close()
      requires Valid() && !closed
      modifies this`closed
      ensures Valid() && closed
    {
      closed := true;
    }

    /** The second half: every loop has ended exactly when the channel is drained and no worker is busy. */
    method Drained() returns (quiet: bool)
      requires Valid()
      ensures quiet <==> queue == [] && held.Keys == {}
      ensures quiet ==> processed == |accepted| && active == 0
    {
      quiet := queue == [] && held.Keys == {};
      if quiet {
        assert |queue| == 0;
        QuietMeansDone(tickets);
      }
    }
  }
}
