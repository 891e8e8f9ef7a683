/** Why the mates of a batch count twice in the waiting bound: with one worker, a run uses up the whole budget. */
module Tightness {
  import opened Wrappers
  import opened Waiting

  lemma {:induction false} Joins(p: Pool, w: Watch, first: seq<Step>, q: Pool, v: Watch, second: seq<Step>,
                                 r: Pool, u: Watch)
    requires Run(p, w, first, q, v) && Run(q, v, second, r, u)
    ensures Run(p, w, first + second, r, u)
    decreases |first|
  {
    if first == [] {
      assert first + second == second;
    } else {
      assert (first + second)[0] == first[0] && (first + second)[1..] == first[1..] + second;
      Joins(Next(p, first[0]), w.(place := Moved(p, first[0], w.place)), first[1..], q, v, second, r, u);
    }
  }

  lemma Steps(p: Pool, w: Watch, s: Step)
    requires Channel(p) && Enabled(p, s)
    ensures Run(p, w, [s], Next(p, s), w.(place := Moved(p, s, w.place)))
  {
    var q, v := Next(p, s), w.(place := Moved(p, s, w.place));
    assert [s][0] == s && [s][1..] == [];
    assert Run(q, v, [], q, v);
  }

  /** One worker, busy with an envelope that it has just taken, handlers of one unit, and a full channel. */
  ghost predicate Full(p: Pool) {
    && Orderly(p) && p.limit == 1 && |p.slots| == 1 && p.slots[0].Some? && p.slots[0].value.age == 0 && |p.queue| == 2
    && Settled(p, Dispatcher) && Settled(p, Consumer)
  }

  /** The worker ends its handler and takes the next envelope; the first blocked sender gets the place. */
  function Beaten(p: Pool): Pool
    requires |p.queue| > 0 && (p.blocked.NoOne? || Has(p, First(p.blocked).value))
  {
    var d := p.(now := p.now + 1, slots := [Some(Job(p.queue[0], 0))], queue := p.queue[1..]);
    if p.blocked.NoOne? then d else Admitted(d.(blocked := Served(p.blocked)), First(p.blocked).value)
  }

  /** Where the beat moves an envelope that is not on the worker. */
  function BeatMoves(p: Pool, place: Place): Place {
    match place
    case Unsent(mates) =>
      if First(p.blocked) != Some(Dispatcher) then place else if mates == 0 then Queued(1) else Unsent(mates - 1)
    case Queued(index) => if index == 0 then OnWorker(0) else Queued(index - 1)
    case _ => place
  }

  lemma Beats(p: Pool, w: Watch) returns (steps: seq<Step>)
    requires Full(p) && (w.place.Unsent? || w.place.Queued?)
    ensures (p.blocked.NoOne? || Has(p, First(p.blocked).value))
    ensures Run(p, w, steps, Beaten(p), w.(place := BeatMoves(p, w.place)))
    ensures Orderly(Beaten(p))
  {
    var a := Next(p, Wait);
    KeepsOrderly(p, Wait);
    Steps(p, w, Wait);
    var b := Next(a, Finish(0));
    KeepsOrderly(a, Finish(0));
    Steps(a, w, Finish(0));
    Joins(p, w, [Wait], a, w, [Finish(0)], b, w);
    KeepsOrderly(b, Start(0));
    Steps(b, w, Start(0));
    var c, v := Next(b, Start(0)), w.(place := Moved(b, Start(0), w.place));
    Joins(p, w, [Wait] + [Finish(0)], b, w, [Start(0)], c, v);
    steps := [Wait] + [Finish(0)] + [Start(0)];
    assert c.slots == [Some(Job(p.queue[0], 0))];
    assert c == Beaten(p);
  }

  /** Our envelope is the dispatcher's last, behind `k` mates; both senders are blocked, the dispatcher first. */
  ghost predicate BothWait(p: Pool, w: Watch, k: nat) {
    Full(p) && |p.rest| == k + 1 && p.pending.Some? && p.blocked == Both(Dispatcher) && w.place == Unsent(k)
  }

  /** The dispatcher sends a mate, the consumer slips in, claims again and comes to wait. */
  lemma Cycles(p: Pool, w: Watch, k: nat) returns (steps: seq<Step>, q: Pool)
    requires BothWait(p, w, k) && k > 0
    ensures Run(p, w, steps, q, w.(place := Unsent(k - 1))) && BothWait(q, w.(place := Unsent(k - 1)), k - 1)
    ensures q.now == p.now + 2
  {
    var v := w.(place := Unsent(k - 1));
    steps := Beats(p, w);
    var a := Beaten(p);
    Steps(a, v, Attempt(Dispatcher));
    KeepsOrderly(a, Attempt(Dispatcher));
    var b := Next(a, Attempt(Dispatcher));
    Joins(p, w, steps, a, v, [Attempt(Dispatcher)], b, v);
    steps := steps + [Attempt(Dispatcher)];
    var more := Beats(b, v);
    var c := Beaten(b);
    Joins(p, w, steps, b, v, more, c, v);
    steps := steps + more;
    more, q := ConsumerReturns(c, v);
    Joins(p, w, steps, c, v, more, q, v);
    steps := steps + more;
  }

  /** The consumer claims the next envelope and finds the channel full. */
  lemma ConsumerReturns(p: Pool, w: Watch) returns (steps: seq<Step>, q: Pool)
    requires Orderly(p) && p.pending.None? && p.blocked == One(Dispatcher) && |p.queue| == Room(p) && w.place.Unsent?
    ensures Run(p, w, steps, q, w) && Orderly(q)
    ensures q == p.(pending := Some(0), blocked := Both(Dispatcher))
  {
    var a := Next(p, Fetch(0));
    Steps(p, w, Fetch(0));
    KeepsOrderly(p, Fetch(0));
    Steps(a, w, Attempt(Consumer));
    KeepsOrderly(a, Attempt(Consumer));
    q := Next(a, Attempt(Consumer));
    Joins(p, w, [Fetch(0)], a, w, [Attempt(Consumer)], q, w);
    steps := [Fetch(0)] + [Attempt(Consumer)];
  }

  /** The last three beats: our envelope is sent, reaches the head, and starts. */
  lemma Ends(p: Pool, w: Watch) returns (steps: seq<Step>, q: Pool)
    requires BothWait(p, w, 0)
    ensures Run(p, w, steps, q, w.(place := OnWorker(0))) && q.now == p.now + 3
    ensures |q.slots| == 1 && q.slots[0].Some? && q.slots[0].value.age == 0
  {
    steps := Beats(p, w);
    var a, v := Beaten(p), w.(place := Queued(1));
    var more := Beats(a, v);
    var b, u := Beaten(a), w.(place := Queued(0));
    Joins(p, w, steps, a, v, more, b, u);
    steps := steps + more;
    more := Beats(b, u);
    q := Beaten(b);
    Joins(p, w, steps, b, u, more, q, w.(place := OnWorker(0)));
    steps := steps + more;
  }

  lemma {:induction false} WaitsLong(p: Pool, w: Watch, k: nat) returns (steps: seq<Step>, q: Pool)
    requires BothWait(p, w, k)
    ensures Run(p, w, steps, q, w.(place := OnWorker(0))) && q.now == p.now + 2 * k + 3
    ensures |q.slots| == 1 && q.slots[0].Some? && q.slots[0].value.age == 0
    decreases k
  {
    if k == 0 {
      steps, q := Ends(p, w);
    } else {
      var more, d;
      steps, d := Cycles(p, w, k);
      more, q := WaitsLong(d, w.(place := Unsent(k - 1)), k - 1);
      Joins(p, w, steps, d, w.(place := Unsent(k - 1)), more, q, w.(place := OnWorker(0)));
      steps := steps + more;
    }
  }

  /**
    For every number j of mates there is a run in which the envelope behind them starts only when
    n + j envelopes have run, n of them ahead at its claim: the bound of WaitingBound is attained, and
    the slips in it cannot be left out.
   */
  lemma SlipsAreNeeded(j: nat) returns (p: Pool, s: Step, steps: seq<Step>, q: Pool, v: Watch)
    ensures Orderly(p) && Follows(p, s, j, steps, q, v)
    ensures v.place == OnWorker(0) && |q.slots| == |p.slots| == 1 && q.slots[0].Some? && q.slots[0].value.age == 0
    ensures AheadAtClaim(p, s, j) == 3 + j
    ensures |p.slots| * (q.now - p.now) == (AheadAtClaim(p, s, j) + Slips(s, j)) * p.limit
  {
    p := Pool(0, [Some(Job(0, 0))], [0, 0], [], None, NoOne, 1, j + 1);
    s := Poll(seq(j + 1, _ => 0));
    var a, w := Next(p, s), Noticed(p, s, j);
    KeepsOrderly(p, s);
    Steps(a, w, Attempt(Dispatcher));
    KeepsOrderly(a, Attempt(Dispatcher));
    var b := Next(a, Attempt(Dispatcher));
    var more, c := ConsumerReturns(b, w);
    Joins(a, w, [Attempt(Dispatcher)], b, w, more, c, w);
    steps := [Attempt(Dispatcher)] + more;
    more, q := WaitsLong(c, w, j);
    v := w.(place := OnWorker(0));
    Joins(a, w, steps, c, w, more, q, v);
    steps := steps + more;
    assert Busy(p.slots) == 1;
  }
}
