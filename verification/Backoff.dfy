/** The retry delay: exponential, capped, with jitter, in 64-bit nanoseconds. */
module Backoff {

  const SECOND: int := 1_000_000_000
  const MAX_BACKOFF: int := 300 * SECOND

  // ---------------------------------------------------------------- 64-bit arithmetic

  const TWO_63: int := 0x8000_0000_0000_0000
  const TWO_64: int := 0x1_0000_0000_0000_0000

  /** Two's complement: every int64 operation of the code ends in this. */
  function Wrap(x: int): int {
    (x + TWO_63) % TWO_64 - TWO_63
  }

  predicate Fits(x: int) {
    -TWO_63 <= x < TWO_63
  }

  function Pow2(n: nat): (p: nat)
    ensures 1 <= p
  {
    if n == 0 then 1 else 2 * Pow2(n - 1)
  }

  function BitLength(x: nat): (n: nat)
    ensures x < Pow2(n)
    ensures n > 0 ==> Pow2(n - 1) <= x
  {
    if x == 0 then 0 else BitLength(x / 2) + 1
  }

  /** bits.LeadingZeros64. */
  function LeadingZeros64(x: nat): int {
    64 - BitLength(x)
  }

  // ---------------------------------------------------------------- the code

  /** The shift and the product wrap as in Go. */
  function Capped(attempt: int): int
    requires 1 <= attempt
  {
    if attempt >= LeadingZeros64(SECOND) then MAX_BACKOFF
    else Cap(Wrap(SECOND * Wrap(Pow2(attempt - 1))))
  }

  function Cap(backOff: int): int {
    if backOff > MAX_BACKOFF then MAX_BACKOFF else backOff
  }

  /** The bound that the random generator is called with. Go's division truncates; the operands are positive. */
  function JitterBound(attempt: int): int
    requires 1 <= attempt
  {
    Capped(attempt) / 5
  }

  function Jittered(backOff: int, draw: int): int {
    Wrap(backOff + Wrap(draw - backOff / 10))
  }

  /** `draw` is what the generator returned for the bound JitterBound(attempt). */
  function CalculateBackoff(attempt: int, draw: int): int
    requires 1 <= attempt
  {
    Jittered(Capped(attempt), draw)
  }

  // ---------------------------------------------------------------- what it promises

  /** min(2^(attempt-1), 300) seconds. */
  function Target(attempt: nat): int
    requires 1 <= attempt
  {
    Goal(Pow2(attempt - 1))
  }

  function Goal(p: nat): int {
    if p <= 300 then p * SECOND else MAX_BACKOFF
  }

  lemma {:induction false} Pow2Grows(a: nat, b: nat)
    requires a <= b
    ensures Pow2(a) <= Pow2(b)
    decreases b
  {
    if a < b {
      Pow2Grows(a, b - 1);
    }
  }

  lemma {:induction false} Pow2Adds(a: nat, b: nat)
    ensures Pow2(a + b) == Pow2(a) * Pow2(b)
    decreases b
  {
    if b > 0 {
      Pow2Adds(a, b - 1);
      assert Pow2(a) * Pow2(b) == 2 * (Pow2(a) * Pow2(b - 1));
    }
  }

  lemma Powers()
    ensures Pow2(8) == 256 && Pow2(9) == 512 && Pow2(30) == 0x4000_0000 && Pow2(32) == 0x1_0000_0000
    ensures Pow2(29) == 0x2000_0000
  {
    assert Pow2(5) == 32;
    assert Pow2(10) == 1024;
    assert Pow2(15) == 0x8000;
    assert Pow2(20) == 0x10_0000;
    assert Pow2(25) == 0x200_0000;
    assert Pow2(30) == 0x4000_0000;
  }

  lemma SecondHas34LeadingZeros()
    ensures LeadingZeros64(SECOND) == 34
  {
    Powers();
    var n := BitLength(SECOND);
    if n < 30 {
      Pow2Grows(n, 29);
    } else if n > 30 {
      Pow2Grows(30, n - 1);
    }
  }

  lemma Pow62()
    ensures Pow2(62) == 0x4000_0000_0000_0000
  {
    Powers();
    Pow2Adds(32, 30);
  }

  lemma MulMono(a: nat, b: nat, c: nat)
    requires a <= b
    ensures a * c <= b * c
  {
    assert b * c == a * c + (b - a) * c;
  }

  lemma WrapFits(x: int)
    requires Fits(x)
    ensures Wrap(x) == x
  {
  }

  /**
    The guard works for any positive base: below its number of leading zeros, neither the shift nor
    the product overflows.
   */
  lemma GuardPreventsOverflow(base: nat, attempt: nat)
    requires 1 <= base < TWO_63 && 1 <= attempt < LeadingZeros64(base)
    ensures Fits(Pow2(attempt - 1)) && 0 <= base * Pow2(attempt - 1) && Fits(base * Pow2(attempt - 1))
  {
    var n, shift := BitLength(base), attempt - 1;
    var p := Pow2(shift);
    Pow62();
    Pow2Grows(shift, 62);
    Pow2Adds(n, shift);
    Pow2Grows(n + shift, 62);
    MulMono(base, Pow2(n), p);
  }

  lemma CapReachesGoal(p: nat)
    requires 1 <= p && Fits(p) && Fits(SECOND * p)
    ensures Cap(Wrap(SECOND * Wrap(p))) == Goal(p)
  {
    WrapFits(p);
    WrapFits(SECOND * p);
  }

  lemma GoalRange(p: nat)
    requires 1 <= p
    ensures SECOND <= Goal(p) <= MAX_BACKOFF && Goal(p) % 10 == 0
  {
  }

  lemma CappedIsTarget(attempt: nat)
    requires 1 <= attempt
    ensures Capped(attempt) == Target(attempt)
    ensures SECOND <= Capped(attempt) <= MAX_BACKOFF && Capped(attempt) % 10 == 0
  {
    var p := Pow2(attempt - 1);
    SecondHas34LeadingZeros();
    if attempt >= 34 {
      Powers();
      Pow2Grows(9, attempt - 1);
    } else {
      GuardPreventsOverflow(SECOND, attempt);
      CapReachesGoal(p);
    }
    GoalRange(p);
  }

  /** Jitter of at most a tenth either way, upper end excluded. */
  lemma JitterRange(c: int, draw: int)
    requires SECOND <= c <= MAX_BACKOFF && c % 10 == 0 && 0 <= draw < c / 5
    ensures Jittered(c, draw) == c / 10 * 9 + draw
    ensures 9 * c <= 10 * Jittered(c, draw) < 11 * c && Fits(Jittered(c, draw))
  {
    WrapFits(draw - c / 10);
    WrapFits(c + (draw - c / 10));
  }

  /** Within a tenth of the target, upper end excluded. */
  predicate Near(attempt: nat, delay: int)
    requires 1 <= attempt
  {
    9 * Target(attempt) <= 10 * delay < 11 * Target(attempt)
  }

  /**
    For every attempt and every draw the generator may make: its bound is positive, nothing
    overflows, and the delay is within a tenth of min(2^(attempt-1), 300) seconds.
   */
  lemma BackoffInRange(attempt: nat, draw: int)
    requires 1 <= attempt
    ensures 0 < JitterBound(attempt)
    ensures 0 <= draw < JitterBound(attempt) ==>
              Near(attempt, CalculateBackoff(attempt, draw)) && Fits(CalculateBackoff(attempt, draw))
  {
    CappedIsTarget(attempt);
    if 0 <= draw < JitterBound(attempt) {
      JitterRange(Capped(attempt), draw);
    }
  }

  predicate Possible(attempt: nat, delay: int)
    requires 1 <= attempt
  {
    exists draw :: 0 <= draw < JitterBound(attempt) && delay == CalculateBackoff(attempt, draw)
  }

  lemma PossibleRange(attempt: nat, delay: int)
    requires 1 <= attempt && Possible(attempt, delay)
    ensures Near(attempt, delay)
  {
    var draw :| 0 <= draw < JitterBound(attempt) && delay == CalculateBackoff(attempt, draw);
    BackoffInRange(attempt, draw);
  }

  /** Every delay in the range can be drawn, its two ends included. */
  lemma EveryDelayPossible(attempt: nat, delay: int)
    requires 1 <= attempt && Target(attempt) / 10 * 9 <= delay < Target(attempt) / 10 * 11
    ensures Possible(attempt, delay)
  {
    CappedIsTarget(attempt);
    var c := Capped(attempt);
    var draw := delay - c / 10 * 9;
    JitterRange(c, draw);
    assert CalculateBackoff(attempt, draw) == delay;
  }

  lemma Targets(attempt: nat)
    requires 1 <= attempt
    ensures Target(attempt) >= SECOND
    ensures attempt <= 8 ==> Target(attempt + 1) == 2 * Target(attempt)
    ensures attempt == 9 ==> Target(attempt) == 256 * SECOND
    ensures attempt > 9 ==> Target(attempt) == MAX_BACKOFF
    ensures attempt >= 9 ==> Target(attempt + 1) == MAX_BACKOFF
  {
    Powers();
    if attempt <= 8 {
      Pow2Grows(attempt, 8);
    } else {
      Pow2Grows(9, attempt);
      if attempt > 9 {
        Pow2Grows(9, attempt - 1);
      }
    }
  }

  /** Whatever is drawn, the delay after attempt `b` is the longer one. */
  ghost predicate AlwaysLonger(a: nat, b: nat)
    requires 1 <= a && 1 <= b
  {
    forall d, e :: Possible(a, d) && Possible(b, e) ==> d < e
  }

  lemma LongerByTargets(a: nat, b: nat)
    requires 1 <= a && 1 <= b && 11 * Target(a) <= 9 * Target(b)
    ensures AlwaysLonger(a, b)
  {
    forall d, e | Possible(a, d) && Possible(b, e)
      ensures d < e
    {
      PossibleRange(a, d);
      PossibleRange(b, e);
    }
  }

  lemma NotLongerByTargets(a: nat, b: nat)
    requires 1 <= a && 1 <= b && Target(b) / 10 * 9 <= Target(a) / 10 * 11 - 1
    ensures !AlwaysLonger(a, b)
  {
    CappedIsTarget(a);
    CappedIsTarget(b);
    EveryDelayPossible(a, Target(a) / 10 * 11 - 1);
    EveryDelayPossible(b, Target(b) / 10 * 9);
  }

  /** Every delay after attempt + 1 beats every delay after attempt, exactly while attempt is at most 8. */
  lemma DelaysGrowExactlyToEight(attempt: nat)
    requires 1 <= attempt
    ensures attempt <= 8 <==> AlwaysLonger(attempt, attempt + 1)
  {
    Targets(attempt);
    if attempt <= 8 {
      LongerByTargets(attempt, attempt + 1);
    } else {
      NotLongerByTargets(attempt, attempt + 1);
    }
  }

  /** In nanoseconds: about a second after the first attempt, doubling to the ninth, then about five minutes. */
  lemma DelaysInNanoseconds(attempt: nat, delay: int)
    requires 1 <= attempt && Possible(attempt, delay)
    ensures attempt == 1 ==> 900_000_000 <= delay < 1_100_000_000
    ensures attempt == 2 ==> 1_800_000_000 <= delay < 2_200_000_000
    ensures attempt == 3 ==> 3_600_000_000 <= delay < 4_400_000_000
    ensures attempt <= 9 ==> 900_000_000 * Pow2(attempt - 1) <= delay < 1_100_000_000 * Pow2(attempt - 1)
    ensures attempt >= 10 ==> 270_000_000_000 <= delay < 330_000_000_000
  {
    PossibleRange(attempt, delay);
    Powers();
    if attempt <= 9 {
      Pow2Grows(attempt - 1, 8);
    } else {
      Pow2Grows(9, attempt - 1);
    }
  }

  /** The ends of the first and of the longest range, with a base of 10^9 and a cap of 3 * 10^11. */
  lemma EndsInNanoseconds()
    ensures Capped(1) == 1_000_000_000 && JitterBound(1) == 200_000_000
    ensures Possible(1, 900_000_000) && Possible(1, 1_099_999_999)
    ensures Capped(10) == 300_000_000_000 && JitterBound(10) == 60_000_000_000
    ensures Possible(10, 270_000_000_000) && Possible(10, 329_999_999_999)
  {
    Powers();
    CappedIsTarget(1);
    CappedIsTarget(10);
    EveryDelayPossible(1, 900_000_000);
    EveryDelayPossible(1, 1_099_999_999);
    EveryDelayPossible(10, 270_000_000_000);
    EveryDelayPossible(10, 329_999_999_999);
  }
}
