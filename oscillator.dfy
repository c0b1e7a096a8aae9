/**
 * The delay oscillator of the speed controller task, as a transition system.
 * One step is one atomic action of the task between two points where another
 * task can observe `delay`: one pass of an inner loop (which ends in a pause),
 * or the change of direction after an inner loop has finished.
 */
module Oscillator {
  import opened Types

  const UP: u8 := 0
  const DOWN: u8 := 1

  const MIN_DELAY: u32 := 25
  const MAX_DELAY: u32 := 300
  const INITIAL_DELAY: u32 := 300
  const DELAY_STEP: u32 := 15

  /** The lowest delay the oscillator reaches: the down loop overshoots MIN_DELAY. */
  const LOWEST_DELAY: u32 := 15

  /** The globals `delay` and `direction`. */
  datatype Osc = Osc(delay: u32, direction: u8)

  /** The values of the globals when the program starts. */
  const Init: Osc := Osc(INITIAL_DELAY, UP)

  /** One step of the speed controller task. Any direction other than UP takes the down branch. */
  function Step(o: Osc): (r: Osc)
    ensures (r.delay == o.delay) <==> (r.direction != o.direction)
    ensures r.direction != o.direction ==> r.direction == if o.direction == UP then DOWN else UP
    ensures o.direction == UP && r.direction == UP ==>
      o.delay < MAX_DELAY && r.delay as int == o.delay as int + DELAY_STEP as int
    ensures o.direction == UP && r.direction != UP ==> o.delay >= MAX_DELAY
    ensures o.direction != UP && r.direction == o.direction ==>
      o.delay > MIN_DELAY && r.delay as int == o.delay as int - DELAY_STEP as int
    ensures o.direction != UP && r.direction != o.direction ==> o.delay <= MIN_DELAY
  {
    if o.direction == UP then
      if o.delay < MAX_DELAY then Osc(Add32(o.delay, DELAY_STEP), o.direction)
      else Osc(o.delay, DOWN)
    else
      if o.delay > MIN_DELAY then Osc(Sub32(o.delay, DELAY_STEP), o.direction)
      else Osc(o.delay, UP)
  }

  /** The state after `n` steps from `o`. */
  function Iterate(o: Osc, n: nat): Osc
  {
    if n == 0 then o else Step(Iterate(o, n - 1))
  }

  /** The invariant of every reachable state. */
  predicate Inv(o: Osc)
  {
    o.delay % DELAY_STEP == 0 &&
    LOWEST_DELAY <= o.delay <= MAX_DELAY &&
    (o.direction == UP || o.direction == DOWN)
  }

  /** Within the invariant the increment and the decrement never wrap around. */
  lemma StepNeverWraps(o: Osc)
    requires Inv(o)
    ensures o.delay as int + DELAY_STEP as int < U32_MODULUS
    ensures o.delay >= DELAY_STEP
  {
  }

  /** Every step keeps the invariant. */
  lemma StepKeepsInv(o: Osc)
    requires Inv(o)
    ensures Inv(Step(o))
  {
    if o.direction == UP && o.delay < MAX_DELAY {
      assert o.delay <= MAX_DELAY - DELAY_STEP;
    } else if o.direction == DOWN && o.delay > MIN_DELAY {
      assert o.delay >= MIN_DELAY + 5;
    }
  }

  /** Any number of steps from a state that satisfies the invariant keeps it. */
  lemma {:induction false} IterateKeepsInv(o: Osc, n: nat)
    requires Inv(o)
    ensures Inv(Iterate(o, n))
  {
    if n > 0 {
      IterateKeepsInv(o, n - 1);
      StepKeepsInv(Iterate(o, n - 1));
    }
  }

  /** Every state reachable from the initial values satisfies the invariant. */
  lemma Reachable(n: nat)
    ensures Inv(Iterate(Init, n))
    ensures LOWEST_DELAY <= Iterate(Init, n).delay <= MAX_DELAY
  {
    IterateKeepsInv(Init, n);
  }

  /** The number of passes of the inner loop in the phase that starts at `o`. */
  function PhaseLength(o: Osc): nat
  {
    if o.direction == UP then
      if o.delay < MAX_DELAY then CeilDiv(MAX_DELAY as int - o.delay as int, DELAY_STEP as int) else 0
    else
      if o.delay > MIN_DELAY then CeilDiv(o.delay as int - MIN_DELAY as int, DELAY_STEP as int) else 0
  }

  function CeilDiv(a: nat, b: nat): nat
    requires b > 0
  {
    (a + b - 1) / b
  }

  /** The number of steps of the waveform per period: 19 down, one flip, 19 up, one flip. */
  const PERIOD: nat := 40

  /** The triangular waveform produced from the initial values, in closed form. */
  function Triangle(n: nat): Osc
  {
    if n == 0 then Init
    else
      var m := (n - 1) % PERIOD;
      if m < PERIOD / 2 then Osc(MAX_DELAY - DELAY_STEP * (m as u32), DOWN)
      else Osc(DELAY_STEP * ((m - PERIOD / 2 + 1) as u32), UP)
  }

  lemma TriangleStep(n: nat)
    ensures Step(Triangle(n)) == Triangle(n + 1)
  {
    if n > 0 {
      var m := (n - 1) % PERIOD;
      assert n % PERIOD == if m == PERIOD - 1 then 0 else m + 1;
    }
  }

  /** The oscillator started from the initial values follows the triangular waveform. */
  lemma {:induction false} FollowsTriangle(n: nat)
    ensures Iterate(Init, n) == Triangle(n)
  {
    if n > 0 {
      FollowsTriangle(n - 1);
      TriangleStep(n - 1);
    }
  }

  /** The waveform repeats every PERIOD steps from start-up on. */
  lemma TrianglePeriodic(n: nat)
    ensures Iterate(Init, n + PERIOD) == Iterate(Init, n)
  {
    FollowsTriangle(n);
    FollowsTriangle(n + PERIOD);
    TrianglePeriod(n);
  }

  lemma TrianglePeriod(n: nat)
    ensures Triangle(n + PERIOD) == Triangle(n)
  {
    if n > 0 {
      assert (n + PERIOD - 1) % PERIOD == (n - 1) % PERIOD;
    }
  }

  /** The direction changes exactly at steps 0, 20, 40, 60, ...: twice per period. */
  lemma DirectionFlips(n: nat)
    ensures Iterate(Init, n).direction != Iterate(Init, n + 1).direction
        <==> n % PERIOD == 0 || n % PERIOD == PERIOD / 2
  {
    FollowsTriangle(n);
    FollowsTriangle(n + 1);
    if n > 0 {
      var m := (n - 1) % PERIOD;
      assert n % PERIOD == if m == PERIOD - 1 then 0 else m + 1;
    }
  }

  /** MIN_DELAY is not a lower bound of the delay: twenty steps after start-up the delay is 15. */
  lemma DelayGoesBelowMin()
    ensures Iterate(Init, 20).delay == LOWEST_DELAY < MIN_DELAY
  {
    FollowsTriangle(20);
  }

  /** At start-up the up loop runs zero times and the direction becomes DOWN at once. */
  lemma FirstPhase()
    ensures PhaseLength(Init) == 0
    ensures Iterate(Init, 1) == Osc(MAX_DELAY, DOWN)
  {
  }

  /** While the delay stays below MAX_DELAY, each step of the up loop adds DELAY_STEP. */
  lemma {:induction false} UpRun(d: u32, k: nat)
    requires k == 0 || d as int + DELAY_STEP as int * (k - 1) < MAX_DELAY as int
    ensures d as int + DELAY_STEP as int * k < U32_MODULUS
    ensures Iterate(Osc(d, UP), k) == Osc((d as int + DELAY_STEP as int * k) as u32, UP)
  {
    if k > 0 {
      UpRun(d, k - 1);
    }
  }

  /** While the delay stays above MIN_DELAY, each step of the down loop subtracts DELAY_STEP. */
  lemma {:induction false} DownRun(d: u32, dir: u8, k: nat)
    requires dir != UP
    requires k == 0 || d as int - DELAY_STEP as int * (k - 1) > MIN_DELAY as int
    ensures d as int - DELAY_STEP as int * k >= 0
    ensures Iterate(Osc(d, dir), k) == Osc((d as int - DELAY_STEP as int * k) as u32, dir)
  {
    if k > 0 {
      DownRun(d, dir, k - 1);
    }
  }

  /**
   * A phase of PhaseLength(o) loop passes and the change of direction moves the
   * delay by that many steps and reverses the direction.
   */
  lemma PhaseEnd(o: Osc)
    ensures var n := PhaseLength(o);
      Iterate(o, n + 1) ==
        if o.direction == UP then Osc((o.delay as int + DELAY_STEP as int * n) as u32, DOWN)
        else Osc((o.delay as int - DELAY_STEP as int * n) as u32, UP)
  {
    var n := PhaseLength(o);
    if o.direction == UP {
      UpRun(o.delay, n);
    } else {
      DownRun(o.delay, o.direction, n);
    }
  }

  /** The down phase from 300 makes 19 decrements, ends at 15 (below MIN_DELAY) and turns UP. */
  lemma DownPhaseFromMax()
    ensures PhaseLength(Osc(MAX_DELAY, DOWN)) == 19
    ensures Iterate(Osc(MAX_DELAY, DOWN), 20) == Osc(LOWEST_DELAY, UP)
  {
    PhaseEnd(Osc(MAX_DELAY, DOWN));
  }

  /** The up phase from 15 makes 19 increments, ends at exactly 300 and turns DOWN. */
  lemma UpPhaseFromLowest()
    ensures PhaseLength(Osc(LOWEST_DELAY, UP)) == 19
    ensures Iterate(Osc(LOWEST_DELAY, UP), 20) == Osc(MAX_DELAY, DOWN)
  {
    PhaseEnd(Osc(LOWEST_DELAY, UP));
  }
}
