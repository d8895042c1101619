/**
 What the throttle and the delay promise over whole runs of one direction.
 */
module RelayThrottle {
  import opened Options
  import opened Numbers
  import opened Runs
  import opened Relay
  import opened RelayRuns

  /** The bytes hold lets go in a step. */
  function Released(d: Direction, step: Step): nat {
    if step.Look? && Enabled(d, step) && Ask(d).Go? then Ask(d).n else 0
  }

  /** The bytes let go in steps `i` to `j`. */
  function TotalReleased(states: seq<Direction>, steps: seq<Step>, i: nat, j: nat): nat
    requires i <= j <= |steps| <= |states|
  {
    Total(Released, states, steps, i, j)
  }

  /** `rate` is the throttle from state `i` to state `j`. */
  predicate InForce(states: seq<Direction>, i: nat, j: nat, rate: nat)
    requires i <= j < |states|
  {
    forall k :: i <= k <= j ==> states[k].control.throttle == Some(rate)
  }

  lemma TakesAdds(m: nat, n: nat, rate: nat)
    requires rate > 0
    ensures Takes(m + n, rate) == Takes(m, rate) + Takes(n, rate)
  {
  }

  /** The throttle's clock accounts for bytes that took `spent` since `start`: it is
      ahead of `start` by that much, and of now by one burst's time at most. */
  predicate Accounted(d: Direction, start: real, rate: nat, spent: real)
    requires rate > 0
  {
    && d.pace.Some? && d.pace.value.0 == rate
    && start + spent <= d.pace.value.1 <= d.now + Takes(Burst(rate), rate)
  }

  predicate Window(d: Direction, start: real, rate: nat, spent: real)
    requires rate > 0
  {
    && d.now >= start
    && (spent <= 0.0 || AtEnd(d.writer) || Accounted(d, start, rate, spent))
    && spent <= d.now - start + Takes(Burst(rate), rate)
  }

  lemma LookKeepsWindow(d: Direction, start: real, rate: nat, spent: real)
    requires Inv(d) && Enabled(d, Look) && d.control.throttle == Some(rate) && rate > 0 && Window(d, start, rate, spent)
    ensures Window(Apply(d, Look), start, rate, spent + Takes(Released(d, Look), rate))
  {
    TakesLonger(0, Burst(rate), rate);
    if Ask(d).Go? { TakesLonger(Ask(d).n, Burst(rate), rate); }
  }

  lemma StepKeepsWindow(d: Direction, step: Step, start: real, rate: nat, spent: real)
    requires Inv(d) && Enabled(d, step) && d.control.throttle == Some(rate) && rate > 0 && Window(d, start, rate, spent)
    ensures Window(Apply(d, step), start, rate, spent + Takes(Released(d, step), rate))
  {
    if step.Look? { LookKeepsWindow(d, start, rate, spent); } else { TakesLonger(0, 0, rate); }
  }

  lemma StepKeepsTotal(d: Direction, step: Step, d': Direction, start: real, rate: nat, total: nat)
    requires Inv(d) && Next()(d, step, d') && d.control.throttle == Some(rate) && rate > 0
    requires Window(d, start, rate, Takes(total, rate))
    ensures Window(d', start, rate, Takes(total + Released(d, step), rate))
  {
    StepKeepsWindow(d, step, start, rate, Takes(total, rate));
    TakesAdds(total, Released(d, step), rate);
  }

  lemma WindowHolds(source: Source, states: seq<Direction>, steps: seq<Step>, i: nat, j: nat, rate: nat)
    requires IsRun(source, states, steps) && i <= j < |states| && rate > 0
    requires InForce(states, i, j, rate)
    ensures Window(states[j], states[i].now, rate, Takes(TotalReleased(states, steps, i, j), rate))
  {
    var start := states[i].now;
    var next := (d: Direction, step: Step, d': Direction) => Next()(d, step, d') && d.control.throttle == Some(rate);
    var p := (d: Direction, n: nat) => Inv(d) && Window(d, start, rate, Takes(n, rate));
    forall d, step, d', n: nat | next(d, step, d') && p(d, n) ensures p(d', n + Released(d, step)) {
      StepKeepsInv(d, step);
      StepKeepsTotal(d, step, d', start, rate, n);
    }
    RunKeepsInv(source, states, steps, i);
    TakesLonger(0, Burst(rate), rate);
    StaysWithTotal(next, Released, p, states, steps, i, j);
  }

  /** `total` bytes in `passed` seconds are at most the rate allows, and a tenth of a
      second's worth or one byte. */
  predicate WithinRate(total: nat, rate: nat, passed: real) {
    total as real <= rate as real * passed + Max(rate / 10, 1) as real
  }

  /** While one rate stays in force, what is let go between two moments is at most the
      rate times the time between them, and a tenth of a second's worth or one byte. */
  lemma ThrottleBound(source: Source, states: seq<Direction>, steps: seq<Step>, i: nat, j: nat, rate: nat)
    requires IsRun(source, states, steps) && i <= j < |states|
    requires InForce(states, i, j, rate)
    ensures WithinRate(TotalReleased(states, steps, i, j), rate, states[j].now - states[i].now)
  {
    RateIsPositive(source, states, steps, i, rate);
    WindowHolds(source, states, steps, i, j, rate);
    WindowBounds(states[j], states[i].now, rate, TotalReleased(states, steps, i, j));
  }

  lemma RateIsPositive(source: Source, states: seq<Direction>, steps: seq<Step>, i: nat, rate: nat)
    requires IsRun(source, states, steps) && i < |states| && states[i].control.throttle == Some(rate)
    ensures rate > 0
  {
    RunKeepsInv(source, states, steps, i);
  }

  lemma WindowBounds(d: Direction, start: real, rate: nat, total: nat)
    requires rate > 0 && Window(d, start, rate, Takes(total, rate))
    ensures WithinRate(total, rate, d.now - start)
  {
    BoundTurnedRound(total, Burst(rate), rate, d.now - start);
  }

  lemma BoundTurnedRound(total: nat, burst: nat, rate: nat, passed: real)
    requires rate > 0 && passed >= 0.0 && Takes(total, rate) <= passed + Takes(burst, rate)
    ensures total as real <= rate as real * passed + burst as real
  {
    var r := rate as real;
    assert r * Takes(total, rate) == total as real && r * Takes(burst, rate) == burst as real;
    Scale(Takes(total, rate), passed + Takes(burst, rate), r);
    assert r * (passed + Takes(burst, rate)) == r * passed + r * Takes(burst, rate);
  }

  lemma Scale(a: real, b: real, r: real)
    requires a <= b && r > 0.0
    ensures r * a <= r * b
  {
  }

  /** Nothing is written that hold did not let go first: what was let go is what was
      written since and what is still to be. */
  lemma {:induction false} WritesWereReleased(source: Source, states: seq<Direction>, steps: seq<Step>, i: nat, j: nat)
    requires IsRun(source, states, steps) && i <= j < |states|
    ensures Paced(states[i]) + TotalReleased(states, steps, i, j) ==
            |states[j].written| - |states[i].written| + Paced(states[j])
    decreases j - i
  {
    if i < j {
      WritesWereReleased(source, states, steps, i, j - 1);
      RunKeepsInv(source, states, steps, j - 1);
      assert Next()(states[j - 1], steps[j - 1], states[j - 1 + 1]);
      StepPaces(states[j - 1], steps[j - 1]);
    }
  }

  function Paced(d: Direction): nat {
    if d.writer.Writing? then |d.writer.paced| else 0
  }

  lemma StepPaces(d: Direction, step: Step)
    requires Inv(d) && Enabled(d, step)
    ensures Paced(d) + Released(d, step) == |Apply(d, step).written| - |d.written| + Paced(Apply(d, step))
  {
  }

  /** Each time hold lets bytes go it lets at least one go and no more than are left of
      the chunk, and not before the chunk's delay in force is over; the end of stream
      waits for its delay too. */
  lemma ReleasesKeepTheDelay(source: Source, states: seq<Direction>, steps: seq<Step>, k: nat)
    requires IsRun(source, states, steps) && k < |steps| && steps[k].Look? && !states[k + 1].writer.Holding?
    ensures var d, d' := states[k], states[k + 1];
            && d.writer.Holding? && DelayOver(d.control, d.now, d.writer.readAt)
            && (d.writer.rest != [] ==>
                  && d'.writer.Writing? && 1 <= |d'.writer.paced|
                  && d'.writer.paced + d'.writer.rest == d.writer.rest)
            && (d.writer.rest == [] ==> d'.writer.Closing?)
  {
    assert Next()(states[k], steps[k], states[k + 1]);
    RunKeepsInv(source, states, steps, k);
  }

  // ---------------------------------------------------------------------------
  // The throttle lets go in time
  // ---------------------------------------------------------------------------

  /** Nothing is let go in the steps after `i` and before `k`. */
  predicate NothingGoes(states: seq<Direction>, steps: seq<Step>, i: nat, k: nat)
    requires k <= |steps| < |states|
  {
    forall m :: i < m < k ==> Released(states[m], steps[m]) == 0
  }

  /** The look from `d` to `d'` lets some of the chunk go. */
  predicate LooksAndGoes(d: Direction, step: Step, d': Direction) {
    step.Look? && d'.writer.Writing?
  }

  /** The throttle's clock shows `next`, or the writer is past the last byte. */
  predicate Shows(d: Direction, rate: nat, next: real) {
    d.pace == Some((rate, next)) || AtEnd(d.writer)
  }

  lemma StepKeepsClockFace(d: Direction, step: Step, rate: nat, next: real)
    requires Inv(d) && Enabled(d, step) && d.control.throttle == Some(rate)
    requires Shows(d, rate, next) && Released(d, step) == 0
    ensures Shows(Apply(d, step), rate, next)
  {
    if step.Look? { LookKeepsClockFace(d, rate, next); }
  }

  lemma LookKeepsClockFace(d: Direction, rate: nat, next: real)
    requires Inv(d) && Enabled(d, Look) && d.control.throttle == Some(rate)
    requires Shows(d, rate, next) && Released(d, Look) == 0
    ensures Shows(Apply(d, Look), rate, next)
  {
  }

  lemma LookAnswers(d: Direction, rate: nat)
    requires Enabled(d, Look) && d.control.throttle == Some(rate) && d.writer.rest != []
    ensures Apply(d, Look).writer.Writing? <==>
            && !Stalled(d.control, d.source) && DelayOver(d.control, d.now, d.writer.readAt)
            && (d.pace.Some? && d.pace.value.0 == rate ==> d.now >= d.pace.value.1)
  {
  }

  lemma LookSetsClock(d: Direction, rate: nat)
    requires Enabled(d, Look) && d.control.throttle == Some(rate) && Apply(d, Look).writer.Writing?
    ensures Apply(d, Look).pace == Some((rate, d.now + Takes(|Apply(d, Look).writer.paced|, rate)))
  {
  }

  lemma LookForgetsClock(d: Direction, rate: nat)
    requires Enabled(d, Look) && d.control.throttle != Some(rate) && !Stalled(d.control, d.source)
    ensures Apply(d, Look).pace.Some? ==> Apply(d, Look).pace.value.0 != rate
  {
  }

  lemma ClockFaceStays(source: Source, states: seq<Direction>, steps: seq<Step>, i: nat, k: nat, rate: nat, next: real)
    requires IsRun(source, states, steps) && i < k < |states| && InForce(states, i, k, rate)
    requires Shows(states[i + 1], rate, next) && k <= |steps| && NothingGoes(states, steps, i, k)
    ensures Shows(states[k], rate, next)
  {
    var step := (d: Direction, step: Step, d': Direction) =>
        Next()(d, step, d') && d.control.throttle == Some(rate) && Released(d, step) == 0;
    var p := (d: Direction) => Inv(d) && Shows(d, rate, next);
    forall d, m, d' | step(d, m, d') && p(d) ensures p(d') {
      StepKeepsInv(d, m);
      StepKeepsClockFace(d, m, rate, next);
    }
    RunKeepsInv(source, states, steps, i + 1);
    Stays(step, p, states, steps, i + 1, k);
  }

  /** Under one rate, `n` bytes let go are followed by more exactly when the time that `n`
      bytes take has passed: a look lets go again if and only if it has, the delay is over
      and the direction is not stalled. */
  lemma ThrottleIsExact(source: Source, states: seq<Direction>, steps: seq<Step>, i: nat, k: nat, rate: nat)
    requires IsRun(source, states, steps) && i < k < |steps| && InForce(states, i, k, rate)
    requires LooksAndGoes(states[i], steps[i], states[i + 1]) && NothingGoes(states, steps, i, k)
    requires states[k].writer.Holding? && states[k].writer.rest != [] && steps[k].Look?
    ensures rate > 0
    ensures LooksAndGoes(states[k], steps[k], states[k + 1]) <==>
            && !Stalled(states[k].control, source)
            && DelayOver(states[k].control, states[k].now, states[k].writer.readAt)
            && states[k].now >= states[i].now + |states[i + 1].writer.paced| as real / rate as real
  {
    RateIsPositive(source, states, steps, i, rate);
    assert Next()(states[i], steps[i], states[i + 1]) && Next()(states[k], steps[k], states[k + 1]);
    LookSetsClock(states[i], rate);
    ClockFaceStays(source, states, steps, i, k, rate, states[i].now + Takes(|states[i + 1].writer.paced|, rate));
    SourceStays(source, states, steps, k);
    LookAnswers(states[k], rate);
  }

  lemma SourceStays(source: Source, states: seq<Direction>, steps: seq<Step>, k: nat)
    requires IsRun(source, states, steps) && k < |states|
    ensures states[k].source == source
  {
    Stays(Next(), (d: Direction) => d.source == source, states, steps, 0, k);
  }

  /** When the rate has changed since the last look, or there was no throttle, its clock
      restarts: the next look lets go at once. */
  lemma ThrottleRestarts(source: Source, states: seq<Direction>, steps: seq<Step>, i: nat, k: nat, rate: nat)
    requires IsRun(source, states, steps) && i < k < |steps| && steps[i].Look? && steps[k].Look?
    requires !Stalled(states[i].control, source) && states[i].control.throttle != Some(rate)
    requires forall m :: i < m < k ==> !steps[m].Look?
    requires states[k].control.throttle == Some(rate) && states[k].writer.Holding? && states[k].writer.rest != []
    ensures LooksAndGoes(states[k], steps[k], states[k + 1]) <==>
            !Stalled(states[k].control, source) && DelayOver(states[k].control, states[k].now, states[k].writer.readAt)
  {
    var step := (d: Direction, step: Step, d': Direction) => Next()(d, step, d') && !step.Look?;
    var p := (d: Direction) => d.pace.Some? ==> d.pace.value.0 != rate;
    SourceStays(source, states, steps, i);
    SourceStays(source, states, steps, k);
    assert Next()(states[i], steps[i], states[i + 1]) && Next()(states[k], steps[k], states[k + 1]);
    LookForgetsClock(states[i], rate);
    Stays(step, p, states, steps, i + 1, k);
    LookAnswers(states[k], rate);
  }
}
