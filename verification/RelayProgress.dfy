/**
 Forwarding goes on: under a delay and a throttle as well, what is left to forward
 shrinks after a bounded wait, unless the direction is stalled.
 */
module RelayProgress {
  import opened Options
  import opened Runs
  import opened Relay
  import opened RelayRuns

  // ---------------------------------------------------------------------------
  // The clocks
  // ---------------------------------------------------------------------------

  /** No chunk was read in the future. */
  predicate ReadBefore(d: Direction) {
    && (d.reader.Sending? ==> d.reader.chunk.readAt <= d.now)
    && (forall i :: 0 <= i < |d.queue| ==> d.queue[i].readAt <= d.now)
    && (d.writer.Holding? || d.writer.Writing? ==> d.writer.readAt <= d.now)
  }

  /** The throttle's clock is at most one burst ahead of now. */
  predicate PaceOk(pace: Pace, now: real) {
    pace.Some? ==> pace.value.0 > 0 && pace.value.1 <= now + Takes(Burst(pace.value.0), pace.value.0)
  }

  predicate ClockOk(d: Direction) {
    ReadBefore(d) && PaceOk(d.pace, d.now) && (d.control.delay.Some? ==> d.control.delay.value >= 0.0)
  }

  lemma HoldKeepsPace(c: Control, from: Source, now: real, readAt: real, pace: Pace, want: nat)
    requires (c.throttle.Some? ==> c.throttle.value > 0) && PaceOk(pace, now)
    ensures PaceOk(Hold(c, from, now, readAt, pace, want).pace, now)
  {
    if c.throttle.Some? {
      var rate := c.throttle.value;
      TakesLonger(0, Burst(rate), rate);
      if want < Burst(rate) { TakesLonger(want, Burst(rate), rate); }
    }
  }

  lemma LookKeepsClock(d: Direction)
    requires ClockOk(d) && Enabled(d, Look)
    ensures ClockOk(Apply(d, Look))
  {
    HoldKeepsPace(d.control, d.source, d.now, d.writer.readAt, d.pace, |d.writer.rest|);
  }

  lemma StepKeepsClock(d: Direction, step: Step)
    requires ClockOk(d) && Enabled(d, step)
    ensures ClockOk(Apply(d, step))
  {
    if step.Look? { LookKeepsClock(d); }
  }

  lemma RunKeepsClock(source: Source, states: seq<Direction>, steps: seq<Step>, k: nat)
    requires IsRun(source, states, steps) && k < |states|
    ensures ClockOk(states[k])
  {
    forall d, step, d' | Next()(d, step, d') && ClockOk(d) ensures ClockOk(d') { StepKeepsClock(d, step); }
    Stays(Next(), d => ClockOk(d), states, steps, 0, k);
  }

  // ---------------------------------------------------------------------------
  // Waiting
  // ---------------------------------------------------------------------------

  function Later(a: real, b: real): real {
    if a < b then b else a
  }

  function DelayLeft(c: Control, now: real, readAt: real): real {
    if c.delay.Some? then Later(0.0, readAt + c.delay.value - now) else 0.0
  }

  function PaceLeft(c: Control, now: real, pace: Pace): real {
    if pace.Some? && c.throttle == Some(pace.value.0) then Later(0.0, pace.value.1 - now) else 0.0
  }

  /** How long hold sleeps before it lets any of `want` bytes go. */
  function SleepTime(c: Control, now: real, readAt: real, pace: Pace, want: nat): (wait: real)
    ensures wait >= 0.0
  {
    Later(DelayLeft(c, now, readAt), if want == 0 then 0.0 else PaceLeft(c, now, pace))
  }

  function SleepsFor(d: Direction): (wait: real)
    requires d.writer.Holding?
    ensures wait >= 0.0
  {
    SleepTime(d.control, d.now, d.writer.readAt, d.pace, |d.writer.rest|)
  }

  /** The longest it can be: the delay in force, or the time of one burst. */
  function LongestSleep(c: Control): real
    requires c.throttle.Some? ==> c.throttle.value > 0
  {
    Later(if c.delay.Some? then Later(0.0, c.delay.value) else 0.0,
          if c.throttle.Some? then Takes(Burst(c.throttle.value), c.throttle.value) else 0.0)
  }

  lemma SleepIsBounded(d: Direction)
    requires ClockOk(d) && ControlOk(d) && d.writer.Holding?
    ensures SleepsFor(d) <= LongestSleep(d.control)
  {
    if d.control.throttle.Some? { TakesLonger(0, Burst(d.control.throttle.value), d.control.throttle.value); }
  }

  function Slept(d: Direction): Direction
    requires d.writer.Holding?
  {
    Apply(d, Tick(SleepsFor(d)))
  }

  /** When that time has passed hold lets go. */
  lemma SleepIsEnough(d: Direction)
    requires Enabled(d, Look) && !Stalled(d.control, d.source)
    ensures Enabled(Slept(d), Look) && !Apply(Slept(d), Look).writer.Holding?
  {
    assert DelayOver(d.control, Slept(d).now, d.writer.readAt);
  }

  // ---------------------------------------------------------------------------
  // What is left shrinks
  // ---------------------------------------------------------------------------

  /** What the writer still has to do with its chunk. */
  function Left(w: Writer): nat {
    match w
    case Receiving => 0
    case Holding(_, rest) => 2 * |rest| + 3
    case Writing(_, paced, rest) => 2 * (|paced| + |rest|) + 2
    case Closing => 1
    case Finished => 0
  }

  function LeftInQueue(queue: seq<Chunk>): nat {
    if queue == [] then 0 else 2 * |queue[0].bytes| + 4 + LeftInQueue(queue[1..])
  }

  /** A count of the steps that forwarding everything read still takes. */
  function Remaining(d: Direction): nat {
    Left(d.writer) + LeftInQueue(d.queue) + if d.reader.Sending? then 2 * |d.reader.chunk.bytes| + 5 else 0
  }

  lemma {:induction false} QueueAppend(queue: seq<Chunk>, c: Chunk)
    ensures LeftInQueue(queue + [c]) == LeftInQueue(queue) + 2 * |c.bytes| + 4
    decreases |queue|
  {
    if queue != [] {
      QueueAppend(queue[1..], c);
      assert (queue + [c])[1..] == queue[1..] + [c];
    }
  }

  /** The step forwards something. */
  predicate Forwards(d: Direction, step: Step) {
    && Enabled(d, step)
    && (step.Send? || step.Receive? || step.Write? || step.Shut? || (step.Look? && !Apply(d, step).writer.Holding?))
  }

  lemma ForwardingShrinks(d: Direction, step: Step)
    requires Inv(d) && Forwards(d, step)
    ensures Remaining(Apply(d, step)) < Remaining(d)
    ensures Apply(d, step).consumed == d.consumed && Apply(d, step).control == d.control && !Apply(d, step).over
  {
    match step
    case Send => QueueAppend(d.queue, d.reader.chunk);
    case Look => LookShrinks(d);
    case Write(_) =>
    case _ =>
  }

  lemma LookShrinks(d: Direction)
    requires Inv(d) && Forwards(d, Look)
    ensures Remaining(Apply(d, Look)) < Remaining(d)
  {
  }

  /** Whenever something is left to forward and the direction is not stalled, then after a
      wait no longer than the delay in force or one burst's time a step is possible by
      which less is left. */
  lemma NeverStuck(source: Source, states: seq<Direction>, steps: seq<Step>, k: nat) returns (wait: real, step: Step)
    requires IsRun(source, states, steps) && k < |states| && !states[k].over && !states[k].fin
    requires !Stalled(states[k].control, states[k].source)
    requires states[k].reader.ReaderDone? || states[k].written != states[k].consumed
    ensures ControlOk(states[k]) && 0.0 <= wait <= LongestSleep(states[k].control)
    ensures var later := Apply(states[k], Tick(wait));
            Enabled(later, step) && Remaining(Apply(later, step)) < Remaining(states[k])
  {
    RunKeepsInv(source, states, steps, k);
    RunKeepsClock(source, states, steps, k);
    wait, step := Possible(states[k]);
    StepKeepsInv(states[k], Tick(wait));
    ForwardingShrinks(Apply(states[k], Tick(wait)), step);
  }

  lemma Possible(d: Direction) returns (wait: real, step: Step)
    requires Inv(d) && ClockOk(d) && !d.over && !d.fin && !Stalled(d.control, d.source)
    requires d.reader.ReaderDone? || d.written != d.consumed
    ensures 0.0 <= wait <= LongestSleep(d.control) && Forwards(Apply(d, Tick(wait)), step)
  {
    if d.writer.Holding? {
      SleepIsBounded(d);
      SleepIsEnough(d);
      wait, step := SleepsFor(d), Look;
    } else {
      wait, step := 0.0, Prompt(d);
      PromptForwards(d);
      assert Apply(d, Tick(0.0)) == d;
    }
  }

  /** What can be done at once. */
  function Prompt(d: Direction): Step {
    match d.writer
    case Receiving => if d.queue == [] then Send else Receive
    case Holding(_, _) => Look
    case Writing(_, _, _) => Write(1)
    case Closing => Shut
    case Finished => Shut
  }

  lemma PromptForwards(d: Direction)
    requires Inv(d) && !d.over && !d.fin && !Stalled(d.control, d.source) && !d.writer.Holding?
    requires d.reader.ReaderDone? || d.written != d.consumed
    ensures Forwards(d, Prompt(d)) && LongestSleep(d.control) >= 0.0
  {
    if d.writer.Receiving? && d.queue == [] { assert d.written + [] + [] == d.written; }
  }
}
