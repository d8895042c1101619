/**
 A delay counts from when bytes were read: over every run, each byte and the end of
 stream are let go exactly when the delay in force has passed since their own read.
 */
module RelayDelays {
  import opened Options
  import opened Bytes
  import opened Runs
  import opened Relay
  import opened RelayRuns

  // ---------------------------------------------------------------------------
  // When the byte at a position was read, as the direction remembers it
  // ---------------------------------------------------------------------------

  /** The time on the chunk of the byte at `q` of the queued ones, then the reader's. */
  function StampQueued(queue: seq<Chunk>, reader: Reader, q: nat): Option<real> {
    if queue == [] then
      if reader.Sending? && q < |reader.chunk.bytes| then Some(reader.chunk.readAt) else None
    else if q < |queue[0].bytes| then Some(queue[0].readAt)
    else StampQueued(queue[1..], reader, q - |queue[0].bytes|)
  }

  /** The time on the chunk of the byte at `q` of those not yet written. */
  function StampAhead(w: Writer, queue: seq<Chunk>, reader: Reader, q: nat): Option<real> {
    if q < |InWriter(w)| then Some(w.readAt) else StampQueued(queue, reader, q - |InWriter(w)|)
  }

  /** The byte at position `q` of the stream, unless it is written, is kept with `time`. */
  predicate Stamped(d: Direction, q: nat, time: real) {
    |d.written| <= q ==> StampAhead(d.writer, d.queue, d.reader, q - |d.written|) == Some(time)
  }

  lemma {:induction false} StampSent(queue: seq<Chunk>, c: Chunk, reader: Reader, q: nat)
    requires !reader.Sending?
    ensures StampQueued(queue + [c], reader, q) == StampQueued(queue, Sending(c), q)
    decreases |queue|
  {
    if queue == [] {
      assert ([c])[1..] == [] && queue + [c] == [c];
    } else {
      assert (queue + [c])[1..] == queue[1..] + [c];
      if q >= |queue[0].bytes| { StampSent(queue[1..], c, reader, q - |queue[0].bytes|); }
    }
  }

  lemma {:induction false} StampRead(queue: seq<Chunk>, c: Chunk, q: nat)
    ensures StampQueued(queue, Reading, q).Some? ==> StampQueued(queue, Sending(c), q) == StampQueued(queue, Reading, q)
    decreases |queue|
  {
    if queue != [] && q >= |queue[0].bytes| { StampRead(queue[1..], c, q - |queue[0].bytes|); }
  }

  /** A byte beyond all that is queued is the reader's. */
  lemma {:induction false} StampNew(queue: seq<Chunk>, c: Chunk, q: nat)
    requires |AllBytes(queue)| <= q < |AllBytes(queue)| + |c.bytes|
    ensures StampQueued(queue, Sending(c), q) == Some(c.readAt)
    decreases |queue|
  {
    if queue != [] { StampNew(queue[1..], c, q - |queue[0].bytes|); }
  }

  lemma SendKeepsStamp(d: Direction, q: nat, time: real)
    requires Enabled(d, Send) && Stamped(d, q, time)
    ensures Stamped(Apply(d, Send), q, time)
  {
    var ahead := q - |d.written| - |InWriter(d.writer)|;
    if ahead >= 0 { StampSent(d.queue, d.reader.chunk, Apply(d, Send).reader, ahead); }
  }

  lemma ReadKeepsStamp(d: Direction, bytes: seq<Byte>, q: nat, time: real)
    requires Enabled(d, Read(bytes)) && Stamped(d, q, time)
    ensures Stamped(Apply(d, Read(bytes)), q, time)
  {
    var ahead := q - |d.written| - |InWriter(d.writer)|;
    if ahead >= 0 { StampRead(d.queue, Chunk(d.now, bytes), ahead); }
  }

  lemma WriteKeepsStamp(d: Direction, n: nat, q: nat, time: real)
    requires Enabled(d, Write(n)) && Stamped(d, q, time)
    ensures Stamped(Apply(d, Write(n)), q, time)
  {
    var d' := Apply(d, Write(n));
    WroteSplits(d.writer, n);
    assert |InWriter(d.writer)| == n + |InWriter(d'.writer)|;
  }

  lemma StepKeepsStamp(d: Direction, step: Step, q: nat, time: real)
    requires Inv(d) && Enabled(d, step) && Stamped(d, q, time)
    ensures Stamped(Apply(d, step), q, time)
  {
    match step
    case Read(bytes) => ReadKeepsStamp(d, bytes, q, time);
    case Send => SendKeepsStamp(d, q, time);
    case Receive =>
    case Look => LookConserves(d);
    case Write(n) => WriteKeepsStamp(d, n, q, time);
    case _ =>
  }

  /** Step `i` read the byte at position `q`. */
  predicate ReadsByte(states: seq<Direction>, steps: seq<Step>, i: nat, q: nat) {
    i < |steps| < |states| && steps[i].Read? && |states[i].consumed| <= q < |states[i].consumed| + |steps[i].bytes|
  }

  lemma ReadStamps(d: Direction, bytes: seq<Byte>, q: nat)
    requires Inv(d) && Enabled(d, Read(bytes)) && |d.consumed| <= q < |d.consumed| + |bytes|
    ensures Stamped(Apply(d, Read(bytes)), q, d.now)
  {
    assert |d.consumed| == |d.written| + |InWriter(d.writer)| + |AllBytes(d.queue)|;
    StampNew(d.queue, Chunk(d.now, bytes), q - |d.written| - |InWriter(d.writer)|);
  }

  lemma RunKeepsStamp(source: Source, states: seq<Direction>, steps: seq<Step>, i: nat, k: nat, q: nat)
    requires IsRun(source, states, steps) && i < k < |states| && ReadsByte(states, steps, i, q)
    ensures Inv(states[k]) && Stamped(states[k], q, states[i].now)
  {
    var time := states[i].now;
    var p := d => Inv(d) && Stamped(d, q, time);
    forall d, step, d' | Next()(d, step, d') && p(d) ensures p(d') {
      StepKeepsInv(d, step);
      StepKeepsStamp(d, step, q, time);
    }
    RunKeepsInv(source, states, steps, i);
    RunKeepsInv(source, states, steps, i + 1);
    assert Next()(states[i], steps[i], states[i + 1]);
    ReadStamps(states[i], steps[i].bytes, q);
    Stays(Next(), p, states, steps, i + 1, k);
  }

  // ---------------------------------------------------------------------------
  // Bytes
  // ---------------------------------------------------------------------------

  /** The writer holds back the byte at position `q`. */
  predicate HoldsByte(d: Direction, q: nat) {
    d.writer.Holding? && |d.written| <= q < |d.written| + |d.writer.rest|
  }

  /** From `d` to `d'` the byte at position `q` was let go. */
  predicate LetsGo(d: Direction, d': Direction, q: nat) {
    HoldsByte(d, q) && d'.writer.Writing? && q < |d.written| + |d'.writer.paced|
  }

  /** The delay in force, if any, has passed between the two times. */
  predicate Passed(c: Control, start: real, now: real) {
    c.delay.Some? ==> now >= start + c.delay.value
  }

  lemma HeldByteHasTime(d: Direction, q: nat, time: real)
    requires HoldsByte(d, q) && Stamped(d, q, time)
    ensures d.writer.readAt == time
  {
  }

  /** No byte is let go before the delay in force has passed since that byte was read. */
  lemma BytesKeepTheDelay(source: Source, states: seq<Direction>, steps: seq<Step>, i: nat, k: nat, q: nat)
    requires IsRun(source, states, steps) && ReadsByte(states, steps, i, q) && i < k < |steps|
    requires LetsGo(states[k], states[k + 1], q)
    ensures steps[k].Look? && !Stalled(states[k].control, states[k].source)
    ensures Passed(states[k].control, states[i].now, states[k].now)
  {
    RunKeepsStamp(source, states, steps, i, k, q);
    HeldByteHasTime(states[k], q, states[i].now);
    assert Next()(states[k], steps[k], states[k + 1]);
  }

  /** And without a throttle it is let go exactly then, with all that is left of its chunk:
      a look does it if and only if the direction is not stalled and the delay has passed. */
  lemma DelayIsExact(source: Source, states: seq<Direction>, steps: seq<Step>, i: nat, k: nat, q: nat)
    requires IsRun(source, states, steps) && ReadsByte(states, steps, i, q) && i < k < |steps|
    requires HoldsByte(states[k], q) && steps[k].Look? && states[k].control.throttle.None?
    ensures LetsGo(states[k], states[k + 1], q) <==>
            !Stalled(states[k].control, states[k].source) && Passed(states[k].control, states[i].now, states[k].now)
    ensures LetsGo(states[k], states[k + 1], q) ==> states[k + 1].writer.paced == states[k].writer.rest
  {
    RunKeepsStamp(source, states, steps, i, k, q);
    HeldByteHasTime(states[k], q, states[i].now);
    assert Next()(states[k], steps[k], states[k + 1]);
  }

  // ---------------------------------------------------------------------------
  // The end of stream
  // ---------------------------------------------------------------------------

  /** The end of stream is kept with `time`, unless it was let go. */
  predicate EndStamped(d: Direction, time: real) {
    || d.reader == Sending(Chunk(time, []))
    || (d.queue != [] && d.queue[|d.queue| - 1] == Chunk(time, []) && d.reader.ReaderDone?)
    || d.writer == Holding(time, []) || d.writer.Closing? || d.writer.Finished?
  }

  lemma StepKeepsEndStamp(d: Direction, step: Step, time: real)
    requires Inv(d) && Enabled(d, step) && EndStamped(d, time)
    ensures EndStamped(Apply(d, step), time)
  {
    match step
    case Send =>
    case Receive =>
    case Look =>
    case _ =>
  }

  /** The end of stream too is let go exactly when the delay in force has passed since it
      was read, unless the direction is stalled; no throttle holds it back. */
  lemma EndKeepsTheDelay(source: Source, states: seq<Direction>, steps: seq<Step>, i: nat, k: nat)
    requires IsRun(source, states, steps) && i < k < |steps| && steps[i] == Read([])
    requires states[k].writer.Holding? && states[k].writer.rest == [] && steps[k].Look?
    ensures states[k + 1].writer.Closing? <==>
            !Stalled(states[k].control, states[k].source) && Passed(states[k].control, states[i].now, states[k].now)
  {
    var time := states[i].now;
    var p := d => Inv(d) && EndStamped(d, time);
    forall d, step, d' | Next()(d, step, d') && p(d) ensures p(d') {
      StepKeepsInv(d, step);
      StepKeepsEndStamp(d, step, time);
    }
    RunKeepsInv(source, states, steps, i + 1);
    assert Next()(states[i], steps[i], states[i + 1]);
    Stays(Next(), p, states, steps, i + 1, k);
    assert Next()(states[k], steps[k], states[k + 1]);
  }
}
