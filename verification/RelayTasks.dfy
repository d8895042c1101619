/**
 The reader and the writer of one direction as they update it in place, a poll at a
 time.
 */
module RelayTasks {
  import opened Options
  import opened Bytes
  import opened Relay
  import opened RelayRuns
  import opened RelayProgress

  class OneWay {
    const source: Source
    var control: Control
    var now: real
    var reader: Reader
    var queue: seq<Chunk>
    var writer: Writer
    var pace: Pace
    var forwarded: nat
    var fin: bool
    var over: bool
    /** Every byte read from one socket and written to the other. */
    ghost var consumed: seq<Byte>
    ghost var written: seq<Byte>

    ghost function Value(): Direction
      reads this
    {
      Direction(source, control, now, reader, queue, writer, pace, consumed, written, forwarded, fin, over)
    }

    ghost predicate Valid()
      reads this
    {
      Inv(Value()) && ClockOk(Value())
    }

    constructor (source: Source)
      ensures Valid() && Value() == Fresh(source)
    {
      this.source, control, now := source, DEFAULT_CONTROL, 0.0;
      reader, queue, writer, pace := Reading, [], Receiving, None;
      forwarded, fin, over, consumed, written := 0, false, false, [], [];
    }

    /** Control::apply, field by field. */
    method Act(action: Action)
      requires Valid() && Enabled(Value(), Relay.Act(action))
      modifies this`control
      ensures Valid() && Value() == Apply(old(Value()), Relay.Act(action))
    {
      StepKeepsValid(Value(), Relay.Act(action));
      match action {
        case Stall => control := control.(dialerStalled := true, acceptorStalled := true);
        case StallOneWay(fromDialer) =>
          if fromDialer {
            control := control.(dialerStalled := true);
          } else {
            control := control.(acceptorStalled := true);
          }
        case Heal =>
          control := control.(dialerStalled := false, acceptorStalled := false);
          control := control.(delay := None);
          control := control.(throttle := None);
        case Delay(delay) => control := control.(delay := Some(delay));
        case Throttle(rate) => control := control.(throttle := Some(rate));
        case Close => if control.end.None? { control := control.(end := Some(ByClose)); }
        case Reset => control := control.(end := Some(ByReset));
      }
    }

    /** One poll of read_chunks, for which the socket has `bytes`. */
    method PollReader(bytes: seq<Byte>) returns (step: Option<Step>)
      requires Valid() && |bytes| <= CHUNK_SIZE
      modifies this`reader, this`queue, this`consumed
      ensures Valid()
      ensures step.Some? ==> step.value in {Read(bytes), Send}
      ensures step.Some? ==> Enabled(old(Value()), step.value) && Value() == Apply(old(Value()), step.value)
      ensures step.None? ==> Value() == old(Value()) && !Enabled(Value(), Read(bytes)) && !Enabled(Value(), Send)
    {
      step := None;
      if over || reader.ReaderDone? {
        return;
      }
      if reader.Reading? {
        if !Stalled(control, source) {
          step := Some(Read(bytes));
          StepKeepsValid(Value(), Read(bytes));
          reader, consumed := Sending(Chunk(now, bytes)), consumed + bytes;
        }
      } else if |queue| < QUEUED_CHUNKS {
        step := Some(Send);
        StepKeepsValid(Value(), Send);
        var chunk := reader.chunk;
        queue := queue + [chunk];
        reader := if chunk.bytes == [] then ReaderDone else Reading;
      }
    }

    /** Takes the next chunk off the queue. */
    method TakeChunk()
      requires Valid() && Enabled(Value(), Receive)
      modifies this`writer, this`queue
      ensures Valid() && Value() == Apply(old(Value()), Receive)
    {
      StepKeepsValid(Value(), Receive);
      writer, queue := Holding(queue[0].readAt, queue[0].bytes), queue[1..];
    }

    /** One turn of hold's loop, and what follows when it returns. */
    method LookOnce()
      requires Valid() && Enabled(Value(), Look)
      modifies this`writer, this`pace
      ensures Valid() && Value() == Apply(old(Value()), Look)
    {
      StepKeepsValid(Value(), Look);
      var readAt, rest := writer.readAt, writer.rest;
      var verdict := Hold(control, source, now, readAt, pace, |rest|);
      pace := verdict.pace;
      if verdict.Go? {
        writer := if rest == [] then Closing else Writing(readAt, rest[..verdict.n], rest[verdict.n..]);
      }
    }

    /** A write of `n` bytes that the socket took. */
    method WriteSome(n: nat)
      requires Valid() && Enabled(Value(), Write(n))
      modifies this`writer, this`written, this`forwarded
      ensures Valid() && Value() == Apply(old(Value()), Write(n))
    {
      StepKeepsValid(Value(), Write(n));
      written, forwarded := written + writer.paced[..n], forwarded + n;
      writer := Wrote(writer, n);
    }

    /** One poll of write_chunks, for which the socket takes up to `room` bytes. */
    method PollWriter(room: nat) returns (step: Option<Step>)
      requires Valid() && room > 0
      modifies this
      ensures Valid()
      ensures step.Some? ==> Writes(step.value)
      ensures step.Some? ==> Enabled(old(Value()), step.value) && Value() == Apply(old(Value()), step.value)
      ensures step.None? ==> Value() == old(Value()) && Idle(Value())
    {
      step := None;
      if over {
        return;
      }
      match writer {
        case Receiving =>
          if queue != [] {
            step := Some(Receive);
            TakeChunk();
          }
        case Holding(_, _) =>
          step := Some(Look);
          LookOnce();
        case Writing(_, paced, _) =>
          if !Stalled(control, source) {
            var n := if room < |paced| then room else |paced|;
            step := Some(Write(n));
            WriteSome(n);
          }
        case Closing =>
          if !Stalled(control, source) {
            step := Some(Shut);
            StepKeepsValid(Value(), Shut);
            fin, writer := true, Finished;
          }
        case Finished =>
      }
    }

    /** hold's sleep until what it waits for is due. */
    method Sleep()
      requires Valid() && writer.Holding?
      modifies this`now
      ensures Valid() && Value() == Slept(old(Value()))
    {
      StepKeepsValid(Value(), Tick(SleepsFor(Value())));
      now := now + SleepTime(control, now, writer.readAt, pace, |writer.rest|);
    }

    /** hold: looks, sleeps until what it waits for is due, and looks again. */
    method HoldThrough()
      requires Valid() && Enabled(Value(), Look) && !Stalled(control, source)
      modifies this`writer, this`pace, this`now
      ensures Valid() && Remaining(Value()) < old(Remaining(Value()))
      ensures old(now) <= now <= old(now) + LongestSleep(control)
    {
      HoldsThrough(Value());
      LookOnce();
      if writer.Holding? {
        Sleep();
        LookOnce();
      }
    }

    /** With the reader done and the direction not stalled, polling the writer comes to an
        end as time passes, whatever delay and throttle are in force: every byte read is
        written and then the end of stream sent, within one longest sleep a step. */
    method Finish(room: nat)
      requires Valid() && room > 0 && !over && reader.ReaderDone? && !Stalled(control, source)
      modifies this
      ensures Valid() && fin && written == consumed == old(consumed) && forwarded == |consumed|
      ensures control == old(control)
      ensures now <= old(now) + Sleeps(old(Remaining(Value())), LongestSleep(control))
    {
      ghost var start, all, sleep := now, Remaining(Value()), LongestSleep(control);
      SleepIsNotNegative(control);
      while !fin
        invariant Valid() && !over && reader.ReaderDone? && consumed == old(consumed) && control == old(control)
        invariant InTime(Value(), start, all, sleep)
        decreases Remaining(Value())
      {
        ghost var d := Value();
        if writer.Holding? {
          HoldThrough();
        } else {
          var step := PollWriter(room);
          WriterAdvances(d, step);
        }
        StaysInTime(d, Value(), start, all, sleep);
      }
      EndIsComplete(Value());
      SleepsGrow(all - Remaining(Value()), all, sleep);
    }
  }

  /** The time of `n` sleeps. */
  function Sleeps(n: nat, sleep: real): real {
    if n == 0 then 0.0 else Sleeps(n - 1, sleep) + sleep
  }

  lemma {:induction false} SleepsGrow(m: nat, n: nat, sleep: real)
    requires m <= n && sleep >= 0.0
    ensures Sleeps(m, sleep) <= Sleeps(n, sleep)
  {
    if m < n { SleepsGrow(m, n - 1, sleep); }
  }

  /** Of `all` that was to be done at `start`, each step done has taken one sleep at most. */
  predicate InTime(d: Direction, start: real, all: nat, sleep: real) {
    Remaining(d) <= all && d.now <= start + Sleeps(all - Remaining(d), sleep)
  }

  lemma StaysInTime(d: Direction, d': Direction, start: real, all: nat, sleep: real)
    requires sleep >= 0.0 && InTime(d, start, all, sleep) && Remaining(d') < Remaining(d) && d'.now <= d.now + sleep
    ensures InTime(d', start, all, sleep)
  {
    SleepsGrow(all - Remaining(d) + 1, all - Remaining(d'), sleep);
  }

  lemma SleepIsNotNegative(c: Control)
    requires c.throttle.Some? ==> c.throttle.value > 0
    ensures LongestSleep(c) >= 0.0
  {
  }

  /** What a look, a sleep and a second look come to. */
  lemma HoldsThrough(d: Direction)
    requires Inv(d) && ClockOk(d) && Enabled(d, Look) && !Stalled(d.control, d.source)
    ensures var d1 := Apply(d, Look);
            if !d1.writer.Holding? then Remaining(d1) < Remaining(d) && LongestSleep(d.control) >= 0.0
            else
              && SleptOk(d, d1)
              && Remaining(Apply(Slept(d1), Look)) < Remaining(d)
  {
    SleepIsNotNegative(d.control);
    var d1 := Apply(d, Look);
    StepKeepsValid(d, Look);
    if d1.writer.Holding? {
      WaitingChangesNothing(d);
      SleepIsBounded(d1);
      SleepIsEnough(d1);
      StepKeepsValid(d1, Tick(SleepsFor(d1)));
      ForwardingShrinks(Slept(d1), Look);
    } else {
      ForwardingShrinks(d, Look);
    }
  }

  predicate SleptOk(d: Direction, d1: Direction)
    requires ControlOk(d) && d1.writer.Holding?
  {
    && Inv(Slept(d1)) && ClockOk(Slept(d1)) && Enabled(Slept(d1), Look)
    && d1.now == d.now && SleepsFor(d1) <= LongestSleep(d.control)
  }

  lemma StepKeepsValid(d: Direction, step: Step)
    requires Inv(d) && ClockOk(d) && Enabled(d, step)
    ensures Inv(Apply(d, step)) && ClockOk(Apply(d, step))
  {
    StepKeepsInv(d, step);
    StepKeepsClock(d, step);
  }

  lemma WaitingChangesNothing(d: Direction)
    requires Enabled(d, Look) && Apply(d, Look).writer.Holding?
    ensures Remaining(Apply(d, Look)) == Remaining(d)
    ensures Apply(d, Look).control == d.control && Apply(d, Look).now == d.now
  {
  }

  predicate Writes(step: Step) {
    step.Receive? || step.Look? || step.Write? || step.Shut?
  }

  /** The writer has nothing to do, or may not do it. */
  predicate Idle(d: Direction) {
    || d.over || d.fin
    || (d.writer.Receiving? && d.queue == [])
    || (Stalled(d.control, d.source) && !d.writer.Holding?)
  }

  /** A poll of a writer that holds nothing back is a step forward. */
  lemma WriterAdvances(d: Direction, step: Option<Step>)
    requires Inv(d) && !d.over && !d.fin && d.reader.ReaderDone? && !Stalled(d.control, d.source) && !d.writer.Holding?
    requires if step.Some? then Writes(step.value) && Enabled(d, step.value) else Idle(d)
    ensures step.Some? && Remaining(Apply(d, step.value)) < Remaining(d)
    ensures var d' := Apply(d, step.value);
            !d'.over && d'.reader == d.reader && d'.consumed == d.consumed && d'.control == d.control && d'.now == d.now
  {
    assert step.Some?;
    ForwardingShrinks(d, step.value);
  }
}
