/**
 One direction of a relayed connection: a reader and a writer joined by a short
 queue, under stalls, delays and a throttle. One poll of a select is one step.
 */
module Relay {
  import opened Options
  import opened Numbers
  import opened Bytes
  import opened Runs

  const CHUNK_SIZE := 16 * 1024
  const QUEUED_CHUNKS := 16

  // ---------------------------------------------------------------------------
  // The actions in force
  // ---------------------------------------------------------------------------

  datatype Source = Dialer | Acceptor
  datatype End = ByClose | ByReset

  datatype Action =
    | Stall
    | StallOneWay(fromDialer: bool)
    | Heal
    | Delay(delay: real)
    | Throttle(bytesPerSec: nat)
    | Close
    | Reset

  datatype Control = Control(
    dialerStalled: bool,
    acceptorStalled: bool,
    delay: Option<real>,
    throttle: Option<nat>,
    end: Option<End>)

  const DEFAULT_CONTROL := Control(false, false, None, None, None)

  predicate Stalled(c: Control, from: Source) {
    if from.Dialer? then c.dialerStalled else c.acceptorStalled
  }

  function Other(from: Source): Source {
    if from.Dialer? then Acceptor else Dialer
  }

  function Applied(c: Control, action: Action): Control {
    match action
    case Stall => c.(dialerStalled := true, acceptorStalled := true)
    case StallOneWay(fromDialer) => if fromDialer then c.(dialerStalled := true) else c.(acceptorStalled := true)
    case Heal => c.(dialerStalled := false, acceptorStalled := false, delay := None, throttle := None)
    case Delay(delay) => c.(delay := Some(delay))
    case Throttle(rate) => c.(throttle := Some(rate))
    case Close => if c.end.None? then c.(end := Some(ByClose)) else c
    case Reset => c.(end := Some(ByReset))
  }

  function AppliedAll(actions: seq<Action>): Control {
    if actions == [] then DEFAULT_CONTROL else Applied(AppliedAll(actions[..|actions| - 1]), actions[|actions| - 1])
  }

  /** Action `i` is the last that `p` holds of, and no heal follows it. */
  predicate StandsAt(actions: seq<Action>, p: Action -> bool, i: nat) {
    i < |actions| && p(actions[i]) && forall j :: i < j < |actions| ==> !p(actions[j]) && actions[j] != Heal
  }

  ghost predicate Standing(actions: seq<Action>, p: Action -> bool) {
    exists i: nat :: StandsAt(actions, p, i)
  }

  function Stalls(from: Source): Action -> bool {
    (a: Action) => a.Stall? || (a.StallOneWay? && a.fromDialer == from.Dialer?)
  }

  predicate IsDelay(a: Action) { a.Delay? }
  predicate IsThrottle(a: Action) { a.Throttle? }

  /** A direction is stalled exactly while a stall of it stands unhealed. */
  lemma {:induction false} StalledSince(actions: seq<Action>, from: Source)
    ensures Stalled(AppliedAll(actions), from) <==> Standing(actions, Stalls(from))
    decreases |actions|
  {
    if actions != [] {
      var init, last := actions[..|actions| - 1], actions[|actions| - 1];
      StalledSince(init, from);
      assert actions == init + [last];
      StandingStep(init, last, Stalls(from));
    }
  }

  /** A delay is in force exactly while one set since the last heal is; the last one. */
  lemma {:induction false} DelayedSince(actions: seq<Action>)
    ensures AppliedAll(actions).delay.Some? <==> Standing(actions, IsDelay)
    ensures forall i: nat :: StandsAt(actions, IsDelay, i) ==> AppliedAll(actions).delay == Some(actions[i].delay)
    decreases |actions|
  {
    if actions != [] {
      var init, last := actions[..|actions| - 1], actions[|actions| - 1];
      DelayedSince(init);
      assert actions == init + [last];
      StandingStep(init, last, IsDelay);
      assert forall i: nat :: StandsAt(actions, IsDelay, i) && i < |init| ==>
          StandsAt(init, IsDelay, i) && last != Heal && !last.Delay?;
    }
  }

  /** And the same of a throttle. */
  lemma {:induction false} ThrottledSince(actions: seq<Action>)
    ensures AppliedAll(actions).throttle.Some? <==> Standing(actions, IsThrottle)
    ensures forall i: nat :: StandsAt(actions, IsThrottle, i) ==>
              AppliedAll(actions).throttle == Some(actions[i].bytesPerSec)
    decreases |actions|
  {
    if actions != [] {
      var init, last := actions[..|actions| - 1], actions[|actions| - 1];
      ThrottledSince(init);
      assert actions == init + [last];
      StandingStep(init, last, IsThrottle);
      assert forall i: nat :: StandsAt(actions, IsThrottle, i) && i < |init| ==>
          StandsAt(init, IsThrottle, i) && last != Heal && !last.Throttle?;
    }
  }

  /** A close ends the connection, and a reset does even after a close. */
  lemma {:induction false} EndedSince(actions: seq<Action>)
    ensures AppliedAll(actions).end ==
            if Reset in actions then Some(ByReset) else if Close in actions then Some(ByClose) else None
    decreases |actions|
  {
    if actions != [] {
      var init, last := actions[..|actions| - 1], actions[|actions| - 1];
      EndedSince(init);
      assert actions == init + [last];
    }
  }

  lemma StandingStep(init: seq<Action>, last: Action, p: Action -> bool)
    requires !p(Heal)
    ensures Standing(init + [last], p) <==> p(last) || (Standing(init, p) && last != Heal)
  {
    var all := init + [last];
    if p(last) { assert StandsAt(all, p, |init|); }
    if Standing(init, p) && last != Heal && !p(last) {
      var i: nat :| StandsAt(init, p, i);
      assert StandsAt(all, p, i);
    }
    if Standing(all, p) && !p(last) {
      var i: nat :| StandsAt(all, p, i);
      assert all[|init|] == last && forall j :: i <= j < |init| ==> all[j] == init[j];
      assert StandsAt(init, p, i);
    }
  }

  // ---------------------------------------------------------------------------
  // Holding bytes back
  // ---------------------------------------------------------------------------

  /** The throttle's clock: the rate it runs at, and when the next bytes may go. */
  type Pace = Option<(nat, real)>

  /** One look of hold: sleep, or let `n` bytes go. */
  datatype Verdict = Wait(pace: Pace) | Go(pace: Pace, n: nat)

  /** A tenth of a second's worth, and at least one byte. */
  function Burst(rate: nat): nat {
    if rate / 10 < 1 then 1 else rate / 10
  }

  /** How long `n` bytes take at `rate`. */
  function Takes(n: nat, rate: nat): real
    requires rate > 0
  {
    n as real / rate as real
  }

  lemma TakesLonger(m: nat, n: nat, rate: nat)
    requires rate > 0 && m <= n
    ensures Takes(m, rate) <= Takes(n, rate)
  {
  }

  predicate DelayOver(c: Control, now: real, readAt: real) {
    c.delay.Some? ==> readAt + c.delay.value <= now
  }

  function Hold(c: Control, from: Source, now: real, readAt: real, pace: Pace, want: nat): (v: Verdict)
    requires c.throttle.Some? ==> c.throttle.value > 0
    ensures v.Go? ==> !Stalled(c, from) && DelayOver(c, now, readAt)
    ensures v.Go? ==> v.n == if c.throttle.None? then want else Min(want, Max(c.throttle.value / 10, 1))
    ensures v.Wait? && !Stalled(c, from) && DelayOver(c, now, readAt) ==>
              want > 0 && pace.Some? && c.throttle == Some(pace.value.0) && pace.value.1 > now
  {
    if Stalled(c, from) then Wait(pace)
    else if want == 0 || c.throttle.None? then
      if DelayOver(c, now, readAt) then Go(None, want) else Wait(None)
    else
      var rate := c.throttle.value;
      var next := if pace.Some? && pace.value.0 == rate then pace.value.1 else now;
      if next > now || !DelayOver(c, now, readAt) then Wait(Some((rate, next)))
      else
        var n := if want < Burst(rate) then want else Burst(rate);
        Go(Some((rate, now + Takes(n, rate))), n)
  }

  // ---------------------------------------------------------------------------
  // The direction
  // ---------------------------------------------------------------------------

  /** Bytes read at one time; none is the end of the stream. */
  datatype Chunk = Chunk(readAt: real, bytes: seq<Byte>)

  datatype Reader = Reading | Sending(chunk: Chunk) | ReaderDone

  /** The writer waits for a chunk; holds what is `rest` of one, which is nothing for
      the end of stream; writes what hold let go; shuts the stream down. */
  datatype Writer =
    | Receiving
    | Holding(readAt: real, rest: seq<Byte>)
    | Writing(readAt: real, paced: seq<Byte>, rest: seq<Byte>)
    | Closing
    | Finished

  /** `consumed` is every byte read from the socket, `written` every byte written to
      the other one, and `fin` whether its end of stream was sent. */
  datatype Direction = Direction(
    source: Source,
    control: Control,
    now: real,
    reader: Reader,
    queue: seq<Chunk>,
    writer: Writer,
    pace: Pace,
    consumed: seq<Byte>,
    written: seq<Byte>,
    forwarded: nat,
    fin: bool,
    over: bool)

  function Fresh(source: Source): Direction {
    Direction(source, DEFAULT_CONTROL, 0.0, Reading, [], Receiving, None, [], [], 0, false, false)
  }

  datatype Step =
    | Act(action: Action)
    | Tick(passed: real)
    | Read(bytes: seq<Byte>)
    | Send
    | Receive
    | Look
    | Write(n: nat)
    | Shut
    | Break
    | OtherBreaks
    | Stop

  /** What hold is asked for: everything left of the chunk. */
  function Ask(d: Direction): Verdict
    requires d.writer.Holding? && (d.control.throttle.Some? ==> d.control.throttle.value > 0)
  {
    Hold(d.control, d.source, d.now, d.writer.readAt, d.pace, |d.writer.rest|)
  }

  /** A throttle of nothing is not allowed, and time runs forward. Reads, writes and the
      final shutdown are polled after the stall is, so none runs, and none fails, during
      one. The connection's other direction is joined with this one: when its own read or
      write fails, this one ends too. */
  predicate Enabled(d: Direction, step: Step) {
    match step
    case Act(action) => (action.Throttle? ==> action.bytesPerSec > 0) && (action.Delay? ==> action.delay >= 0.0)
    case Tick(passed) => passed >= 0.0
    case Read(bytes) => !d.over && d.reader.Reading? && !Stalled(d.control, d.source) && |bytes| <= CHUNK_SIZE
    case Send => !d.over && d.reader.Sending? && |d.queue| < QUEUED_CHUNKS
    case Receive => !d.over && d.writer.Receiving? && d.queue != []
    case Look => !d.over && d.writer.Holding? && (d.control.throttle.Some? ==> d.control.throttle.value > 0)
    case Write(n) => !d.over && d.writer.Writing? && !Stalled(d.control, d.source) && 1 <= n <= |d.writer.paced|
    case Shut => !d.over && d.writer.Closing? && !Stalled(d.control, d.source)
    case Break => !d.over && !Stalled(d.control, d.source)
    case OtherBreaks => !d.over && !Stalled(d.control, Other(d.source))
    case Stop => !d.over && d.control.end.Some?
  }

  function Looked(d: Direction): Direction
    requires Enabled(d, Look)
  {
    match Ask(d)
    case Wait(pace) => d.(pace := pace)
    case Go(pace, n) =>
      var rest := d.writer.rest;
      if rest == [] then d.(pace := pace, writer := Closing)
      else d.(pace := pace, writer := Writing(d.writer.readAt, rest[..n], rest[n..]))
  }

  function Wrote(w: Writer, n: nat): Writer
    requires w.Writing? && n <= |w.paced|
  {
    if n < |w.paced| then w.(paced := w.paced[n..])
    else if w.rest == [] then Receiving
    else Holding(w.readAt, w.rest)
  }

  function Apply(d: Direction, step: Step): Direction
    requires Enabled(d, step)
  {
    match step
    case Act(action) => d.(control := Applied(d.control, action))
    case Tick(passed) => d.(now := d.now + passed)
    case Read(bytes) => d.(reader := Sending(Chunk(d.now, bytes)), consumed := d.consumed + bytes)
    case Send =>
      d.(queue := d.queue + [d.reader.chunk], reader := if d.reader.chunk.bytes == [] then ReaderDone else Reading)
    case Receive => d.(queue := d.queue[1..], writer := Holding(d.queue[0].readAt, d.queue[0].bytes))
    case Look => Looked(d)
    case Write(n) =>
      d.(written := d.written + d.writer.paced[..n], forwarded := d.forwarded + n, writer := Wrote(d.writer, n))
    case Shut => d.(fin := true, writer := Finished)
    case Break => d.(over := true)
    case OtherBreaks => d.(over := true)
    case Stop => d.(over := true)
  }

  function Next(): (Direction, Step, Direction) -> bool {
    (d, step, d') => Enabled(d, step) && d' == Apply(d, step)
  }

  ghost predicate IsRun(source: Source, states: seq<Direction>, steps: seq<Step>) {
    && |states| == |steps| + 1
    && states[0] == Fresh(source)
    && Linked(Next(), states, steps, 0, |steps|)
  }
}
