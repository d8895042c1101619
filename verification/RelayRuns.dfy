/**
 The relay copies the stream in order, whatever is stalled, delayed or throttled.
 */
module RelayRuns {
  import opened Options
  import opened Bytes
  import opened Runs
  import opened Relay

  // ---------------------------------------------------------------------------
  // The invariant
  // ---------------------------------------------------------------------------

  function AllBytes(chunks: seq<Chunk>): seq<Byte> {
    if chunks == [] then [] else chunks[0].bytes + AllBytes(chunks[1..])
  }

  function InReader(r: Reader): seq<Byte> {
    if r.Sending? then r.chunk.bytes else []
  }

  function InWriter(w: Writer): seq<Byte> {
    if w.Holding? then w.rest else if w.Writing? then w.paced + w.rest else []
  }

  /** What was read is what was written, then what the writer has, then what is
      queued, then what the reader has. */
  predicate Conserved(d: Direction) {
    d.consumed == d.written + InWriter(d.writer) + AllBytes(d.queue) + InReader(d.reader)
  }

  /** The writer has taken the end of stream. */
  predicate AtEnd(w: Writer) {
    (w.Holding? && w.rest == []) || w.Closing? || w.Finished?
  }

  /** The end of stream is the last chunk of all. */
  predicate EndOk(d: Direction) {
    && (forall i :: 0 <= i < |d.queue| && d.queue[i].bytes == [] ==> i == |d.queue| - 1 && d.reader.ReaderDone?)
    && (AtEnd(d.writer) ==> d.queue == [] && d.reader.ReaderDone?)
    && (d.reader.ReaderDone? && !AtEnd(d.writer) ==> d.queue != [] && d.queue[|d.queue| - 1].bytes == [])
    && (d.fin <==> d.writer.Finished?)
    && (d.writer.Writing? ==> d.writer.paced != [])
  }

  predicate SizesOk(d: Direction) {
    && |d.queue| <= QUEUED_CHUNKS
    && (forall i :: 0 <= i < |d.queue| ==> |d.queue[i].bytes| <= CHUNK_SIZE)
    && |InReader(d.reader)| <= CHUNK_SIZE
    && |InWriter(d.writer)| <= CHUNK_SIZE
  }

  predicate ControlOk(d: Direction) {
    && (d.control.throttle.Some? ==> d.control.throttle.value > 0)
    && (d.pace.Some? ==> d.pace.value.0 > 0)
  }

  predicate Inv(d: Direction) {
    Conserved(d) && EndOk(d) && SizesOk(d) && ControlOk(d) && d.forwarded == |d.written|
  }

  // ---------------------------------------------------------------------------
  // Every step keeps it
  // ---------------------------------------------------------------------------

  lemma {:induction false} BytesAppend(chunks: seq<Chunk>, c: Chunk)
    ensures AllBytes(chunks + [c]) == AllBytes(chunks) + c.bytes
    decreases |chunks|
  {
    if chunks != [] {
      BytesAppend(chunks[1..], c);
      assert (chunks + [c])[1..] == chunks[1..] + [c];
    }
  }

  lemma ReaderStepKeepsInv(d: Direction, step: Step)
    requires Inv(d) && Enabled(d, step) && (step.Read? || step.Send?)
    ensures Inv(Apply(d, step))
  {
    if step.Send? {
      BytesAppend(d.queue, d.reader.chunk);
      SendConserves(d.written + InWriter(d.writer), AllBytes(d.queue), d.reader.chunk.bytes);
    } else {
      assert d.consumed == d.consumed + [];
    }
  }

  lemma SendConserves(front: seq<Byte>, queued: seq<Byte>, last: seq<Byte>)
    ensures front + queued + last == front + (queued + last) + []
  {
  }

  lemma ReceiveKeepsInv(d: Direction)
    requires Inv(d) && Enabled(d, Receive)
    ensures Inv(Apply(d, Receive))
  {
    ReceiveConserves(d.written, d.queue[0].bytes, AllBytes(d.queue[1..]), InReader(d.reader));
  }

  lemma ReceiveConserves(front: seq<Byte>, first: seq<Byte>, queued: seq<Byte>, last: seq<Byte>)
    ensures front + [] + (first + queued) + last == front + first + queued + last
  {
    assert front + [] == front;
    assert front + (first + queued) == front + first + queued;
  }

  lemma LookConserves(d: Direction)
    requires Conserved(d) && Enabled(d, Look)
    ensures InWriter(Apply(d, Look).writer) == InWriter(d.writer) && Conserved(Apply(d, Look))
  {
    var v, rest := Ask(d), d.writer.rest;
    if v.Go? { assert rest[..v.n] + rest[v.n..] == rest; }
  }

  lemma LookKeepsInv(d: Direction)
    requires Inv(d) && Enabled(d, Look)
    ensures Inv(Apply(d, Look))
  {
    LookConserves(d);
  }

  lemma WroteSplits(w: Writer, n: nat)
    requires w.Writing? && n <= |w.paced|
    ensures InWriter(w) == w.paced[..n] + InWriter(Wrote(w, n))
  {
    assert w.paced == w.paced[..n] + w.paced[n..];
  }

  lemma WriteKeepsConserved(d: Direction, n: nat)
    requires Conserved(d) && Enabled(d, Write(n))
    ensures Conserved(Apply(d, Write(n)))
  {
    WroteSplits(d.writer, n);
    WriteConserves(d.written, d.writer.paced[..n], InWriter(Wrote(d.writer, n)));
  }

  lemma WriteKeepsInv(d: Direction, n: nat)
    requires Inv(d) && Enabled(d, Write(n))
    ensures Inv(Apply(d, Write(n)))
  {
    WriteKeepsConserved(d, n);
    WroteSplits(d.writer, n);
  }

  lemma WriteConserves(front: seq<Byte>, first: seq<Byte>, rest: seq<Byte>)
    ensures front + (first + rest) == front + first + rest
  {
  }

  lemma StepKeepsInv(d: Direction, step: Step)
    requires Inv(d) && Enabled(d, step)
    ensures Inv(Apply(d, step))
  {
    match step
    case Read(_) => ReaderStepKeepsInv(d, step);
    case Send => ReaderStepKeepsInv(d, step);
    case Receive => ReceiveKeepsInv(d);
    case Look => LookKeepsInv(d);
    case Write(n) => WriteKeepsInv(d, n);
    case _ =>
  }

  lemma RunKeepsInv(source: Source, states: seq<Direction>, steps: seq<Step>, k: nat)
    requires IsRun(source, states, steps) && k < |states|
    ensures Inv(states[k])
  {
    forall d, step, d' | Next()(d, step, d') && Inv(d) ensures Inv(d') { StepKeepsInv(d, step); }
    Stays(Next(), d => Inv(d), states, steps, 0, k);
  }

  // ---------------------------------------------------------------------------
  // What the two sides can rely on
  // ---------------------------------------------------------------------------

  /** At every moment the bytes written are the first of the bytes read, in order; the
      others are on their way, in order; and the count of forwarded bytes is right. */
  lemma CopiesInOrder(source: Source, states: seq<Direction>, steps: seq<Step>, k: nat)
    requires IsRun(source, states, steps) && k < |states|
    ensures var d := states[k];
            && d.consumed == d.written + (InWriter(d.writer) + AllBytes(d.queue) + InReader(d.reader))
            && d.forwarded == |d.written|
  {
    RunKeepsInv(source, states, steps, k);
    var d := states[k];
    WriteConserves(d.written, InWriter(d.writer), AllBytes(d.queue));
    WriteConserves(d.written, InWriter(d.writer) + AllBytes(d.queue), InReader(d.reader));
  }

  /** The end of stream follows every byte: once it is sent, all that was ever read
      has been written, and neither changes again. */
  lemma FinFollowsEveryByte(source: Source, states: seq<Direction>, steps: seq<Step>, i: nat, j: nat)
    requires IsRun(source, states, steps) && i <= j < |states| && states[i].fin
    ensures states[j].fin && states[j].written == states[j].consumed == states[i].consumed
  {
    var ended := d => Inv(d) && d.fin && d.written == d.consumed == states[i].consumed;
    forall d, step, d' | Next()(d, step, d') && ended(d) ensures ended(d') { StepKeepsInv(d, step); }
    RunKeepsInv(source, states, steps, i);
    EndIsComplete(states[i]);
    Stays(Next(), ended, states, steps, i, j);
  }

  lemma EndIsComplete(d: Direction)
    requires Inv(d) && d.fin
    ensures d.written == d.consumed
  {
    assert AtEnd(d.writer) && d.queue == [] && d.written + [] + [] + [] == d.written;
  }

  /** While its direction is stalled nothing is read, written or shut down, and no read or
      write of its own fails. It may still end: by an action, or with the other direction
      unless that is stalled too. */
  lemma StalledIsStill(source: Source, states: seq<Direction>, steps: seq<Step>, k: nat)
    requires IsRun(source, states, steps) && k < |steps| && Stalled(states[k].control, states[k].source)
    ensures states[k + 1].consumed == states[k].consumed && states[k + 1].written == states[k].written
    ensures states[k + 1].fin == states[k].fin && states[k + 1].forwarded == states[k].forwarded
    ensures !steps[k].Break?
    ensures states[k + 1].over ==>
              states[k].over || states[k].control.end.Some? || !Stalled(states[k].control, Other(states[k].source))
  {
    assert Next()(states[k], steps[k], states[k + 1]);
  }

  /** Exactly then: a stalled direction can end if and only if the connection was told to
      end or the other direction is not stalled. */
  lemma StalledEndsExactly(d: Direction)
    requires Stalled(d.control, d.source) && !d.over
    ensures (exists step :: Enabled(d, step) && Apply(d, step).over) <==>
            d.control.end.Some? || !Stalled(d.control, Other(d.source))
  {
    if d.control.end.Some? { assert Enabled(d, Stop) && Apply(d, Stop).over; }
    if !Stalled(d.control, Other(d.source)) { assert Enabled(d, OtherBreaks) && Apply(d, OtherBreaks).over; }
  }

  lemma {:induction false} BytesBounded(chunks: seq<Chunk>)
    requires forall i :: 0 <= i < |chunks| ==> |chunks[i].bytes| <= CHUNK_SIZE
    ensures |AllBytes(chunks)| <= |chunks| * CHUNK_SIZE
    decreases |chunks|
  {
    if chunks != [] { BytesBounded(chunks[1..]); }
  }

  /** The relay never holds more than 18 chunks' worth: 288 KiB. */
  lemma HoldsLittle(source: Source, states: seq<Direction>, steps: seq<Step>, k: nat)
    requires IsRun(source, states, steps) && k < |states|
    ensures |states[k].consumed| - |states[k].written| <= 18 * 16384
  {
    RunKeepsInv(source, states, steps, k);
    BytesBounded(states[k].queue);
  }

  lemma RunGoesOn(source: Source, states: seq<Direction>, steps: seq<Step>, step: Step)
    requires IsRun(source, states, steps) && Enabled(states[|steps|], step)
    ensures IsRun(source, states + [Apply(states[|steps|], step)], steps + [step])
  {
  }

  /** `n` chunks are queued and one is with the writer, all of them full. */
  predicate Filled(d: Direction, n: nat) {
    && d.control == DEFAULT_CONTROL && !d.over && d.reader.Reading? && d.writer.Holding? && |d.queue| == n
    && |d.consumed| - |d.written| == 16384 * (n + 1)
  }

  /** And it can hold that much: 18 full chunks, 16 of them queued. */
  lemma HoldsThatMuch(source: Source, bytes: seq<Byte>) returns (states: seq<Direction>, steps: seq<Step>)
    requires |bytes| == 16384
    ensures IsRun(source, states, steps)
    ensures |states[|steps|].consumed| - |states[|steps|].written| == 18 * 16384
  {
    states, steps := FirstChunk(source, bytes);
    var n := 0;
    while n < 16
      invariant n <= 16 && IsRun(source, states, steps) && Filled(states[|steps|], n)
    {
      states, steps := OneChunkMore(source, bytes, states, steps, n);
      n := n + 1;
    }
    RunGoesOn(source, states, steps, Read(bytes));
    states, steps := states + [Apply(states[|steps|], Read(bytes))], steps + [Read(bytes)];
  }

  lemma FirstChunk(source: Source, bytes: seq<Byte>) returns (states: seq<Direction>, steps: seq<Step>)
    requires |bytes| == 16384
    ensures IsRun(source, states, steps) && Filled(states[|steps|], 0)
  {
    var d0 := Fresh(source);
    var d1 := Apply(d0, Read(bytes));
    var d2 := Apply(d1, Send);
    states, steps := [d0, d1, d2, Apply(d2, Receive)], [Read(bytes), Send, Receive];
  }

  lemma OneChunkMore(source: Source, bytes: seq<Byte>, states: seq<Direction>, steps: seq<Step>, n: nat)
    returns (states': seq<Direction>, steps': seq<Step>)
    requires IsRun(source, states, steps) && |bytes| == 16384 && n < 16 && Filled(states[|steps|], n)
    ensures IsRun(source, states', steps') && Filled(states'[|steps'|], n + 1)
  {
    RunGoesOn(source, states, steps, Read(bytes));
    states', steps' := states + [Apply(states[|steps|], Read(bytes))], steps + [Read(bytes)];
    RunGoesOn(source, states', steps', Send);
    states', steps' := states' + [Apply(states'[|steps'|], Send)], steps' + [Send];
  }
}
