/**
 The distributed double-until-threshold loop: every schedule of it against the
 sequential reference.
 */
module IterativeLoop {
  import opened Numbers
  import opened Runs

  newtype i64 = x: int | -0x8000_0000_0000_0000 <= x < 0x8000_0000_0000_0000

  const I64_MAX: int := 0x7fff_ffff_ffff_ffff

  /** The loop's threshold and the number of workers in the cluster. */
  datatype Loop = Loop(threshold: int, workers: nat)

  predicate LoopOk(l: Loop) {
    1 <= l.threshold <= I64_MAX / 2 && l.workers > 0
  }

  /** Where a value leaves the loop, and what it is then. */
  datatype Exit = Exit(worker: nat, result: int)

  // ---------------------------------------------------------------------------
  // The sequential reference
  // ---------------------------------------------------------------------------

  function Leaves(l: Loop, value: int): Exit
    requires l.workers > 0 && value > 0
    decreases l.threshold - value
  {
    if 2 * value >= l.threshold then Exit(value % l.workers, 2 * value) else Leaves(l, 2 * value)
  }

  /** The rounds a value takes. */
  function Rounds(l: Loop, value: int): (k: nat)
    requires value > 0
    ensures k >= 1
    decreases l.threshold - value
  {
    if 2 * value >= l.threshold then 1 else 1 + Rounds(l, 2 * value)
  }

  /** A value leaves after the first round, one at least, that takes it to the threshold,
      from the worker its value had before that round. */
  lemma {:induction false} LeavesAtTheThreshold(l: Loop, value: int)
    requires l.workers > 0 && value > 0
    ensures var k, exit := Rounds(l, value), Leaves(l, value);
            && exit.result == value * Pow2(k) >= l.threshold
            && exit.worker == (value * Pow2(k - 1)) % l.workers
            && forall j :: 1 <= j < k ==> value * Pow2(j) < l.threshold
    decreases l.threshold - value
  {
    assert Pow2(1) == 2 * Pow2(0) == 2;
    if 2 * value < l.threshold {
      LeavesAtTheThreshold(l, 2 * value);
      var k := Rounds(l, value);
      DoubleFirst(value, k - 1);
      DoubleFirst(value, k - 2);
      forall j | 1 <= j < k ensures value * Pow2(j) < l.threshold {
        DoubleFirst(value, j - 1);
        if j > 1 { assert 2 * value * Pow2(j - 1) < l.threshold; }
      }
    }
  }

  lemma DoubleFirst(value: int, k: nat)
    ensures value * Pow2(k + 1) == 2 * value * Pow2(k)
  {
  }

  /** leave_the_loop, in i64 arithmetic: a value that can be doubled once never overflows. */
  method LeaveTheLoop(input: i64, threshold: i64, workers: nat) returns (worker: nat, result: i64)
    requires LoopOk(Loop(threshold as int, workers)) && 0 < input as int <= I64_MAX / 2
    ensures Exit(worker, result as int) == Leaves(Loop(threshold as int, workers), input as int)
  {
    var value := input;
    ghost var l := Loop(threshold as int, workers);
    while true
      invariant 0 < value as int <= I64_MAX / 2
      invariant Leaves(l, value as int) == Leaves(l, input as int)
      decreases threshold as int - value as int
    {
      worker := value as int % workers;
      value := value * 2;
      if value >= threshold {
        return worker, value;
      }
    }
  }

  // ---------------------------------------------------------------------------
  // The cluster
  // ---------------------------------------------------------------------------

  /** A record fed in: the worker it is fed to, its time and its value. */
  datatype Record = Record(worker: nat, time: nat, value: int)

  /** Where one record is: held on a worker, sent by the exchange to another, doubled
      there, or gone out of the loop. */
  datatype Stage =
    | Held(worker: nat, value: int)
    | Sent(worker: nat, value: int)
    | Doubled(worker: nat, value: int)
    | Gone

  /** `stages[i]` is where the i-th record is; `out` is what left, in order. */
  datatype Cluster = Cluster(stages: seq<Stage>, out: seq<Record>)

  function Start(inputs: seq<Record>): Cluster {
    Cluster(seq(|inputs|, i requires 0 <= i < |inputs| => Held(inputs[i].worker, inputs[i].value)), [])
  }

  predicate Enabled(inputs: seq<Record>, c: Cluster, i: nat) {
    i < |c.stages| == |inputs| && !c.stages[i].Gone?
  }

  /** Record `i` takes its next step: the exchange by value, the doubling, or the two
      filters, of which one takes it round again and the other out, on the same worker. */
  function Apply(l: Loop, inputs: seq<Record>, c: Cluster, i: nat): Cluster
    requires Enabled(inputs, c, i) && l.workers > 0
  {
    match c.stages[i]
    case Held(_, value) => c.(stages := c.stages[i := Sent(value % l.workers, value)])
    case Sent(worker, value) => c.(stages := c.stages[i := Doubled(worker, value * 2)])
    case Doubled(worker, value) =>
      if value < l.threshold then c.(stages := c.stages[i := Held(worker, value)])
      else Cluster(c.stages[i := Gone], c.out + [Record(worker, inputs[i].time, value)])
    case Gone => c
  }

  function Next(l: Loop, inputs: seq<Record>): (Cluster, nat, Cluster) -> bool
    requires l.workers > 0
  {
    (c: Cluster, i: nat, c': Cluster) => Enabled(inputs, c, i) && c' == Apply(l, inputs, c, i)
  }

  /** A schedule: which record steps, step after step. */
  ghost predicate IsRun(l: Loop, inputs: seq<Record>, states: seq<Cluster>, schedule: seq<nat>)
    requires l.workers > 0
  {
    && |states| == |schedule| + 1
    && states[0] == Start(inputs)
    && Linked(Next(l, inputs), states, schedule, 0, |schedule|)
  }

  // ---------------------------------------------------------------------------
  // Every step keeps every record on its way
  // ---------------------------------------------------------------------------

  /** Inputs are positive and at most max(threshold - 1, 1). */
  predicate InputsOk(l: Loop, inputs: seq<Record>) {
    forall i :: 0 <= i < |inputs| ==> InRange(l, inputs[i].value)
  }

  lemma FewerInputs(l: Loop, inputs: seq<Record>, n: nat)
    requires InputsOk(l, inputs) && n <= |inputs|
    ensures InputsOk(l, inputs[..n])
  {
    assert forall i :: 0 <= i < n ==> inputs[..n][i] == inputs[i];
  }

  predicate InRange(l: Loop, value: int) {
    0 < value && (value < l.threshold || value == 1)
  }

  /** The input a workload feeds for a random number. */
  function Fed(threshold: int, random: nat): int
    requires threshold >= 1
  {
    1 + random % Max(threshold - 1, 1)
  }

  /** It is in range, and always below the threshold if and only if that is above 1: a
      threshold of 1 is fed the value 1. */
  lemma FedIsBelowExactly(l: Loop, random: nat)
    requires l.threshold >= 1
    ensures InRange(l, Fed(l.threshold, random))
    ensures Fed(l.threshold, random) < l.threshold <==> l.threshold > 1
  {
  }

  /** Every value in range can be fed, and random numbers that far apart feed the same. */
  lemma FedIsEveryInput(threshold: int, value: int, random: nat)
    requires threshold >= 1
    ensures 1 <= value <= Max(threshold - 1, 1) ==> Fed(threshold, value - 1) == value
    ensures Fed(threshold, random + Max(threshold - 1, 1)) == Fed(threshold, random)
  {
    RoundAgain(random, Max(threshold - 1, 1));
  }

  lemma RoundAgain(a: nat, m: nat)
    requires m > 0
    ensures (a + m) % m == a % m
  {
    var q, r := a / m, a % m;
    assert a + m == (q + 1) * m + r;
    Quotient(a + m, m, q + 1, r);
  }

  /** Where a record at this stage will leave. */
  function Destiny(l: Loop, s: Stage): Exit
    requires l.workers > 0 && !s.Gone? && s.value > 0
  {
    if s.Doubled? && s.value >= l.threshold then Exit(s.worker, s.value) else Leaves(l, s.value)
  }

  predicate StageOk(l: Loop, input: Record, s: Stage)
    requires l.workers > 0
  {
    !s.Gone? && input.value > 0 ==>
      && s.value > 0
      && Destiny(l, s) == Leaves(l, input.value)
      && (s.Sent? ==> s.worker == s.value % l.workers)
      && (s.Doubled? ==> s.value % 2 == 0 && s.worker == (s.value / 2) % l.workers && InRange(l, s.value / 2))
      && (s.Held? || s.Sent? ==> InRange(l, s.value))
  }

  function Outcome(l: Loop, input: Record): Record
    requires l.workers > 0 && InRange(l, input.value)
  {
    var exit := Leaves(l, input.value);
    Record(exit.worker, input.time, exit.result)
  }

  /** What every input comes to, by the reference. */
  function Outcomes(l: Loop, inputs: seq<Record>): (r: seq<Record>)
    requires l.workers > 0 && InputsOk(l, inputs)
    ensures |r| == |inputs| && forall i :: 0 <= i < |inputs| ==> r[i] == Outcome(l, inputs[i])
  {
    seq(|inputs|, i requires 0 <= i < |inputs| => Outcome(l, inputs[i]))
  }

  /** The outcomes of the records that have left. */
  function Departed(outcomes: seq<Record>, stages: seq<Stage>): multiset<Record>
    requires |stages| == |outcomes|
  {
    if outcomes == [] then multiset{}
    else
      var last := |outcomes| - 1;
      Departed(outcomes[..last], stages[..last]) + if stages[last].Gone? then multiset{outcomes[last]} else multiset{}
  }

  ghost predicate Inv(l: Loop, inputs: seq<Record>, c: Cluster)
    requires l.workers > 0 && InputsOk(l, inputs)
  {
    && |c.stages| == |inputs|
    && (forall i :: 0 <= i < |inputs| ==> StageOk(l, inputs[i], c.stages[i]))
    && multiset(c.out) == Departed(Outcomes(l, inputs), c.stages)
  }

  /** One more record gone is one more outcome; any other step changes none. */
  lemma {:induction false} DepartedStep(outcomes: seq<Record>, stages: seq<Stage>, i: nat, s: Stage)
    requires |stages| == |outcomes| && i < |outcomes| && !stages[i].Gone?
    ensures Departed(outcomes, stages[i := s]) ==
            Departed(outcomes, stages) + if s.Gone? then multiset{outcomes[i]} else multiset{}
    decreases |outcomes|
  {
    var last := |outcomes| - 1;
    SliceUpdated(stages, i, s, last);
    if i < last {
      DepartedStep(outcomes[..last], stages[..last], i, s);
      SwapAdded(Departed(outcomes[..last], stages[..last]),
                if s.Gone? then multiset{outcomes[i]} else multiset{},
                if stages[last].Gone? then multiset{outcomes[last]} else multiset{});
    }
  }

  lemma SliceUpdated(stages: seq<Stage>, i: nat, s: Stage, n: nat)
    requires i < |stages| && n <= |stages|
    ensures stages[i := s][..n] == if i < n then stages[..n][i := s] else stages[..n]
  {
  }

  lemma SwapAdded(a: multiset<Record>, b: multiset<Record>, c: multiset<Record>)
    ensures a + b + c == a + c + b
  {
  }

  /** A stage's next, unless it goes out. */
  lemma StageAdvances(l: Loop, inputs: seq<Record>, c: Cluster, i: nat)
    requires LoopOk(l) && InputsOk(l, inputs) && Inv(l, inputs, c) && Enabled(inputs, c, i)
    ensures StageOk(l, inputs[i], Apply(l, inputs, c, i).stages[i])
    ensures Apply(l, inputs, c, i).stages[i].Gone? ==>
              Apply(l, inputs, c, i).out == c.out + [Outcome(l, inputs[i])]
  {
    assert StageOk(l, inputs[i], c.stages[i]);
  }

  lemma StepKeepsInv(l: Loop, inputs: seq<Record>, c: Cluster, i: nat)
    requires LoopOk(l) && InputsOk(l, inputs) && Inv(l, inputs, c) && Enabled(inputs, c, i)
    ensures Inv(l, inputs, Apply(l, inputs, c, i))
  {
    var c' := Apply(l, inputs, c, i);
    StageAdvances(l, inputs, c, i);
    DepartedStep(Outcomes(l, inputs), c.stages, i, c'.stages[i]);
    assert c'.stages == c.stages[i := c'.stages[i]];
  }

  lemma {:induction false} NothingDeparted(outcomes: seq<Record>, stages: seq<Stage>)
    requires |stages| == |outcomes| && forall i :: 0 <= i < |stages| ==> !stages[i].Gone?
    ensures Departed(outcomes, stages) == multiset{}
    decreases |outcomes|
  {
    if outcomes != [] { NothingDeparted(outcomes[..|outcomes| - 1], stages[..|outcomes| - 1]); }
  }

  lemma {:induction false} AllDeparted(outcomes: seq<Record>, stages: seq<Stage>)
    requires |stages| == |outcomes| && forall i :: 0 <= i < |stages| ==> stages[i].Gone?
    ensures Departed(outcomes, stages) == multiset(outcomes)
    decreases |outcomes|
  {
    if outcomes != [] {
      var last := |outcomes| - 1;
      AllDeparted(outcomes[..last], stages[..last]);
      assert outcomes == outcomes[..last] + [outcomes[last]];
    }
  }

  lemma RunKeepsInv(l: Loop, inputs: seq<Record>, states: seq<Cluster>, schedule: seq<nat>, k: nat)
    requires LoopOk(l) && InputsOk(l, inputs) && IsRun(l, inputs, states, schedule) && k < |states|
    ensures Inv(l, inputs, states[k])
  {
    NothingDeparted(Outcomes(l, inputs), Start(inputs).stages);
    forall c, i, c' | Next(l, inputs)(c, i, c') && Inv(l, inputs, c) ensures Inv(l, inputs, c') {
      StepKeepsInv(l, inputs, c, i);
    }
    Stays(Next(l, inputs), c => Inv(l, inputs, c), states, schedule, 0, k);
  }

  // ---------------------------------------------------------------------------
  // Every schedule ends
  // ---------------------------------------------------------------------------

  /** The steps a record still takes. */
  function Work(l: Loop, s: Stage): nat
    requires !s.Gone? ==> s.value > 0
  {
    match s
    case Held(_, value) => 3 * Rounds(l, value)
    case Sent(_, value) => 3 * Rounds(l, value) - 1
    case Doubled(_, value) => if value >= l.threshold then 1 else 3 * Rounds(l, value) + 1
    case Gone => 0
  }

  predicate Positive(stages: seq<Stage>) {
    forall i :: 0 <= i < |stages| && !stages[i].Gone? ==> stages[i].value > 0
  }

  function TotalWork(l: Loop, stages: seq<Stage>): nat
    requires Positive(stages)
  {
    if stages == [] then 0
    else
      var last := |stages| - 1;
      assert Positive(stages[..last]) by { assert forall i :: 0 <= i < last ==> stages[..last][i] == stages[i]; }
      TotalWork(l, stages[..last]) + Work(l, stages[last])
  }

  lemma {:induction false} OneWorksOff(l: Loop, stages: seq<Stage>, i: nat, s: Stage)
    requires Positive(stages) && i < |stages| && (!s.Gone? ==> s.value > 0)
    ensures Positive(stages[i := s])
    ensures TotalWork(l, stages[i := s]) - TotalWork(l, stages) == Work(l, s) - Work(l, stages[i])
    decreases |stages|
  {
    var last := |stages| - 1;
    if i == last {
      assert stages[i := s][..last] == stages[..last];
    } else {
      assert Positive(stages[..last]) by { assert forall k :: 0 <= k < last ==> stages[..last][k] == stages[k]; }
      OneWorksOff(l, stages[..last], i, s);
      assert stages[i := s][..last] == stages[..last][i := s];
    }
  }

  lemma InvIsPositive(l: Loop, inputs: seq<Record>, c: Cluster)
    requires l.workers > 0 && InputsOk(l, inputs) && Inv(l, inputs, c)
    ensures Positive(c.stages)
  {
    forall i | 0 <= i < |c.stages| && !c.stages[i].Gone? ensures c.stages[i].value > 0 {
      assert StageOk(l, inputs[i], c.stages[i]) && InRange(l, inputs[i].value);
    }
  }

  lemma StageWorks(l: Loop, inputs: seq<Record>, c: Cluster, i: nat)
    requires l.workers > 0 && Enabled(inputs, c, i) && c.stages[i].value > 0
    ensures var s' := Apply(l, inputs, c, i).stages[i];
            (!s'.Gone? ==> s'.value > 0) && Work(l, s') == Work(l, c.stages[i]) - 1
    ensures Apply(l, inputs, c, i).stages == c.stages[i := Apply(l, inputs, c, i).stages[i]]
  {
  }

  /** Each step is one less to take. */
  lemma StepIsWork(l: Loop, inputs: seq<Record>, c: Cluster, i: nat)
    requires LoopOk(l) && InputsOk(l, inputs) && Inv(l, inputs, c) && Enabled(inputs, c, i)
    ensures Positive(c.stages) && Positive(Apply(l, inputs, c, i).stages)
    ensures TotalWork(l, Apply(l, inputs, c, i).stages) == TotalWork(l, c.stages) - 1
  {
    InvIsPositive(l, inputs, c);
    StageWorks(l, inputs, c, i);
    OneWorksOff(l, c.stages, i, Apply(l, inputs, c, i).stages[i]);
  }

  lemma RunStepIsWork(l: Loop, inputs: seq<Record>, states: seq<Cluster>, schedule: seq<nat>, k: nat)
    requires LoopOk(l) && InputsOk(l, inputs) && IsRun(l, inputs, states, schedule) && k < |schedule|
    ensures Positive(states[k].stages) && Positive(states[k + 1].stages)
    ensures TotalWork(l, states[k + 1].stages) == TotalWork(l, states[k].stages) - 1
  {
    RunKeepsInv(l, inputs, states, schedule, k);
    assert Next(l, inputs)(states[k], schedule[k], states[k + 1]);
    StepIsWork(l, inputs, states[k], schedule[k]);
  }

  lemma StartIsPositive(l: Loop, inputs: seq<Record>)
    requires InputsOk(l, inputs)
    ensures Positive(Start(inputs).stages)
  {
    forall i | 0 <= i < |inputs| ensures inputs[i].value > 0 { assert InRange(l, inputs[i].value); }
  }

  lemma {:induction false} StepsAreWork(l: Loop, inputs: seq<Record>, states: seq<Cluster>, schedule: seq<nat>, k: nat)
    requires LoopOk(l) && InputsOk(l, inputs) && IsRun(l, inputs, states, schedule) && k < |states|
    ensures Positive(Start(inputs).stages) && Positive(states[k].stages)
    ensures k + TotalWork(l, states[k].stages) == TotalWork(l, Start(inputs).stages)
  {
    StartIsPositive(l, inputs);
    if k > 0 {
      StepsAreWork(l, inputs, states, schedule, k - 1);
      RunStepIsWork(l, inputs, states, schedule, k - 1);
    }
  }

  lemma WorkMeansEnabled(l: Loop, inputs: seq<Record>, c: Cluster)
    requires |c.stages| == |inputs| && Positive(c.stages)
    ensures TotalWork(l, c.stages) > 0 <==> exists i :: Enabled(inputs, c, i)
  {
    WorkMeansUnfinished(l, c.stages);
    if i: nat :| i < |inputs| && !c.stages[i].Gone? { assert Enabled(inputs, c, i); }
  }

  /** Every schedule ends, after exactly as many steps as the inputs call for: it takes
      no more, and it can go on until every record has left. */
  lemma EverySchedule(l: Loop, inputs: seq<Record>, states: seq<Cluster>, schedule: seq<nat>, k: nat)
    requires LoopOk(l) && InputsOk(l, inputs) && IsRun(l, inputs, states, schedule) && k < |states|
    ensures Positive(Start(inputs).stages) && Positive(states[k].stages)
    ensures k + TotalWork(l, states[k].stages) == TotalWork(l, Start(inputs).stages)
    ensures TotalWork(l, states[k].stages) > 0 <==> exists i :: Enabled(inputs, states[k], i)
  {
    RunKeepsInv(l, inputs, states, schedule, k);
    StepsAreWork(l, inputs, states, schedule, k);
    WorkMeansEnabled(l, inputs, states[k]);
  }

  lemma {:induction false} WorkMeansUnfinished(l: Loop, stages: seq<Stage>)
    requires Positive(stages)
    ensures TotalWork(l, stages) > 0 <==> exists i :: 0 <= i < |stages| && !stages[i].Gone?
    decreases |stages|
  {
    if stages != [] {
      var last := |stages| - 1;
      assert Positive(stages[..last]) by { assert forall k :: 0 <= k < last ==> stages[..last][k] == stages[k]; }
      WorkMeansUnfinished(l, stages[..last]);
      assert forall i :: 0 <= i < last ==> stages[..last][i] == stages[i];
    }
  }

  /** No value ever leaves the range of an i64. */
  lemma NothingOverflows(l: Loop, inputs: seq<Record>, states: seq<Cluster>, schedule: seq<nat>, k: nat, i: nat)
    requires LoopOk(l) && InputsOk(l, inputs) && IsRun(l, inputs, states, schedule) && k < |states| && i < |inputs|
    ensures i < |states[k].stages|
    ensures !states[k].stages[i].Gone? ==> 0 < states[k].stages[i].value <= I64_MAX
  {
    RunKeepsInv(l, inputs, states, schedule, k);
    assert StageOk(l, inputs[i], states[k].stages[i]) && InRange(l, inputs[i].value);
  }

  // ---------------------------------------------------------------------------
  // What each worker ends up with
  // ---------------------------------------------------------------------------

  /** The records that left on `worker`, in order, with their times. */
  function On(out: seq<Record>, worker: nat): seq<(nat, int)> {
    if out == [] then []
    else
      var last := out[|out| - 1];
      On(out[..|out| - 1], worker) + if last.worker == worker then [(last.time, last.value)] else []
  }

  /** The sequential reference: every input's exit, if it is on `worker`. */
  function Reference(l: Loop, inputs: seq<Record>, worker: nat): seq<(nat, int)>
    requires l.workers > 0 && InputsOk(l, inputs)
  {
    if inputs == [] then []
    else
      var last := |inputs| - 1;
      FewerInputs(l, inputs, last);
      Reference(l, inputs[..last], worker) + Share(l, inputs[last], worker)
  }

  /** One input's exit, if it is on `worker`. */
  function Share(l: Loop, input: Record, worker: nat): seq<(nat, int)>
    requires l.workers > 0 && InRange(l, input.value)
  {
    var exit := Leaves(l, input.value);
    if exit.worker == worker then [(input.time, exit.result)] else []
  }

  lemma {:induction false} OnCounts(out: seq<Record>, worker: nat, time: nat, value: int)
    ensures multiset(On(out, worker))[(time, value)] == multiset(out)[Record(worker, time, value)]
    decreases |out|
  {
    if out != [] {
      OnCounts(out[..|out| - 1], worker, time, value);
      assert out == out[..|out| - 1] + [out[|out| - 1]];
    }
  }

  lemma {:induction false} ReferenceIsOn(l: Loop, inputs: seq<Record>, worker: nat)
    requires l.workers > 0 && InputsOk(l, inputs)
    ensures Reference(l, inputs, worker) == On(Outcomes(l, inputs), worker)
    decreases |inputs|
  {
    if inputs != [] {
      var last := |inputs| - 1;
      FewerInputs(l, inputs, last);
      ReferenceIsOn(l, inputs[..last], worker);
      assert Outcomes(l, inputs)[..last] == Outcomes(l, inputs[..last]);
    }
  }

  lemma SameRecordsSameShares(a: seq<Record>, b: seq<Record>, worker: nat)
    requires multiset(a) == multiset(b)
    ensures multiset(On(a, worker)) == multiset(On(b, worker))
  {
    forall r: (nat, int) ensures multiset(On(a, worker))[r] == multiset(On(b, worker))[r] {
      OnCounts(a, worker, r.0, r.1);
      OnCounts(b, worker, r.0, r.1);
    }
    SameCounts(multiset(On(a, worker)), multiset(On(b, worker)));
  }

  /** When nothing is left to do, every worker has put out exactly what the reference
      gives it, time by time, whatever the schedule was and wherever the records came in. */
  lemma SchedulesAgree(l: Loop, inputs: seq<Record>, states: seq<Cluster>, schedule: seq<nat>, k: nat, worker: nat)
    requires LoopOk(l) && InputsOk(l, inputs) && IsRun(l, inputs, states, schedule) && k < |states|
    requires forall i :: !Enabled(inputs, states[k], i)
    ensures multiset(On(states[k].out, worker)) == multiset(Reference(l, inputs, worker))
  {
    RunKeepsInv(l, inputs, states, schedule, k);
    var c := states[k];
    assert forall i :: 0 <= i < |c.stages| ==> Enabled(inputs, c, i) || c.stages[i].Gone?;
    AllDeparted(Outcomes(l, inputs), c.stages);
    SameRecordsSameShares(c.out, Outcomes(l, inputs), worker);
    ReferenceIsOn(l, inputs, worker);
  }

  lemma SameCounts(a: multiset<(nat, int)>, b: multiset<(nat, int)>)
    requires forall r: (nat, int) :: a[r] == b[r]
    ensures a == b
  {
  }
}
