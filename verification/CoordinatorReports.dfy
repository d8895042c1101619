/**
 What the coordinator knows of a node, over every run: how each dataflow ended is what
 the node last reported of it, and the connection's problem is the one it ended with.
 */
module CoordinatorReports {
  import opened Options
  import opened Runs
  import opened Coordinator
  import opened CoordinatorRuns

  lemma StepOf(states: seq<State>, steps: seq<Step>, k: nat)
    requires IsRun(states, steps) && k < |steps|
    ensures Enabled(states[k], steps[k]) && states[k + 1] == Apply(states[k], steps[k])
  {
    assert Next()(states[k], steps[k], states[k + 1]);
  }

  // ---------------------------------------------------------------------------
  // Outcomes
  // ---------------------------------------------------------------------------

  /** The step delivers a report that `dataflow` completed. */
  predicate Reports(step: Step, dataflow: string) {
    step.Deliver? && step.m.DataflowCompleted? && step.m.dataflow == dataflow
  }

  ghost predicate Reported(steps: seq<Step>, k: nat, dataflow: string)
    requires k <= |steps|
  {
    exists i :: 0 <= i < k && Reports(steps[i], dataflow)
  }

  /** Step `i` is the last of the first `k` that reports `dataflow`. */
  predicate LastReport(steps: seq<Step>, k: nat, i: nat, dataflow: string)
    requires k <= |steps|
  {
    i < k && Reports(steps[i], dataflow) && forall j :: i < j < k ==> !Reports(steps[j], dataflow)
  }

  /** `outcome` is what the report says: success, or its error text if it has one. */
  predicate Says(m: Message, outcome: Outcome)
    requires m.DataflowCompleted?
  {
    && (m.success <==> outcome.Completed?)
    && (!m.success ==> outcome.Failed? && outcome.error == if m.error.Some? then m.error.value else "")
  }

  /** A report sets its own dataflow's outcome, and nothing else changes any. */
  lemma StepReports(s: State, step: Step, dataflow: string)
    requires Enabled(s, step)
    ensures var before, after := s.control.outcomes, Apply(s, step).control.outcomes;
            if Reports(step, dataflow) then dataflow in after && Says(step.m, after[dataflow])
            else
              && (dataflow in after <==> dataflow in before)
              && (dataflow in before ==> after[dataflow] == before[dataflow])
  {
  }

  /** A dataflow has an outcome if and only if the node reported that it completed, and it
      is what the last report of it says. */
  lemma {:induction false} OutcomesAreReported(states: seq<State>, steps: seq<Step>, k: nat, dataflow: string)
    requires IsRun(states, steps) && k < |states|
    ensures dataflow in states[k].control.outcomes <==> Reported(steps, k, dataflow)
    ensures forall i: nat :: LastReport(steps, k, i, dataflow) ==>
              dataflow in states[k].control.outcomes && Says(steps[i].m, states[k].control.outcomes[dataflow])
  {
    if k > 0 {
      OutcomesAreReported(states, steps, k - 1, dataflow);
      StepOf(states, steps, k - 1);
      StepReports(states[k - 1], steps[k - 1], dataflow);
      if Reports(steps[k - 1], dataflow) {
        assert Reported(steps, k, dataflow) && LastReport(steps, k, k - 1, dataflow);
      } else {
        EarlierReports(steps, k, dataflow);
      }
    }
  }

  lemma EarlierReports(steps: seq<Step>, k: nat, dataflow: string)
    requires 0 < k <= |steps| && !Reports(steps[k - 1], dataflow)
    ensures Reported(steps, k, dataflow) <==> Reported(steps, k - 1, dataflow)
    ensures forall i: nat :: LastReport(steps, k, i, dataflow) ==> LastReport(steps, k - 1, i, dataflow)
  {
  }

  // ---------------------------------------------------------------------------
  // What the protocol allows
  // ---------------------------------------------------------------------------

  /** The request was entered and has no answer yet. */
  predicate Awaited(s: State, id: RequestId) {
    id < |s.sends| && !s.sends[id].Numbered? && AnswersTo(s.control, id) == []
  }

  /** The connection ends because `dataflow` was reported again, and says what was reported
      first. */
  predicate EndsOverSecondReport(steps: seq<Step>, k: nat, dataflow: string, reader: Reader)
    requires k <= |steps|
  {
    && reader.Closing? && reader.problem.Some? && reader.problem.value.CompletedTwice?
    && reader.problem.value.dataflow == dataflow
    && forall i :: 0 <= i < k && LastReport(steps, k, i, dataflow) ==> Says(steps[i].m, reader.problem.value.first)
  }

  /** A delivery is allowed exactly when it answers a request that awaits its answer or
      reports a dataflow for the first time; otherwise the connection ends, and says why. */
  lemma AllowedExactly(states: seq<State>, steps: seq<Step>, k: nat)
    requires IsRun(states, steps) && k < |steps| && steps[k].Deliver?
    ensures var m, reader := steps[k].m, states[k + 1].reader;
            match m
            case ResponseTo(id, text) =>
              if Awaited(states[k], id) then reader.Reading? && AnswersTo(states[k + 1].control, id) == [Answer(text)]
              else reader == Closing(Some(UnknownRequest(id, text)))
            case DataflowCompleted(dataflow, _, _) =>
              if Reported(steps, k, dataflow) then EndsOverSecondReport(steps, k, dataflow, reader) else reader.Reading?
            case Command(text) => reader == Closing(Some(SentCommand(text)))
  {
    StepOf(states, steps, k);
    match steps[k].m
    case ResponseTo(id, _) =>
      RunKeepsInv(states, steps, k);
      assert RequestOk(states[k], id);
    case DataflowCompleted(dataflow, _, _) => OutcomesAreReported(states, steps, k, dataflow);
    case Command(_) =>
  }

  // ---------------------------------------------------------------------------
  // The problem the connection ended with
  // ---------------------------------------------------------------------------

  /** The step ends the reading, with `problem`. */
  predicate EndsReading(s: State, step: Step, s': State, problem: Option<Problem>) {
    s.reader.Reading? && (step.Hangup? || step.Deliver?) && s'.reader == Closing(problem)
  }

  lemma HangupEndsReading(states: seq<State>, steps: seq<Step>, i: nat)
    requires IsRun(states, steps) && i < |steps| && steps[i].Hangup?
    ensures EndsReading(states[i], steps[i], states[i + 1], steps[i].problem)
  {
    StepOf(states, steps, i);
  }

  /** While the connection is open no problem is kept. */
  predicate NoneYet(s: State) {
    !s.control.closed ==> s.control.problem.None?
  }

  ghost predicate Ending(s: State, problem: Option<Problem>) {
    && Inv(s) && NoneYet(s)
    && (s.reader == Closing(problem) || (s.reader.ReaderOver? && s.control.closed && s.control.problem == problem))
  }

  lemma StepKeepsEnding(s: State, step: Step, problem: Option<Problem>)
    requires Ending(s, problem) && Enabled(s, step)
    ensures Ending(Apply(s, step), problem)
  {
    forall id: RequestId ensures RequestOk(Apply(s, step), id) { StepKeepsRequest(s, step, id); }
  }

  lemma RunHasNoneYet(states: seq<State>, steps: seq<Step>, k: nat)
    requires IsRun(states, steps) && k < |states|
    ensures NoneYet(states[k])
  {
    Stays(Next(), s => NoneYet(s), states, steps, 0, k);
  }

  /** The problem the reading ended with is the one that is kept, for good. */
  lemma ProblemIsKept(states: seq<State>, steps: seq<Step>, i: nat, j: nat, problem: Option<Problem>)
    requires IsRun(states, steps) && i < j < |states| && EndsReading(states[i], steps[i], states[i + 1], problem)
    ensures if states[j].control.closed then states[j].control.problem == problem
            else states[j].reader == Closing(problem) && states[j].control.problem.None?
  {
    forall s, step, s' | Next()(s, step, s') && Ending(s, problem) ensures Ending(s', problem) {
      StepKeepsEnding(s, step, problem);
    }
    RunKeepsInv(states, steps, i + 1);
    RunHasNoneYet(states, steps, i + 1);
    Stays(Next(), s => Ending(s, problem), states, steps, i + 1, j);
  }

  ghost predicate EndedReading(states: seq<State>, steps: seq<Step>, k: nat, problem: Option<Problem>)
    requires k <= |steps| < |states|
  {
    exists i :: 0 <= i < k && EndsReading(states[i], steps[i], states[i + 1], problem)
  }

  /** A closed connection's reading did end, with the problem that is kept. */
  lemma ClosedHasEnded(states: seq<State>, steps: seq<Step>, k: nat)
    requires IsRun(states, steps) && k < |states| && !states[k].reader.Reading?
    ensures exists problem :: EndedReading(states, steps, k, problem)
    ensures states[k].control.closed ==> EndedReading(states, steps, k, states[k].control.problem)
  {
    var i := LastReading(states, steps, k);
    StepOf(states, steps, i);
    var problem := states[i + 1].reader.problem;
    assert EndsReading(states[i], steps[i], states[i + 1], problem);
    ProblemIsKept(states, steps, i, k, problem);
    assert EndedReading(states, steps, k, problem);
  }

  lemma {:induction false} LastReading(states: seq<State>, steps: seq<Step>, k: nat) returns (i: nat)
    requires IsRun(states, steps) && k < |states| && !states[k].reader.Reading?
    ensures i < k && states[i].reader.Reading? && !states[i + 1].reader.Reading?
  {
    if states[k - 1].reader.Reading? { i := k - 1; } else { i := LastReading(states, steps, k - 1); }
  }

  /** Once reading has ended with `problem`, every error that a request gets names that
      problem, except that of a request that could not be written. */
  lemma ErrorsNameTheProblem(states: seq<State>, steps: seq<Step>, i: nat, j: nat,
                             problem: Option<Problem>, id: RequestId, r: Response)
    requires IsRun(states, steps) && i < j < |steps| && EndsReading(states[i], steps[i], states[i + 1], problem)
    requires CoordinatorRuns.Answers(states[j], steps[j], id, r) && r.ClosedError?
    ensures r.problem == if steps[j].Withdraw? then None else problem
  {
    ProblemIsKept(states, steps, i, j, problem);
    RunKeepsInv(states, steps, j);
    AnswersComeFromTheirRequest(states[j], steps[j], id, r);
    var before, after := AnswersTo(states[j].control, id), AnswersTo(Apply(states[j], steps[j]).control, id);
    assert |after| == |before| + 1 && after[|before|] == r;
  }

  /** Before that, the only error is that of a request that could not be written. */
  lemma NoErrorsWhileReading(states: seq<State>, steps: seq<Step>, j: nat, id: RequestId, r: Response)
    requires IsRun(states, steps) && j < |steps| && states[j].reader.Reading?
    requires CoordinatorRuns.Answers(states[j], steps[j], id, r) && r.ClosedError?
    ensures steps[j] == Withdraw(id) && r.problem.None?
  {
    RunKeepsInv(states, steps, j);
    var before, after := AnswersTo(states[j].control, id), AnswersTo(Apply(states[j], steps[j]).control, id);
    assert |after| == |before| + 1 && after[|before|] == r;
  }

  /** The connection is closed again and again. */
  function EndedAll(c: Control, problems: seq<Option<Problem>>): Control {
    if problems == [] then c else Ended(EndedAll(c, problems[..|problems| - 1]), problems[|problems| - 1])
  }

  predicate FirstProblem(problems: seq<Option<Problem>>, i: nat) {
    i < |problems| && problems[i].Some? && forall j :: 0 <= j < i ==> problems[j].None?
  }

  /** However often it is closed, the first problem there was is kept. */
  lemma {:induction false} FirstProblemWins(c: Control, problems: seq<Option<Problem>>)
    requires c.problem.None?
    ensures forall i: nat :: FirstProblem(problems, i) ==> EndedAll(c, problems).problem == problems[i]
    ensures EndedAll(c, problems).problem.None? <==> forall i :: 0 <= i < |problems| ==> problems[i].None?
    decreases |problems|
  {
    if problems != [] {
      var init := problems[..|problems| - 1];
      FirstProblemWins(c, init);
      assert forall i: nat :: FirstProblem(problems, i) && i < |init| ==> FirstProblem(init, i);
    }
  }
}
