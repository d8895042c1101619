/**
 Every request is answered once: for every interleaving of sends, writes that fail,
 deliveries and the end of the connection.
 */
module CoordinatorRuns {
  import opened Options
  import opened Runs
  import opened Coordinator

  /** A send has an ID; is writing its request; could not write it; or is over. */
  datatype Sender = Numbered | Writing | WriteFailed | SendOver

  /** The reader delivers until the connection ends, is malformed or breaks the protocol,
      then closes. */
  datatype Reader = Reading | Closing(problem: Option<Problem>) | ReaderOver

  /** `sends[id]` is how far the send of request `id` is. */
  datatype State = State(control: Control, sends: seq<Sender>, reader: Reader)

  const INITIAL := State(NEW_CONTROL, [], Reading)

  datatype Step =
    | Begin
    | Enter(id: RequestId)
    | Write(id: RequestId, ok: bool)
    | Withdraw(id: RequestId)
    | Deliver(m: Message)
    | Hangup(problem: Option<Problem>)
    | Close

  predicate SendAt(s: State, id: RequestId, at: Sender) {
    id < |s.sends| && s.sends[id] == at
  }

  predicate Enabled(s: State, step: Step) {
    match step
    case Begin => true
    case Enter(id) => SendAt(s, id, Numbered)
    case Write(id, _) => SendAt(s, id, Writing)
    case Withdraw(id) => SendAt(s, id, WriteFailed)
    case Deliver(_) => s.reader.Reading?
    case Hangup(problem) => s.reader.Reading? && (problem.Some? ==> problem.value.Malformed?)
    case Close => s.reader.Closing?
  }

  function Apply(s: State, step: Step): State
    requires Enabled(s, step)
  {
    match step
    case Begin => s.(sends := s.sends + [Numbered])
    case Enter(id) =>
      s.(control := Entered(s.control, id), sends := s.sends[id := if s.control.closed then SendOver else Writing])
    case Write(id, ok) => s.(sends := s.sends[id := if ok then SendOver else WriteFailed])
    case Withdraw(id) => s.(control := Withdrawn(s.control, id), sends := s.sends[id := SendOver])
    case Deliver(m) =>
      s.(control := Delivered(s.control, m),
         reader := if Complaint(s.control, m).None? then Reading else Closing(Complaint(s.control, m)))
    case Hangup(problem) => s.(reader := Closing(problem))
    case Close => s.(control := Ended(s.control, s.reader.problem), reader := ReaderOver)
  }

  function Next(): (State, Step, State) -> bool {
    (s, step, s') => Enabled(s, step) && s' == Apply(s, step)
  }

  ghost predicate IsRun(states: seq<State>, steps: seq<Step>) {
    && |states| == |steps| + 1
    && states[0] == INITIAL
    && Linked(Next(), states, steps, 0, |steps|)
  }

  // ---------------------------------------------------------------------------
  // The invariant, request by request
  // ---------------------------------------------------------------------------

  predicate RequestOk(s: State, id: RequestId) {
    var n, waiting := |AnswersTo(s.control, id)|, id in s.control.pending;
    && n <= 1
    && (waiting ==> n == 0 && id < |s.sends| && !s.sends[id].Numbered?)
    && (id >= |s.sends| || s.sends[id].Numbered? ==> n == 0)
    && (id < |s.sends| && !s.sends[id].Numbered? && !waiting ==> n == 1)
  }

  predicate ControlOk(s: State) {
    (s.control.closed ==> s.control.pending == {}) && (s.control.closed <==> s.reader.ReaderOver?)
  }

  ghost predicate Inv(s: State) {
    ControlOk(s) && forall id: RequestId :: RequestOk(s, id)
  }

  lemma StepKeepsRequest(s: State, step: Step, id: RequestId)
    requires ControlOk(s) && RequestOk(s, id) && Enabled(s, step)
    ensures RequestOk(Apply(s, step), id)
  {
  }

  lemma RunKeepsInv(states: seq<State>, steps: seq<Step>, k: nat)
    requires IsRun(states, steps) && k < |states|
    ensures Inv(states[k])
  {
    forall s, step, s' | Next()(s, step, s') && Inv(s) ensures Inv(s') {
      forall id: RequestId ensures RequestOk(s', id) { StepKeepsRequest(s, step, id); }
    }
    Stays(Next(), s => Inv(s), states, steps, 0, k);
  }

  // ---------------------------------------------------------------------------
  // What callers can rely on
  // ---------------------------------------------------------------------------

  /** A request has at most one answer, and none only while it is pending or its send
      has not looked yet; nothing is pending once the connection is closed. */
  lemma AtMostOneAnswer(states: seq<State>, steps: seq<Step>, k: nat, id: RequestId)
    requires IsRun(states, steps) && k < |states| && id < |states[k].sends|
    ensures |AnswersTo(states[k].control, id)| <= 1
    ensures AnswersTo(states[k].control, id) == [] <==> id in states[k].control.pending || states[k].sends[id].Numbered?
    ensures states[k].control.closed ==> states[k].control.pending == {}
  {
    RunKeepsInv(states, steps, k);
    assert RequestOk(states[k], id);
  }

  /** Once the connection is closed, every request whose send is over is answered exactly
      once, those sent after it closed included. */
  lemma ClosedMeansAnswered(states: seq<State>, steps: seq<Step>, k: nat, id: RequestId)
    requires IsRun(states, steps) && k < |states| && states[k].control.closed
    requires id < |states[k].sends| && states[k].sends[id].SendOver?
    ensures |AnswersTo(states[k].control, id)| == 1
  {
    RunKeepsInv(states, steps, k);
    assert RequestOk(states[k], id);
  }

  /** An answer, once given, is never changed or repeated. */
  lemma AnswersStay(states: seq<State>, steps: seq<Step>, i: nat, j: nat, id: RequestId)
    requires IsRun(states, steps) && i <= j < |states| && AnswersTo(states[i].control, id) != []
    ensures AnswersTo(states[j].control, id) == AnswersTo(states[i].control, id)
  {
    var answer := AnswersTo(states[i].control, id);
    var p := s => Inv(s) && AnswersTo(s.control, id) == answer;
    forall s, step, s' | Next()(s, step, s') && p(s) ensures p(s') {
      forall x: RequestId ensures RequestOk(s', x) { StepKeepsRequest(s, step, x); }
      assert RequestOk(s, id) && RequestOk(s', id);
      AnswersGrow(s, step, id);
    }
    RunKeepsInv(states, steps, i);
    Stays(Next(), p, states, steps, i, j);
  }

  /** The connection, once closed, stays closed, with nothing pending. */
  lemma ClosedStays(states: seq<State>, steps: seq<Step>, i: nat, j: nat)
    requires IsRun(states, steps) && i <= j < |states| && states[i].control.closed
    ensures states[j].control.closed && states[j].control.pending == {}
  {
    var p := s => Inv(s) && s.control.closed;
    forall s, step, s' | Next()(s, step, s') && p(s) ensures p(s') {
      forall x: RequestId ensures RequestOk(s', x) { StepKeepsRequest(s, step, x); }
    }
    RunKeepsInv(states, steps, i);
    Stays(Next(), p, states, steps, i, j);
  }

  lemma AnswersGrow(s: State, step: Step, id: RequestId)
    requires Enabled(s, step)
    ensures AnswersTo(s.control, id) <= AnswersTo(Apply(s, step).control, id)
  {
  }

  /** What step `step` answers request `id`, if it does. */
  predicate Answers(s: State, step: Step, id: RequestId, r: Response)
  {
    Enabled(s, step) && AnswersTo(Apply(s, step).control, id) == AnswersTo(s.control, id) + [r]
  }

  /** A request gets a node's response only by the delivery of that very response, and an
      error only when its send, or the connection, is at its end. */
  lemma AnswersComeFromTheirRequest(s: State, step: Step, id: RequestId, r: Response)
    requires Answers(s, step, id, r)
    ensures r.Answer? ==> step == Deliver(ResponseTo(id, r.text)) && id in s.control.pending
    ensures r.ClosedError? ==> step == Enter(id) || step == Withdraw(id) || (step.Close? && id in s.control.pending)
  {
    var before, after := AnswersTo(s.control, id), AnswersTo(Apply(s, step).control, id);
    assert |after| == |before| + 1 && after[|before|] == r;
  }
}
