/**
 What the coordinator keeps of one node process: requests waiting for their
 responses, and reported outcomes.
 */
module Coordinator {
  import opened Options

  type RequestId = nat

  datatype Outcome = Completed | Failed(error: string) | Dead

  /** What a node sent that the protocol does not allow. */
  datatype Problem =
    | UnknownRequest(id: RequestId, text: string)
    | CompletedTwice(dataflow: string, first: Outcome)
    | SentCommand(text: string)
    | Malformed(text: string)

  datatype Response = Answer(text: string) | ClosedError(problem: Option<Problem>)

  datatype Message =
    | ResponseTo(id: RequestId, text: string)
    | DataflowCompleted(dataflow: string, success: bool, error: Option<string>)
    | Command(text: string)

  /** `answers` is every response sent on each request's channel, in order. */
  datatype Control = Control(
    pending: set<RequestId>,
    outcomes: map<string, Outcome>,
    closed: bool,
    problem: Option<Problem>,
    answers: Answers)

  const NEW_CONTROL := Control({}, map[], false, None, map[])

  type Answers = map<RequestId, seq<Response>>

  function AnswersTo(c: Control, id: RequestId): seq<Response> {
    Lookup(c.answers, id)
  }

  function Lookup(answers: Answers, id: RequestId): seq<Response> {
    if id in answers then answers[id] else []
  }

  function Answered(c: Control, id: RequestId, r: Response): Control {
    c.(answers := c.answers[id := AnswersTo(c, id) + [r]])
  }

  /** The same answer to each of `ids`. */
  function AnsweredAll(answers: Answers, ids: set<RequestId>, r: Response): Answers {
    map id | id in answers.Keys + ids :: if id in ids then Lookup(answers, id) + [r] else answers[id]
  }

  lemma AnsweredNone(answers: Answers, all: set<RequestId>, r: Response)
    ensures AnsweredAll(answers, all - all, r) == answers
  {
  }

  lemma AnsweredEach(answers: Answers, all: set<RequestId>, r: Response)
    ensures AnsweredAll(answers, all - {}, r) == AnsweredAll(answers, all, r)
  {
    assert all - {} == all;
  }

  lemma AnsweredOneMore(answers: Answers, all: set<RequestId>, left: set<RequestId>, id: RequestId, r: Response)
    requires id in left && left <= all
    ensures AnsweredAll(answers, all - (left - {id}), r) ==
            AnsweredAll(answers, all - left, r)[id := Lookup(AnsweredAll(answers, all - left, r), id) + [r]]
  {
    assert all - (left - {id}) == (all - left) + {id};
  }

  // ---------------------------------------------------------------------------
  // The critical sections
  // ---------------------------------------------------------------------------

  /** send_command_fire's first section. */
  function Entered(c: Control, id: RequestId): Control {
    if c.closed then Answered(c, id, ClosedError(c.problem)) else c.(pending := c.pending + {id})
  }

  /** Its second one, after a write that failed. */
  function Withdrawn(c: Control, id: RequestId): Control {
    if id in c.pending then Answered(c.(pending := c.pending - {id}), id, ClosedError(None)) else c
  }

  function OutcomeOf(m: Message): Outcome
    requires m.DataflowCompleted?
  {
    if m.success then Completed else Failed(if m.error.Some? then m.error.value else "")
  }

  /** What the protocol does not allow about the message, in this state. */
  function Complaint(c: Control, m: Message): Option<Problem> {
    match m
    case ResponseTo(id, text) => if id in c.pending then None else Some(UnknownRequest(id, text))
    case DataflowCompleted(dataflow, _, _) =>
      if dataflow in c.outcomes then Some(CompletedTwice(dataflow, c.outcomes[dataflow])) else None
    case Command(text) => Some(SentCommand(text))
  }

  function Delivered(c: Control, m: Message): Control {
    match m
    case ResponseTo(id, text) =>
      if id in c.pending then Answered(c.(pending := c.pending - {id}), id, Answer(text)) else c
    case DataflowCompleted(dataflow, _, _) => c.(outcomes := c.outcomes[dataflow := OutcomeOf(m)])
    case Command(_) => c
  }

  /** The end of the connection: the first problem is kept, and every pending request
      is answered with it. */
  function Ended(c: Control, problem: Option<Problem>): Control {
    var why := if c.problem.Some? then c.problem else problem;
    Control({}, c.outcomes, true, why, AnsweredAll(c.answers, c.pending, ClosedError(why)))
  }

  // ---------------------------------------------------------------------------
  // In place
  // ---------------------------------------------------------------------------

  class NodeState {
    var pending: set<RequestId>
    var outcomes: map<string, Outcome>
    var closed: bool
    var problem: Option<Problem>
    ghost var answers: Answers

    ghost function Value(): Control
      reads this
    {
      Control(pending, outcomes, closed, problem, answers)
    }

    constructor ()
      ensures Value() == NEW_CONTROL
    {
      pending, outcomes, closed, problem, answers := {}, map[], false, None, map[];
    }

    /** Routes one message; fails if the protocol does not allow it. */
    method Deliver(m: Message) returns (complaint: Option<Problem>)
      modifies this
      ensures Value() == Delivered(old(Value()), m) && complaint == Complaint(old(Value()), m)
    {
      complaint := None;
      match m {
        case ResponseTo(id, text) =>
          if id in pending {
            answers := Answered(Value(), id, Answer(text)).answers;
            pending := pending - {id};
          } else {
            complaint := Some(UnknownRequest(id, text));
          }
        case DataflowCompleted(dataflow, success, error) =>
          var outcome := if success then Completed else Failed(if error.Some? then error.value else "");
          if dataflow in outcomes {
            complaint := Some(CompletedTwice(dataflow, outcomes[dataflow]));
          }
          outcomes := outcomes[dataflow := outcome];
        case Command(text) =>
          complaint := Some(SentCommand(text));
      }
    }

    /** Marks the connection ended and answers every pending request. */
    method Close(found: Option<Problem>)
      modifies this
      ensures Value() == Ended(old(Value()), found)
    {
      closed := true;
      if problem.None? {
        problem := found;
      }
      Drain(ClosedError(problem));
    }

    /** Sends `r` to every pending request. */
    method Drain(r: Response)
      modifies this`pending, this`answers
      ensures pending == {} && answers == AnsweredAll(old(answers), old(pending), r)
    {
      ghost var before, all := answers, pending;
      AnsweredNone(before, all, r);
      while pending != {}
        invariant pending <= all && answers == AnsweredAll(before, all - pending, r)
        decreases |pending|
      {
        var id :| id in pending;
        AnsweredOneMore(before, all, pending, id, r);
        answers := answers[id := Lookup(answers, id) + [r]];
        pending := pending - {id};
      }
      AnsweredEach(before, all, r);
    }

    /** Registers a request before it is written; answers it if the connection is over. */
    method Enter(id: RequestId) returns (go: bool)
      modifies this
      ensures Value() == Entered(old(Value()), id) && go == !old(closed)
    {
      go := !closed;
      if closed {
        answers := Answered(Value(), id, ClosedError(problem)).answers;
      } else {
        pending := pending + {id};
      }
    }

    /** Takes back a request that could not be written, unless it was answered. */
    method Withdraw(id: RequestId)
      modifies this
      ensures Value() == Withdrawn(old(Value()), id)
    {
      if id in pending {
        pending := pending - {id};
        answers := Answered(Value(), id, ClosedError(None)).answers;
      }
    }
  }
}
