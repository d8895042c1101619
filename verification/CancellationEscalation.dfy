/**
 What escalate promises over every run: a failure is recorded or was the reason
 already, what is recorded stays and was asked for, and everyone registered on the
 token is told.
 */
module CancellationEscalation {
  import opened Options
  import opened Runs
  import opened CancellationReasons
  import opened CancellationTokens
  import opened CancellationStability
  import opened CancellationRuns
  import opened CancellationWaiters

  // ---------------------------------------------------------------------------
  // A failure is recorded, or was the reason
  // ---------------------------------------------------------------------------

  function GoalOfCall(call: Call): Option<Reason> {
    if call.ToCancel? || call.ToRecheck? || call.ToRead? then call.goal else None
  }

  /** The failure the thread has still to record on `pc.tok`, if it is inside escalate. */
  function GoalOf(pc: Pc): Option<Reason> {
    match pc
    case Walk(_, _, call) => GoalOfCall(call)
    case Caching(_, call) => GoalOfCall(call)
    case Locking(_, _, goal) => goal
    case Writing(_, _, goal) => goal
    case Unlocking(_, goal) => goal
    case Swapping(_, goal) => goal
    case Collecting(_, goal) => goal
    case Notifying(_, _, goal) => goal
    case Reading(_, _, goal) => goal
    case Escalating(_, failure) => Some(failure)
    case _ => None
  }

  predicate Pursues(pc: Pc, tok: Token, f: Reason) {
    GoalOf(pc) == Some(f) && pc.tok == tok
  }

  /** The thread tells those registered on `tok`, and returns. */
  predicate Tells(pc: Pc, tok: Token) {
    pc == Collecting(tok, None) || (pc.Notifying? && pc.tok == tok && pc.goal == None)
  }

  predicate Escalated(s: State, tok: Token) {
    tok < |s.nodes| && s.nodes[tok].escalation.Some?
  }

  /** The reason reason() reports on `tok` is, and stays, a failure. */
  ghost predicate Fails(tree: Tree, s: State, tok: Token)
    requires |s.nodes| == |tree|
  {
    exists r :: Decided(tree, s, tok, r) && IsFailure(r)
  }

  /** How far an escalate of `tok` with `f` has come. */
  ghost predicate EscalateOk(tree: Tree, s: State, th: ThreadId, tok: Token, f: Reason) {
    && Inv(tree, s)
    && (|| Pursues(At(s, th), tok, f)
        || (Tells(At(s, th), tok) && Escalated(s, tok))
        || (At(s, th).Ready? && (Escalated(s, tok) || Fails(tree, s, tok))))
  }

  /** What the thread's own step leads to. */
  predicate PursuitMoves(s: State, s': State, th: ThreadId, tok: Token, f: Reason) {
    || Pursues(At(s', th), tok, f)
    || (Tells(At(s', th), tok) && Escalated(s', tok))
    || (At(s', th).Ready? && Escalated(s', tok))
  }

  lemma CheckPursues(tree: Tree, s: State, th: ThreadId, c: CheckMove, tok: Token, f: Reason)
    requires CheckEnabled(tree, s, th, c) && Pursues(At(s, th), tok, f) && IsFailure(f)
    ensures Pursues(At(CheckApply(tree, s, th, c), th), tok, f)
  {
  }

  lemma CancelPursues(tree: Tree, s: State, th: ThreadId, m: CancelMove, tok: Token, f: Reason)
    requires CancelEnabled(tree, s, th, m) && Pursues(At(s, th), tok, f) && IsFailure(f)
    ensures Pursues(At(CancelApply(tree, s, th, m), th), tok, f)
  {
  }

  lemma NotifyPursues(tree: Tree, s: State, th: ThreadId, n: NotifyMove, tok: Token, f: Reason)
    requires NotifyEnabled(tree, s, th, n) && Pursues(At(s, th), tok, f) && IsFailure(f)
    ensures Pursues(At(NotifyApply(tree, s, th, n), th), tok, f)
  {
  }

  /** The reading end: a failure that is already the reason, or the escalation is set. */
  lemma ReadPursues(tree: Tree, s: State, th: ThreadId, r: ReadMove, tok: Token, f: Reason)
    requires Inv(tree, s) && ReadEnabled(tree, s, th, r) && Pursues(At(s, th), tok, f)
    ensures PursuitMoves(s, ReadApply(tree, s, th, r), th, tok, f) ||
            (At(ReadApply(tree, s, th, r), th).Ready? && Fails(tree, s, tok))
  {
    var pc := At(s, th);
    assert PcOk(tree, s, th, pc);
    if r.ReadNode? && s.nodes[pc.at].reason.Some? { FoundIsDecided(tree, s, tok, pc.at); }
  }

  /** escalate takes no step of another operation. */
  lemma OnlyEscalatePursues(tree: Tree, s: State, step: Step, tok: Token, f: Reason)
    requires Enabled(tree, s, step) && Pursues(At(s, step.th), tok, f)
    ensures !step.OfRegister? && !step.OfWait?
  {
  }

  lemma PursuerMoves(tree: Tree, s: State, step: Step, tok: Token, f: Reason)
    requires Inv(tree, s) && Enabled(tree, s, step) && Pursues(At(s, step.th), tok, f) && IsFailure(f)
    ensures PursuitMoves(s, Apply(tree, s, step), step.th, tok, f) ||
            (At(Apply(tree, s, step), step.th).Ready? && Fails(tree, s, tok))
  {
    OnlyEscalatePursues(tree, s, step, tok, f);
    match step
    case OfCheck(th, c) => CheckPursues(tree, s, th, c, tok, f);
    case OfCancel(th, m) => CancelPursues(tree, s, th, m, tok, f);
    case OfNotify(th, n) => NotifyPursues(tree, s, th, n, tok, f);
    case OfRead(th, r) => ReadPursues(tree, s, th, r, tok, f);
  }

  lemma TellerMoves(tree: Tree, s: State, step: Step, tok: Token)
    requires Enabled(tree, s, step) && Tells(At(s, step.th), tok)
    ensures Tells(At(Apply(tree, s, step), step.th), tok) || At(Apply(tree, s, step), step.th).Ready?
  {
    assert step.OfNotify?;
  }

  lemma RecordStays(tree: Tree, s: State, step: Step, tok: Token)
    requires Inv(tree, s) && Enabled(tree, s, step)
    ensures |Apply(tree, s, step).nodes| == |tree|
    ensures Escalated(s, tok) ==> Escalated(Apply(tree, s, step), tok)
    ensures Fails(tree, s, tok) ==> Fails(tree, Apply(tree, s, step), tok)
  {
    StepEvolves(tree, s, step);
    if Fails(tree, s, tok) {
      var r :| Decided(tree, s, tok, r) && IsFailure(r);
      StepKeepsFacts(tree, s, step, tok, r);
    }
  }

  lemma StepKeepsEscalate(tree: Tree, s: State, step: Step, th: ThreadId, tok: Token, f: Reason)
    requires EscalateOk(tree, s, th, tok, f) && !At(s, th).Ready? && IsFailure(f) && Enabled(tree, s, step)
    ensures EscalateOk(tree, Apply(tree, s, step), th, tok, f)
  {
    StepEvolves(tree, s, step);
    RecordStays(tree, s, step, tok);
    if step.th == th {
      if Pursues(At(s, th), tok, f) { PursuerMoves(tree, s, step, tok, f); } else { TellerMoves(tree, s, step, tok); }
    } else {
      assert At(Apply(tree, s, step), th) == At(s, th);
    }
  }

  /** `th` is inside an operation in every state after `i` and before `j`, when it is over. */
  predicate LastsFrom(states: seq<State>, i: nat, j: nat, th: ThreadId) {
    i < j < |states| && (forall k :: i < k < j ==> !At(states[k], th).Ready?) && At(states[j], th).Ready?
  }

  /** When an escalate with a failure is over, either an escalation of the token is recorded
      or the token's reason is a failure, and not both. */
  lemma EscalateTakesEffect(tree: Tree, states: seq<State>, steps: seq<Step>,
                            i: nat, j: nat, th: ThreadId, tok: Token, f: Reason)
    requires IsRun(tree, states, steps) && LastsFrom(states, i, j, th)
    requires steps[i] == OfCancel(th, Escalate(tok, f)) && IsFailure(f)
    ensures |states[j].nodes| == |tree|
    ensures Escalated(states[j], tok) <==> !Fails(tree, states[j], tok)
  {
    var next := (s, step, s') => Next(tree)(s, step, s') && !At(s, th).Ready?;
    forall s, step, s' | next(s, step, s') && EscalateOk(tree, s, th, tok, f) ensures EscalateOk(tree, s', th, tok, f) {
      StepKeepsEscalate(tree, s, step, th, tok, f);
    }
    StepOf(tree, states, steps, i);
    RunKeepsInv(tree, states, steps, i + 1);
    Stays(next, s => EscalateOk(tree, s, th, tok, f), states, steps, i + 1, j);
    if Escalated(states[j], tok) { OverruledIsNotFailed(tree, states[j], tok); }
  }

  lemma OverruledIsNotFailed(tree: Tree, s: State, tok: Token)
    requires Inv(tree, s) && Escalated(s, tok)
    ensures !Fails(tree, s, tok)
  {
    assert NodeOk(tree, s, tok);
    var first :| Decided(tree, s, tok, first) && !IsFailure(first);
    forall r | Decided(tree, s, tok, r) ensures !IsFailure(r) { DecidedOnce(tree, s, tok, r, first); }
  }

  // ---------------------------------------------------------------------------
  // What is recorded stays, and was asked for
  // ---------------------------------------------------------------------------

  /** The first escalation wins: once recorded it never changes. */
  lemma EscalationStays(tree: Tree, states: seq<State>, steps: seq<Step>, i: nat, j: nat, tok: Token)
    requires IsRun(tree, states, steps) && i <= j < |states| && Escalated(states[i], tok)
    ensures tok < |states[j].nodes| && states[j].nodes[tok].escalation == states[i].nodes[tok].escalation
  {
    var first := states[i].nodes[tok].escalation;
    var p := s => Inv(tree, s) && tok < |s.nodes| && s.nodes[tok].escalation == first;
    forall s, step, s' | Next(tree)(s, step, s') && p(s) ensures p(s') { StepEvolves(tree, s, step); }
    RunKeepsInv(tree, states, steps, i);
    Stays(Next(tree), p, states, steps, i, j);
  }

  /** The step begins an escalate of `tok` with `f`. */
  predicate Escalates(step: Step, tok: Token, f: Reason) {
    step.OfCancel? && step.m == Escalate(tok, f)
  }

  /** One of the first `k` steps did. */
  ghost predicate EscalatedWith(steps: seq<Step>, k: nat, tok: Token, f: Reason)
    requires k <= |steps|
  {
    exists i :: 0 <= i < k && Escalates(steps[i], tok, f)
  }

  lemma PursuitWasBegun(tree: Tree, s: State, step: Step, tok: Token, f: Reason)
    requires Enabled(tree, s, step) && Pursues(At(Apply(tree, s, step), step.th), tok, f)
    ensures Pursues(At(s, step.th), tok, f) || Escalates(step, tok, f)
  {
    match step
    case OfCheck(th, c) => CheckKeepsGoal(tree, s, th, c, tok, f);
    case OfCancel(_, _) =>
    case OfNotify(_, _) =>
    case OfRead(_, _) =>
    case OfRegister(_, _) =>
    case OfWait(_, _) =>
  }

  lemma CheckKeepsGoal(tree: Tree, s: State, th: ThreadId, c: CheckMove, tok: Token, f: Reason)
    requires CheckEnabled(tree, s, th, c) && Pursues(At(CheckApply(tree, s, th, c), th), tok, f)
    ensures Pursues(At(s, th), tok, f)
  {
  }

  /** Nothing is recorded from `s` to `s'`. */
  ghost predicate RecordsNothing(s: State, s': State) {
    |s'.nodes| == |s.nodes| && forall x :: 0 <= x < |s.nodes| ==> s'.nodes[x].escalation == s.nodes[x].escalation
  }

  lemma CheckRecordsNothing(tree: Tree, s: State, th: ThreadId, c: CheckMove)
    requires CheckEnabled(tree, s, th, c)
    ensures RecordsNothing(s, CheckApply(tree, s, th, c))
  {
  }

  lemma CancelRecordsNothing(tree: Tree, s: State, th: ThreadId, m: CancelMove)
    requires CancelEnabled(tree, s, th, m)
    ensures RecordsNothing(s, CancelApply(tree, s, th, m))
  {
  }

  lemma OthersRecordNothing(tree: Tree, s: State, step: Step)
    requires Enabled(tree, s, step) && (step.OfNotify? || step.OfRegister? || step.OfWait?)
    ensures RecordsNothing(s, Apply(tree, s, step))
  {
  }

  lemma ReadRecords(tree: Tree, s: State, th: ThreadId, r: ReadMove)
    requires ReadEnabled(tree, s, th, r)
    ensures RecordsNothing(s, ReadApply(tree, s, th, r)) || (r.SetEscalation? && At(s, th).Escalating?)
  {
  }

  /** Only the step by which escalate sets it records an escalation. */
  lemma RecordingIsSetting(tree: Tree, s: State, step: Step)
    requires Enabled(tree, s, step) && !RecordsNothing(s, Apply(tree, s, step))
    ensures step.OfRead? && step.r.SetEscalation? && At(s, step.th).Escalating?
  {
    match step
    case OfCheck(th, c) => CheckRecordsNothing(tree, s, th, c);
    case OfCancel(th, m) => CancelRecordsNothing(tree, s, th, m);
    case OfRead(th, r) => ReadRecords(tree, s, th, r);
    case _ => OthersRecordNothing(tree, s, step);
  }

  lemma RecordedWasPursued(tree: Tree, s: State, step: Step, tok: Token, f: Reason)
    requires Enabled(tree, s, step) && tok < |Apply(tree, s, step).nodes| == |s.nodes|
    requires Apply(tree, s, step).nodes[tok].escalation == Some(f)
    ensures s.nodes[tok].escalation == Some(f) || Pursues(At(s, step.th), tok, f)
  {
    if !RecordsNothing(s, Apply(tree, s, step)) { RecordingIsSetting(tree, s, step); }
  }

  /** Nobody has recorded `f` on `tok`, or is about to. */
  ghost predicate Unasked(tree: Tree, s: State, tok: Token, f: Reason) {
    && Inv(tree, s)
    && (tok < |s.nodes| ==> s.nodes[tok].escalation != Some(f))
    && forall th :: !Pursues(At(s, th), tok, f)
  }

  lemma StaysUnasked(tree: Tree, s: State, step: Step, tok: Token, f: Reason)
    requires Unasked(tree, s, tok, f) && Enabled(tree, s, step) && !Escalates(step, tok, f)
    ensures Unasked(tree, Apply(tree, s, step), tok, f)
  {
    var s' := Apply(tree, s, step);
    StepEvolves(tree, s, step);
    if tok < |s'.nodes| && s'.nodes[tok].escalation == Some(f) { RecordedWasPursued(tree, s, step, tok, f); }
    forall th ensures !Pursues(At(s', th), tok, f) {
      if th == step.th {
        if Pursues(At(s', th), tok, f) { PursuitWasBegun(tree, s, step, tok, f); }
      } else {
        assert At(s', th) == At(s, th);
      }
    }
  }

  /** A recorded escalation is the failure of an escalate of that very token. */
  lemma EscalationWasAsked(tree: Tree, states: seq<State>, steps: seq<Step>, k: nat, tok: Token)
    requires IsRun(tree, states, steps) && k < |states| && Escalated(states[k], tok)
    ensures EscalatedWith(steps, k, tok, states[k].nodes[tok].escalation.value)
  {
    var f := states[k].nodes[tok].escalation.value;
    if !EscalatedWith(steps, k, tok, f) {
      var next := (s, step, s') => Next(tree)(s, step, s') && !Escalates(step, tok, f);
      forall s, step, s' | next(s, step, s') && Unasked(tree, s, tok, f) ensures Unasked(tree, s', tok, f) {
        StaysUnasked(tree, s, step, tok, f);
      }
      RunKeepsInv(tree, states, steps, 0);
      Stays(next, s => Unasked(tree, s, tok, f), states, steps, 0, k);
    }
  }

  // ---------------------------------------------------------------------------
  // Everyone registered is told
  // ---------------------------------------------------------------------------

  /** `th` tells those registered on `tok` from state `i` to state `j`, when it is done. */
  predicate TellsFrom(states: seq<State>, i: nat, j: nat, th: ThreadId, tok: Token) {
    && i < j < |states| && At(states[i], th).Collecting? && At(states[i], th).tok == tok
    && (forall k :: i <= k < j ==> Alerts(At(states[k], th), tok)) && !Alerts(At(states[j], th), tok)
  }

  /** One of the steps from `i` to `j` is `th`'s notification of `h`. */
  ghost predicate NotifiedBetween(states: seq<State>, steps: seq<Step>, i: nat, j: nat, th: ThreadId, h: Handle)
    requires j <= |steps| < |states|
  {
    exists k :: i <= k < j && Notifies(states[k], steps[k], th, h)
  }

  predicate Notifies(s: State, step: Step, th: ThreadId, h: Handle) {
    step == OfNotify(th, NotifyNext) && At(s, th).Notifying? && At(s, th).rest != [] && At(s, th).rest[0] == h
  }

  /** `th` has still to notify `h`. */
  predicate Owed(s: State, th: ThreadId, tok: Token, h: Handle) {
    || h in s.dead
    || (At(s, th).Collecting? && At(s, th).tok == tok < |s.nodes| && h in s.nodes[tok].handles)
    || (At(s, th).Notifying? && At(s, th).tok == tok && h in At(s, th).rest)
  }

  lemma {:induction false} LiveKeeps(handles: seq<Handle>, dead: set<Handle>, h: Handle)
    requires h in handles && h !in dead
    ensures h in Live(handles, dead)
  {
    if handles[0] != h { LiveKeeps(handles[1..], dead, h); }
  }

  lemma TellerStillOwes(tree: Tree, s: State, step: Step, tok: Token, h: Handle)
    requires Enabled(tree, s, step) && Owed(s, step.th, tok, h) && !Notifies(s, step, step.th, h)
    requires Alerts(At(s, step.th), tok)
    ensures Owed(Apply(tree, s, step), step.th, tok, h)
  {
    var pc := At(s, step.th);
    assert step.OfNotify?;
    if step.n.Collect? && h !in s.dead { LiveKeeps(s.nodes[tok].handles, s.dead, h); }
    if step.n.NotifyNext? { assert pc.rest == [pc.rest[0]] + pc.rest[1..]; }
  }

  lemma OthersKeepOwed(tree: Tree, s: State, step: Step, th: ThreadId, tok: Token, h: Handle)
    requires Inv(tree, s) && Enabled(tree, s, step) && step.th != th && Owed(s, th, tok, h)
    ensures Owed(Apply(tree, s, step), th, tok, h)
  {
    StepEvolves(tree, s, step);
    assert At(Apply(tree, s, step), th) == At(s, th);
    HandlesStay(tree, s, step, tok, h);
  }

  lemma HandlesStay(tree: Tree, s: State, step: Step, tok: Token, h: Handle)
    requires Enabled(tree, s, step)
    ensures h in s.dead ==> h in Apply(tree, s, step).dead
    ensures tok < |s.nodes| == |Apply(tree, s, step).nodes| && h in s.nodes[tok].handles && h !in s.dead ==>
              h in Apply(tree, s, step).nodes[tok].handles
  {
  }

  ghost predicate StillOwed(tree: Tree, s: State, th: ThreadId, tok: Token, h: Handle) {
    Inv(tree, s) && Owed(s, th, tok, h)
  }

  lemma StepKeepsOwed(tree: Tree, s: State, step: Step, th: ThreadId, tok: Token, h: Handle)
    requires StillOwed(tree, s, th, tok, h) && Enabled(tree, s, step)
    requires Alerts(At(s, th), tok) && !Notifies(s, step, th, h)
    ensures StillOwed(tree, Apply(tree, s, step), th, tok, h)
  {
    StepEvolves(tree, s, step);
    if step.th == th { TellerStillOwes(tree, s, step, tok, h); } else { OthersKeepOwed(tree, s, step, th, tok, h); }
  }

  /** Whoever tells those registered on a token, for a cancel or an escalate, notifies every
      handle on its list in the meantime, unless the handle is gone. */
  lemma TellingNotifiesHandles(tree: Tree, states: seq<State>, steps: seq<Step>,
                               i: nat, j: nat, th: ThreadId, tok: Token, h: Handle)
    requires IsRun(tree, states, steps) && TellsFrom(states, i, j, th, tok)
    requires tok < |states[i].nodes| && h in states[i].nodes[tok].handles && h !in states[j].dead
    ensures NotifiedBetween(states, steps, i, j, th, h)
  {
    if !NotifiedBetween(states, steps, i, j, th, h) {
      var next := (s, step, s') => Next(tree)(s, step, s') && Alerts(At(s, th), tok) && !Notifies(s, step, th, h);
      forall s, step, s' | next(s, step, s') && StillOwed(tree, s, th, tok, h) ensures StillOwed(tree, s', th, tok, h) {
        StepKeepsOwed(tree, s, step, th, tok, h);
      }
      RunKeepsInv(tree, states, steps, i);
      Stays(next, s => StillOwed(tree, s, th, tok, h), states, steps, i, j);
    }
  }

  /** The waiter is enrolled, and woken if `th` is done telling. */
  predicate ToBeWoken(s: State, th: ThreadId, tok: Token, w: ThreadId) {
    EnrolledAt(s, w, tok) && (!Alerts(At(s, th), tok) ==> w in s.woken)
  }

  lemma TellingWakes(tree: Tree, s: State, step: Step, th: ThreadId, tok: Token, w: ThreadId)
    requires Enabled(tree, s, step) && Alerts(At(s, th), tok) && EnrolledAt(s, w, tok)
    requires step.th == th && EnrolledAt(Apply(tree, s, step), w, tok)
    ensures ToBeWoken(Apply(tree, s, step), th, tok, w)
  {
    assert step.OfNotify?;
  }

  /** And by then it has woken every waiter whose notification was enabled on that token
      when it began, as long as the waiter did not drop it. */
  lemma TellingWakesWaiters(tree: Tree, states: seq<State>, steps: seq<Step>,
                            i: nat, j: nat, th: ThreadId, tok: Token, w: ThreadId)
    requires IsRun(tree, states, steps) && TellsFrom(states, i, j, th, tok)
    requires (tok, w) in states[i].waiting
    requires forall k :: i < k <= j ==> EnrolledAt(states[k], w, tok)
    ensures w in states[j].woken
  {
    var next := (s, step, s') => Next(tree)(s, step, s') && Alerts(At(s, th), tok) && EnrolledAt(s', w, tok);
    var p := s => Inv(tree, s) && ToBeWoken(s, th, tok, w);
    forall s, step, s' | next(s, step, s') && p(s) ensures p(s') {
      StepEvolves(tree, s, step);
      if step.th == th { TellingWakes(tree, s, step, th, tok, w); } else { assert At(s', th) == At(s, th); }
    }
    RunKeepsInv(tree, states, steps, i);
    Stays(next, p, states, steps, i, j);
  }

  /** The step that records an escalation begins the telling, and the escalate is over when
      the telling is. */
  lemma EscalateTells(tree: Tree, states: seq<State>, steps: seq<Step>, i: nat, j: nat, th: ThreadId, tok: Token)
    requires IsRun(tree, states, steps) && LastsFrom(states, i, j, th)
    requires steps[i].th == th && Escalated(states[i + 1], tok) && !Escalated(states[i], tok)
    ensures TellsFrom(states, i + 1, j, th, tok)
    ensures states[i + 1].waiting == states[i].waiting
    ensures tok < |states[i].nodes| && states[i + 1].nodes[tok].handles == states[i].nodes[tok].handles
  {
    StepOf(tree, states, steps, i);
    RunKeepsInv(tree, states, steps, i);
    StepEvolves(tree, states[i], steps[i]);
    RecordingStep(tree, states[i], steps[i], tok);
    forall k | i + 1 <= k < j ensures Tells(At(states[k], th), tok) {
      TellingLasts(tree, states, steps, i + 1, k, th, tok);
    }
  }

  lemma RecordingStep(tree: Tree, s: State, step: Step, tok: Token)
    requires Enabled(tree, s, step) && |s.nodes| == |tree| == |Apply(tree, s, step).nodes|
    requires Escalated(Apply(tree, s, step), tok) && !Escalated(s, tok)
    ensures At(Apply(tree, s, step), step.th) == Collecting(tok, None)
    ensures Apply(tree, s, step).waiting == s.waiting
    ensures Apply(tree, s, step).nodes[tok].handles == s.nodes[tok].handles
  {
    RecordingIsSetting(tree, s, step);
  }

  lemma TellingLasts(tree: Tree, states: seq<State>, steps: seq<Step>, i: nat, k: nat, th: ThreadId, tok: Token)
    requires IsRun(tree, states, steps) && i <= k < |states| && At(states[i], th) == Collecting(tok, None)
    requires forall m :: i <= m <= k ==> !At(states[m], th).Ready?
    ensures Tells(At(states[k], th), tok)
  {
    var next := (s, step, s') => Next(tree)(s, step, s') && !At(s', th).Ready?;
    var p := s => Inv(tree, s) && Tells(At(s, th), tok);
    forall s, step, s' | next(s, step, s') && p(s) ensures p(s') {
      StepEvolves(tree, s, step);
      if step.th == th { TellerMoves(tree, s, step, tok); } else { assert At(s', th) == At(s, th); }
    }
    RunKeepsInv(tree, states, steps, i);
    Stays(next, p, states, steps, i, k);
  }

  /** Recording an escalation reaches everyone: when the escalate is over, each waiter whose
      notification was enabled on the token then, and not dropped since, is woken. */
  lemma EscalationWakesWaiters(tree: Tree, states: seq<State>, steps: seq<Step>,
                               i: nat, j: nat, th: ThreadId, tok: Token, w: ThreadId)
    requires IsRun(tree, states, steps) && LastsFrom(states, i, j, th)
    requires steps[i].th == th && Escalated(states[i + 1], tok) && !Escalated(states[i], tok)
    requires (tok, w) in states[i].waiting && forall k :: i < k <= j ==> EnrolledAt(states[k], w, tok)
    ensures w in states[j].woken
  {
    EscalateTells(tree, states, steps, i, j, th, tok);
    TellingWakesWaiters(tree, states, steps, i + 1, j, th, tok, w);
  }

  /** And each handle registered on it then, and not gone since, is notified once more. */
  lemma EscalationNotifiesHandles(tree: Tree, states: seq<State>, steps: seq<Step>,
                                  i: nat, j: nat, th: ThreadId, tok: Token, h: Handle)
    requires IsRun(tree, states, steps) && LastsFrom(states, i, j, th)
    requires steps[i].th == th && Escalated(states[i + 1], tok) && !Escalated(states[i], tok)
    requires tok < |states[i].nodes| && h in states[i].nodes[tok].handles && h !in states[j].dead
    ensures NotifiedBetween(states, steps, i + 1, j, th, h)
  {
    EscalateTells(tree, states, steps, i, j, th, tok);
    TellingNotifiesHandles(tree, states, steps, i + 1, j, th, tok, h);
  }

  // ---------------------------------------------------------------------------
  // Nobody is told without cause
  // ---------------------------------------------------------------------------

  /** In this step the thread begins to tell those registered on `tok`. */
  predicate BeginsTelling(s: State, step: Step, s': State, tok: Token) {
    !Alerts(At(s, step.th), tok) && Alerts(At(s', step.th), tok)
  }

  /** The step turns `tok`'s flag on, by a cancel of it. */
  predicate TurnsOn(s: State, s': State, tok: Token) {
    tok < |s.nodes| == |s'.nodes| && !s.nodes[tok].flag && s'.nodes[tok].flag && s'.nodes[tok].direct
  }

  /** The step records `tok`'s escalation. */
  predicate Records(s: State, s': State, tok: Token) {
    Escalated(s', tok) && !Escalated(s, tok)
  }

  lemma TellingHasCause(tree: Tree, s: State, step: Step, tok: Token)
    requires Inv(tree, s) && Enabled(tree, s, step) && BeginsTelling(s, step, Apply(tree, s, step), tok)
    ensures TurnsOn(s, Apply(tree, s, step), tok) || Records(s, Apply(tree, s, step), tok)
  {
    match step
    case OfCheck(th, c) => CheckTellsNobody(tree, s, th, c, tok);
    case OfCancel(_, _) =>
    case OfNotify(_, _) =>
    case OfRead(_, _) =>
    case OfRegister(_, _) =>
    case OfWait(_, _) =>
  }

  lemma CheckTellsNobody(tree: Tree, s: State, th: ThreadId, c: CheckMove, tok: Token)
    requires CheckEnabled(tree, s, th, c)
    ensures !Alerts(At(CheckApply(tree, s, th, c), th), tok)
  {
  }

  /** Those registered on a token are told at most twice in a run: once by the cancel that
      turns its flag on, and once by the escalate that is recorded on it. */
  lemma ToldTwiceAtMost(tree: Tree, states: seq<State>, steps: seq<Step>, i: nat, j: nat, tok: Token)
    requires IsRun(tree, states, steps) && i < j < |steps|
    requires BeginsTelling(states[i], steps[i], states[i + 1], tok)
    requires BeginsTelling(states[j], steps[j], states[j + 1], tok)
    ensures TurnsOn(states[i], states[i + 1], tok) != TurnsOn(states[j], states[j + 1], tok)
    ensures Records(states[i], states[i + 1], tok) != Records(states[j], states[j + 1], tok)
  {
    BeganWithCause(tree, states, steps, i, tok);
    BeganWithCause(tree, states, steps, j, tok);
    if Records(states[i], states[i + 1], tok) { EscalationStays(tree, states, steps, i + 1, j, tok); }
    if TurnsOn(states[i], states[i + 1], tok) { FlagStays(tree, states, steps, i + 1, j, tok); }
  }

  lemma BeganWithCause(tree: Tree, states: seq<State>, steps: seq<Step>, i: nat, tok: Token)
    requires IsRun(tree, states, steps) && i < |steps| && BeginsTelling(states[i], steps[i], states[i + 1], tok)
    ensures TurnsOn(states[i], states[i + 1], tok) || Records(states[i], states[i + 1], tok)
  {
    StepOf(tree, states, steps, i);
    RunKeepsInv(tree, states, steps, i);
    TellingHasCause(tree, states[i], steps[i], tok);
  }
}
