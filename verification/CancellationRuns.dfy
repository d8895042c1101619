/**
 What readers of cancellation tokens can observe, over every run on every tree.
 */
module CancellationRuns {
  import opened Options
  import opened Runs
  import opened CancellationReasons
  import opened CancellationTokens
  import opened CancellationStability

  lemma StepEvolves(tree: Tree, s: State, step: Step)
    requires Inv(tree, s) && Enabled(tree, s, step)
    ensures Evolves(tree, s, step.th, Apply(tree, s, step)) && Inv(tree, Apply(tree, s, step))
  {
    match step {
      case OfCheck(th, c) => CheckEvolves(tree, s, th, c); CheckMoverOk(tree, s, th, c);
      case OfCancel(th, m) => CancelEvolves(tree, s, th, m); CancelMoverOk(tree, s, th, m);
      case OfNotify(th, n) => NotifyEvolves(tree, s, th, n); NotifyMoverOk(tree, s, th, n);
      case OfRead(th, r) => ReadEvolves(tree, s, th, r); ReadMoverOk(tree, s, th, r);
      case OfRegister(th, g) => RegisterEvolves(tree, s, th, g); RegisterMoverOk(tree, s, th, g);
      case OfWait(th, w) => WaitEvolves(tree, s, th, w); WaitMoverOk(tree, s, th, w);
    }
    MoveKeepsInv(tree, s, step.th, Apply(tree, s, step));
  }

  lemma RunKeepsInv(tree: Tree, states: seq<State>, steps: seq<Step>, k: nat)
    requires IsRun(tree, states, steps) && k < |states|
    ensures Inv(tree, states[k])
  {
    assert forall th :: At(Initial(tree), th) == Ready;
    forall s, step, s' | Next(tree)(s, step, s') && Inv(tree, s) ensures Inv(tree, s') { StepEvolves(tree, s, step); }
    Stays(Next(tree), s => Inv(tree, s), states, steps, 0, k);
  }

  /** Step `k` of a run is enabled and leads to the next state. */
  lemma StepOf(tree: Tree, states: seq<State>, steps: seq<Step>, k: nat)
    requires IsRun(tree, states, steps) && k < |steps|
    ensures Enabled(tree, states[k], steps[k]) && states[k + 1] == Apply(tree, states[k], steps[k])
  {
    assert Next(tree)(states[k], steps[k], states[k + 1]);
  }

  // ---------------------------------------------------------------------------
  // Cancelled and decided tokens stay so
  // ---------------------------------------------------------------------------

  lemma StepKeepsFacts(tree: Tree, s: State, step: Step, x: Token, r: Reason)
    requires Inv(tree, s) && Enabled(tree, s, step)
    ensures |Apply(tree, s, step).nodes| == |tree|
    ensures Cancelled(tree, s.nodes, x) ==> Cancelled(tree, Apply(tree, s, step).nodes, x)
    ensures Decided(tree, s, x, r) ==> Decided(tree, Apply(tree, s, step), x, r)
  {
    var s' := Apply(tree, s, step);
    StepEvolves(tree, s, step);
    ChainGrows(tree, s.nodes, s'.nodes, x);
    SettledStays(tree, s, step.th, s', x, x, r);
  }

  lemma CancelledStays(tree: Tree, states: seq<State>, steps: seq<Step>, i: nat, j: nat, x: Token)
    requires IsRun(tree, states, steps) && i <= j < |states|
    requires |states[i].nodes| == |tree| && Cancelled(tree, states[i].nodes, x)
    ensures |states[j].nodes| == |tree| && Cancelled(tree, states[j].nodes, x)
  {
    var p := s => Inv(tree, s) && Cancelled(tree, s.nodes, x);
    forall s, step, s' | Next(tree)(s, step, s') && p(s) ensures p(s') {
      StepEvolves(tree, s, step);
      StepKeepsFacts(tree, s, step, x, UserRequested);
    }
    RunKeepsInv(tree, states, steps, i);
    Stays(Next(tree), p, states, steps, i, j);
  }

  lemma DecidedStays(tree: Tree, states: seq<State>, steps: seq<Step>, i: nat, j: nat, x: Token, r: Reason)
    requires IsRun(tree, states, steps) && i <= j < |states|
    requires |states[i].nodes| == |tree| && Decided(tree, states[i], x, r)
    ensures |states[j].nodes| == |tree| && Decided(tree, states[j], x, r)
  {
    var p := s => Inv(tree, s) && Decided(tree, s, x, r);
    forall s, step, s' | Next(tree)(s, step, s') && p(s) ensures p(s') {
      StepEvolves(tree, s, step);
      StepKeepsFacts(tree, s, step, x, r);
    }
    RunKeepsInv(tree, states, steps, i);
    Stays(Next(tree), p, states, steps, i, j);
  }

  // ---------------------------------------------------------------------------
  // What reason() returns
  // ---------------------------------------------------------------------------

  /** In this step a call of reason() on `tok` returns `r`. */
  predicate ReturnsReason(tree: Tree, s: State, step: Step, tok: Token, r: Reason) {
    var pc := At(s, step.th);
    && step.OfRead? && step.r.ReadNode? && pc.Reading? && pc.tok == tok
    && pc.at < |s.nodes| && s.nodes[pc.at].reason == Some(r)
  }

  lemma ReturnedIsDecided(tree: Tree, states: seq<State>, steps: seq<Step>, i: nat, tok: Token, r: Reason)
    requires IsRun(tree, states, steps) && i < |steps| && ReturnsReason(tree, states[i], steps[i], tok, r)
    ensures |states[i].nodes| == |tree| && Decided(tree, states[i], tok, r) && Cancelled(tree, states[i].nodes, tok)
  {
    RunKeepsInv(tree, states, steps, i);
    var s, pc := states[i], At(states[i], steps[i].th);
    assert PcOk(tree, s, steps[i].th, pc);
    FoundIsDecided(tree, s, tok, pc.at);
    CauseBelow(tree, s.nodes, tok, pc.at);
    CancelledMeansCaused(tree, s, tok);
  }

  /** Any two calls of reason() on one token that return a reason return the same
      one, whoever calls them and however they overlap. */
  lemma ReasonsAgree(tree: Tree, states: seq<State>, steps: seq<Step>, i: nat, j: nat, tok: Token,
                     r: Reason, r': Reason)
    requires IsRun(tree, states, steps) && i <= j < |steps|
    requires ReturnsReason(tree, states[i], steps[i], tok, r) && ReturnsReason(tree, states[j], steps[j], tok, r')
    ensures r == r'
  {
    ReturnedIsDecided(tree, states, steps, i, tok, r);
    ReturnedIsDecided(tree, states, steps, j, tok, r');
    DecidedStays(tree, states, steps, i, j, tok, r);
    DecidedOnce(tree, states[j], tok, r, r');
  }

  /** The thread is inside a call of reason() on `tok`. */
  predicate InRead(pc: Pc, tok: Token) {
    || (pc.Walk? && pc.tok == tok && pc.call.ToRead?)
    || (pc.Caching? && pc.tok == tok && pc.call.ToRead?)
    || (pc.Reading? && pc.tok == tok)
  }

  /** What a reader of a cancelled token has ahead of it. */
  predicate InSight(tree: Tree, s: State, th: ThreadId) {
    |s.nodes| == |tree| && (At(s, th).Walk? ==> Cancelled(tree, s.nodes, At(s, th).at))
  }

  lemma StepKeepsSight(tree: Tree, s: State, step: Step, th: ThreadId, tok: Token)
    requires Inv(tree, s) && Enabled(tree, s, step) && InSight(tree, s, th)
    requires InRead(At(s, th), tok) && InRead(At(Apply(tree, s, step), th), tok)
    ensures InSight(tree, Apply(tree, s, step), th)
  {
    StepEvolves(tree, s, step);
    var pc := At(s, th);
    if pc.Walk? {
      ChainGrows(tree, s.nodes, Apply(tree, s, step).nodes, pc.at);
      if step.th == th { assert step == OfCheck(th, Load); }
    }
  }

  /** A call that began on a cancelled token keeps a cancelled node ahead. */
  lemma ReadKeepsSight(tree: Tree, states: seq<State>, steps: seq<Step>, b: nat, j: nat, th: ThreadId, tok: Token)
    requires IsRun(tree, states, steps) && b <= j < |states|
    requires InSight(tree, states[b], th)
    requires forall k :: b <= k <= j ==> InRead(At(states[k], th), tok)
    ensures InSight(tree, states[j], th)
  {
    var next := (s, step, s') => Next(tree)(s, step, s') && InRead(At(s, th), tok) && InRead(At(s', th), tok);
    var p := s => Inv(tree, s) && InSight(tree, s, th);
    forall s, step, s' | next(s, step, s') && p(s) ensures p(s') {
      StepEvolves(tree, s, step);
      StepKeepsSight(tree, s, step, th, tok);
    }
    RunKeepsInv(tree, states, steps, b);
    Stays(next, p, states, steps, b, j);
  }

  /** `th` is in one call of reason() on `tok` from state `b` to step `j`, at which
      the call returns; `tok` was already cancelled when it began. */
  ghost predicate ReadsCancelled(tree: Tree, states: seq<State>, steps: seq<Step>,
                                 b: nat, j: nat, th: ThreadId, tok: Token) {
    && IsRun(tree, states, steps) && b <= j < |steps|
    && At(states[b], th).Walk? && At(states[b], th).at == tok
    && |states[b].nodes| == |tree| && Cancelled(tree, states[b].nodes, tok)
    && (forall k :: b <= k <= j ==> InRead(At(states[k], th), tok))
    && steps[j].th == th && !InRead(At(states[j + 1], th), tok)
  }

  /** A call of reason() that begins on a cancelled token returns a reason. */
  lemma CancelledHasReason(tree: Tree, states: seq<State>, steps: seq<Step>, b: nat, j: nat, th: ThreadId, tok: Token)
    returns (r: Reason)
    requires ReadsCancelled(tree, states, steps, b, j, th, tok)
    ensures ReturnsReason(tree, states[j], steps[j], tok, r)
  {
    ReadKeepsSight(tree, states, steps, b, j, th, tok);
    RunKeepsInv(tree, states, steps, j);
    StepOf(tree, states, steps, j);
    r := ReturnHasReason(tree, states[j], steps[j], tok);
  }

  lemma ReturnHasReason(tree: Tree, s: State, step: Step, tok: Token) returns (r: Reason)
    requires Inv(tree, s) && Enabled(tree, s, step) && InSight(tree, s, step.th)
    requires InRead(At(s, step.th), tok) && !InRead(At(Apply(tree, s, step), step.th), tok)
    ensures ReturnsReason(tree, s, step, tok, r)
  {
    var pc := At(s, step.th);
    assert PcOk(tree, s, step.th, pc);
    assert step.OfRead? && step.r.ReadNode?;
    if s.nodes[pc.at].reason.None? { EmptyNodeIsFrozen(tree, s, pc.at); }
    r := s.nodes[pc.at].reason.value;
  }

  /** Once a reader got `r`, every reason() call on that token that begins later and
      returns, returns `r`. */
  lemma ObservedReasonIsStable(tree: Tree, states: seq<State>, steps: seq<Step>,
                               i: nat, b: nat, j: nat, th: ThreadId, tok: Token, r: Reason)
    requires IsRun(tree, states, steps) && i < b <= j < |steps|
    requires ReturnsReason(tree, states[i], steps[i], tok, r)
    requires At(states[b], th).Walk? && At(states[b], th).at == tok
    requires forall k :: b <= k <= j ==> InRead(At(states[k], th), tok)
    requires steps[j].th == th && !InRead(At(states[j + 1], th), tok)
    ensures ReturnsReason(tree, states[j], steps[j], tok, r)
  {
    ReturnedIsDecided(tree, states, steps, i, tok, r);
    CancelledStays(tree, states, steps, i, b, tok);
    var r' := CancelledHasReason(tree, states, steps, b, j, th, tok);
    ReasonsAgree(tree, states, steps, i, j, tok, r, r');
  }

  // ---------------------------------------------------------------------------
  // Cancelling
  // ---------------------------------------------------------------------------

  /** is_cancelled on `tok` answers true in this step. */
  predicate AnswersCancelled(s: State, step: Step, tok: Token) {
    var pc := At(s, step.th);
    step.OfCheck? &&
    ((step.c.Cache? && pc.Caching? && pc.tok == tok) ||
     (step.c.Load? && pc.Walk? && pc.tok == tok && pc.at == tok < |s.nodes| && s.nodes[tok].flag))
  }

  /** cancel_with_reason on `tok` ends in this step. */
  predicate CancelEnds(s: State, step: Step, tok: Token) {
    var pc := At(s, step.th);
    || (AnswersCancelled(s, step, tok) && pc.call.ToCancel?)
    || (step.OfCancel? && step.m.Unlock? && pc.Unlocking? && pc.tok == tok)
    || (step.OfCancel? && step.m.Swap? && pc.Swapping? && pc.tok == tok)
    || (step.OfNotify? && step.n.NotifyWaiters? && pc.Notifying? && pc.tok == tok)
  }

  /** A token that is_cancelled reports, and a token whose cancel has ended, is
      cancelled, and so is every token below it, for good. */
  lemma CancelTakesEffect(tree: Tree, states: seq<State>, steps: seq<Step>, i: nat, j: nat, tok: Token, below: Token)
    requires IsRun(tree, states, steps) && i < j < |states| && Above(tree, below, tok)
    requires AnswersCancelled(states[i], steps[i], tok) || CancelEnds(states[i], steps[i], tok)
    ensures |states[j].nodes| == |tree| && Cancelled(tree, states[j].nodes, below)
  {
    RunKeepsInv(tree, states, steps, i);
    StepOf(tree, states, steps, i);
    EndLeavesCancelled(tree, states[i], steps[i], tok);
    CancelledStays(tree, states, steps, i + 1, j, tok);
    CauseBelow(tree, states[j].nodes, below, tok);
  }

  lemma EndLeavesCancelled(tree: Tree, s: State, step: Step, tok: Token)
    requires Inv(tree, s) && Enabled(tree, s, step)
    requires AnswersCancelled(s, step, tok) || CancelEnds(s, step, tok)
    ensures |Apply(tree, s, step).nodes| == |tree| && Cancelled(tree, Apply(tree, s, step).nodes, tok)
  {
    assert PcOk(tree, s, step.th, At(s, step.th));
    CancelledMeansCaused(tree, s, tok);
    StepKeepsFacts(tree, s, step, tok, UserRequested);
  }

  /** A step begins a cancel or an escalate of `tok` with reason `r`. */
  predicate Asks(step: Step, tok: Token, r: Reason) {
    step.OfCancel? && (step.m == Cancel(tok, r) || step.m == Escalate(tok, r))
  }

  /** One of the first `k` steps did. */
  ghost predicate Asked(steps: seq<Step>, k: nat, tok: Token, r: Reason)
    requires k <= |steps|
  {
    exists i :: 0 <= i < k && Asks(steps[i], tok, r)
  }

  /** The thread carries `r` towards becoming `tok`'s reason. */
  predicate Carries(pc: Pc, tok: Token, r: Reason) {
    || ((pc.Walk? || pc.Caching?) && pc.tok == tok && (pc.call.ToCancel? || pc.call.ToRecheck?) && pc.call.reason == r)
    || ((pc.Locking? || pc.Writing?) && pc.tok == tok && pc.reason == r)
  }

  /** `r` is `x`'s reason, or on its way to being it. */
  ghost predicate Given(s: State, x: Token, r: Reason) {
    (x < |s.nodes| && s.nodes[x].reason == Some(r)) || exists th :: Carries(At(s, th), x, r)
  }

  lemma CheckCarries(tree: Tree, s: State, th: ThreadId, c: CheckMove, tok: Token, r: Reason)
    requires CheckEnabled(tree, s, th, c) && Carries(At(CheckApply(tree, s, th, c), th), tok, r)
    ensures Carries(At(s, th), tok, r)
  {
  }

  lemma CarrierWasAsked(tree: Tree, s: State, step: Step, tok: Token, r: Reason)
    requires Enabled(tree, s, step) && Carries(At(Apply(tree, s, step), step.th), tok, r)
    ensures Carries(At(s, step.th), tok, r) || Asks(step, tok, r)
  {
    match step
    case OfCheck(th, c) => CheckCarries(tree, s, th, c, tok, r);
    case OfCancel(_, _) =>
    case OfNotify(_, _) =>
    case OfRead(_, _) =>
    case OfRegister(_, _) =>
    case OfWait(_, _) =>
  }

  lemma WrittenWasCarried(tree: Tree, s: State, step: Step, x: Token, r: Reason)
    requires Enabled(tree, s, step) && x < |Apply(tree, s, step).nodes| == |s.nodes|
    requires Apply(tree, s, step).nodes[x].reason == Some(r)
    ensures s.nodes[x].reason == Some(r) || Carries(At(s, step.th), x, r)
  {
  }

  lemma GivenWasAsked(tree: Tree, s: State, step: Step, x: Token, r: Reason)
    requires Inv(tree, s) && Enabled(tree, s, step) && Given(Apply(tree, s, step), x, r)
    ensures Given(s, x, r) || Asks(step, x, r)
  {
    var s' := Apply(tree, s, step);
    StepEvolves(tree, s, step);
    if x < |s'.nodes| && s'.nodes[x].reason == Some(r) {
      WrittenWasCarried(tree, s, step, x, r);
    } else {
      var th :| Carries(At(s', th), x, r);
      if th == step.th { CarrierWasAsked(tree, s, step, x, r); } else { assert At(s', th) == At(s, th); }
    }
  }

  /** A token's own reason is one that somebody cancelled that very token with. */
  lemma ReasonsWereGiven(tree: Tree, states: seq<State>, steps: seq<Step>, k: nat, x: Token, r: Reason)
    requires IsRun(tree, states, steps) && k < |states|
    requires x < |states[k].nodes| && states[k].nodes[x].reason == Some(r)
    ensures Asked(steps, k, x, r)
  {
    if !Asked(steps, k, x, r) {
      var next := (s, step, s') => Next(tree)(s, step, s') && !Asks(step, x, r);
      var p := s => Inv(tree, s) && !Given(s, x, r);
      forall s, step, s' | next(s, step, s') && p(s) ensures p(s') {
        StepEvolves(tree, s, step);
        if Given(s', x, r) { GivenWasAsked(tree, s, step, x, r); }
      }
      RunKeepsInv(tree, states, steps, 0);
      Stays(next, p, states, steps, 0, k);
    }
  }

  /** escalate records a failure only over a requested stop: the token is cancelled,
      and the reason reason() reports for it is not a failure. */
  lemma EscalationOverrulesAStop(tree: Tree, states: seq<State>, steps: seq<Step>, i: nat, j: nat,
                                 tok: Token, r: Reason)
    requires IsRun(tree, states, steps) && i < |states| && j < |steps|
    requires tok < |states[i].nodes| && states[i].nodes[tok].escalation.Some?
    requires ReturnsReason(tree, states[j], steps[j], tok, r)
    ensures IsFailure(states[i].nodes[tok].escalation.value) && !IsFailure(r)
  {
    RunKeepsInv(tree, states, steps, i);
    assert NodeOk(tree, states[i], tok);
    var first :| Decided(tree, states[i], tok, first) && !IsFailure(first);
    ReturnedIsDecided(tree, states, steps, j, tok, r);
    if i <= j {
      DecidedStays(tree, states, steps, i, j, tok, first);
      DecidedOnce(tree, states[j], tok, r, first);
    } else {
      DecidedStays(tree, states, steps, j, i, tok, r);
      DecidedOnce(tree, states[i], tok, r, first);
    }
  }
}
