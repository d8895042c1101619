/**
 No async waiter sleeps through a cancellation: cancelled_async enables its
 notifications from its token up to the root, checking each node after enabling.
 */
module CancellationWaiters {
  import opened Options
  import opened Runs
  import opened CancellationTokens
  import opened CancellationStability
  import opened CancellationRuns
  import opened CancellationWakeups

  // ---------------------------------------------------------------------------
  // The waiters' invariant
  // ---------------------------------------------------------------------------

  /** The thread will still deliver `y`'s notifications. */
  predicate Alerts(pc: Pc, y: Token) {
    (pc.Collecting? || pc.Notifying?) && pc.tok == y
  }

  /** The waiter has still to look at `y`'s flag. */
  predicate Sees(pc: Pc, y: Token) {
    || (pc.Walk? && pc.call.ToSleep? && pc.tok == y && pc.at == y)
    || (pc.Probing? && pc.at == y)
  }

  /** A notification enabled on a node that was cancelled itself is about to be
      delivered, or the waiter is about to see the flag. */
  ghost predicate WaiterOk(s: State, th: ThreadId, y: Token)
    requires y < |s.nodes|
  {
    (y, th) in s.waiting && s.nodes[y].direct ==> Sees(At(s, th), y) || exists k :: Alerts(At(s, k), y)
  }

  predicate EnrolledAt(s: State, th: ThreadId, y: Token) {
    (y, th) in s.waiting || th in s.woken
  }

  /** Enrolled on every node from `x` up to, and not including, `y`. */
  predicate EnrolledBelow(tree: Tree, s: State, th: ThreadId, x: Token, y: Token)
    decreases x
  {
    x < |tree| && (x == y || (EnrolledAt(s, th, x) && tree[x].Some? && EnrolledBelow(tree, s, th, tree[x].value, y)))
  }

  /** Enrolled on `x` and every ancestor. */
  predicate EnrolledAll(tree: Tree, s: State, th: ThreadId, x: Token)
    decreases x
  {
    x < |tree| && EnrolledAt(s, th, x) && (tree[x].Some? ==> EnrolledAll(tree, s, th, tree[x].value))
  }

  /** How far a waiter has come in enabling its notifications. */
  predicate Enrolment(tree: Tree, s: State, th: ThreadId, pc: Pc) {
    && ((pc.Walk? || pc.Caching?) && pc.call.ToSleep? ==> EnrolledAt(s, th, pc.tok))
    && (pc.Enabling? || pc.Probing? ==> pc.at < |tree| && EnrolledBelow(tree, s, th, pc.tok, pc.at))
    && (pc.Probing? ==> EnrolledAt(s, th, pc.at))
    && (pc.Asleep? ==> EnrolledAll(tree, s, th, pc.tok))
  }

  ghost predicate WaiterInv(tree: Tree, s: State, th: ThreadId)
    requires |s.nodes| == |tree|
  {
    && Enrolment(tree, s, th, At(s, th))
    && forall y :: 0 <= y < |tree| ==> WaiterOk(s, th, y)
  }

  // ---------------------------------------------------------------------------
  // Chains of enrolments
  // ---------------------------------------------------------------------------

  lemma {:induction false} EnrolledUp(tree: Tree, s: State, th: ThreadId, x: Token, y: Token)
    requires EnrolledBelow(tree, s, th, x, y) && y < |tree| && EnrolledAt(s, th, y)
    ensures tree[y].Some? ==> EnrolledBelow(tree, s, th, x, tree[y].value)
    ensures tree[y].None? ==> EnrolledAll(tree, s, th, x)
    decreases x
  {
    if x != y { EnrolledUp(tree, s, th, tree[x].value, y); }
  }

  lemma {:induction false} EnrolledStays(tree: Tree, s: State, s': State, th: ThreadId, x: Token, y: Token)
    requires forall z: Token :: EnrolledAt(s, th, z) ==> EnrolledAt(s', th, z)
    ensures EnrolledBelow(tree, s, th, x, y) ==> EnrolledBelow(tree, s', th, x, y)
    ensures EnrolledAll(tree, s, th, x) ==> EnrolledAll(tree, s', th, x)
    decreases x
  {
    if x < |tree| && tree[x].Some? { EnrolledStays(tree, s, s', th, tree[x].value, y); }
  }

  /** A cancelled token's enrolled waiter is enrolled where the cancel was called. */
  lemma {:induction false} CauseHasWaiter(tree: Tree, s: State, th: ThreadId, x: Token) returns (y: Token)
    requires |s.nodes| == |tree| && EnrolledAll(tree, s, th, x) && Caused(tree, s.nodes, x)
    ensures y < |tree| && s.nodes[y].direct && EnrolledAt(s, th, y)
    decreases x
  {
    if s.nodes[x].direct { y := x; } else { y := CauseHasWaiter(tree, s, th, tree[x].value); }
  }

  // ---------------------------------------------------------------------------
  // Every step keeps it
  // ---------------------------------------------------------------------------

  /** What a move of `k` may do to waiter `th` on node `y`. */
  predicate WaiterMove(s: State, k: ThreadId, s': State, th: ThreadId, y: Token)
    requires y < |s.nodes| == |s'.nodes|
  {
    && (k != th && EnrolledAt(s, th, y) ==> EnrolledAt(s', th, y))
    && ((y, th) in s'.waiting && (y, th) !in s.waiting ==> k == th && Sees(At(s', th), y))
    && (s'.nodes[y].direct && !s.nodes[y].direct ==> Alerts(At(s', k), y))
    && (Alerts(At(s, k), y) && (y, th) in s'.waiting ==> Alerts(At(s', k), y))
    && (k == th && Sees(At(s, th), y) && (y, th) in s'.waiting && s.nodes[y].direct ==> Sees(At(s', th), y))
  }

  lemma MoveKeepsWaiterOk(s: State, k: ThreadId, s': State, th: ThreadId, y: Token)
    requires y < |s.nodes| == |s'.nodes| && s'.threads == s.threads[k := At(s', k)]
    requires WaiterOk(s, th, y) && WaiterMove(s, k, s', th, y)
    ensures WaiterOk(s', th, y)
  {
    assert forall x :: x != k ==> At(s', x) == At(s, x);
  }

  lemma CheckWaiterMove(tree: Tree, s: State, k: ThreadId, c: CheckMove, th: ThreadId, y: Token)
    requires |s.nodes| == |tree| && y < |tree| && NodeOk(tree, s, y) && CheckEnabled(tree, s, k, c)
    ensures |CheckApply(tree, s, k, c).nodes| == |tree| && WaiterMove(s, k, CheckApply(tree, s, k, c), th, y)
  {
  }

  lemma CancelWaiterMove(tree: Tree, s: State, k: ThreadId, m: CancelMove, th: ThreadId, y: Token)
    requires |s.nodes| == |tree| && y < |tree| && NodeOk(tree, s, y) && CancelEnabled(tree, s, k, m)
    ensures |CancelApply(tree, s, k, m).nodes| == |tree| && WaiterMove(s, k, CancelApply(tree, s, k, m), th, y)
  {
  }

  lemma NotifyWaiterMove(tree: Tree, s: State, k: ThreadId, n: NotifyMove, th: ThreadId, y: Token)
    requires |s.nodes| == |tree| && y < |tree| && NotifyEnabled(tree, s, k, n)
    ensures |NotifyApply(tree, s, k, n).nodes| == |tree| && WaiterMove(s, k, NotifyApply(tree, s, k, n), th, y)
  {
  }

  lemma ReadWaiterMove(tree: Tree, s: State, k: ThreadId, r: ReadMove, th: ThreadId, y: Token)
    requires |s.nodes| == |tree| && y < |tree| && ReadEnabled(tree, s, k, r)
    ensures |ReadApply(tree, s, k, r).nodes| == |tree| && WaiterMove(s, k, ReadApply(tree, s, k, r), th, y)
  {
  }

  lemma RegisterWaiterMove(tree: Tree, s: State, k: ThreadId, g: RegisterMove, th: ThreadId, y: Token)
    requires |s.nodes| == |tree| && y < |tree| && RegisterEnabled(tree, s, k, g)
    ensures |RegisterApply(tree, s, k, g).nodes| == |tree| && WaiterMove(s, k, RegisterApply(tree, s, k, g), th, y)
  {
  }

  lemma WaitWaiterMove(tree: Tree, s: State, k: ThreadId, w: WaitMove, th: ThreadId, y: Token)
    requires |s.nodes| == |tree| && y < |tree| && NodeOk(tree, s, y) && WaitEnabled(tree, s, k, w)
    ensures |WaitApply(tree, s, k, w).nodes| == |tree| && WaiterMove(s, k, WaitApply(tree, s, k, w), th, y)
  {
  }

  lemma StepWaiterMove(tree: Tree, s: State, step: Step, th: ThreadId, y: Token)
    requires Inv(tree, s) && y < |tree| && Enabled(tree, s, step)
    ensures |Apply(tree, s, step).nodes| == |tree| && WaiterMove(s, step.th, Apply(tree, s, step), th, y)
  {
    assert NodeOk(tree, s, y);
    match step
    case OfCheck(k, c) => CheckWaiterMove(tree, s, k, c, th, y);
    case OfCancel(k, m) => CancelWaiterMove(tree, s, k, m, th, y);
    case OfNotify(k, n) => NotifyWaiterMove(tree, s, k, n, th, y);
    case OfRead(k, r) => ReadWaiterMove(tree, s, k, r, th, y);
    case OfRegister(k, g) => RegisterWaiterMove(tree, s, k, g, th, y);
    case OfWait(k, w) => WaitWaiterMove(tree, s, k, w, th, y);
  }

  lemma CheckEnrolment(tree: Tree, s: State, th: ThreadId, c: CheckMove)
    requires CheckEnabled(tree, s, th, c) && Enrolment(tree, s, th, At(s, th))
    ensures Enrolment(tree, CheckApply(tree, s, th, c), th, At(CheckApply(tree, s, th, c), th))
  {
    var s', pc := CheckApply(tree, s, th, c), At(s, th);
    if pc.call.ToSleep? {
      if EnrolledAt(s', th, pc.tok) { EnrolledUp(tree, s', th, pc.tok, pc.tok); }
    }
  }

  lemma WaitEnrolment(tree: Tree, s: State, th: ThreadId, w: WaitMove)
    requires WaitEnabled(tree, s, th, w) && Enrolment(tree, s, th, At(s, th))
    ensures Enrolment(tree, WaitApply(tree, s, th, w), th, At(WaitApply(tree, s, th, w), th))
  {
    var s', pc := WaitApply(tree, s, th, w), At(s, th);
    if w.Enable? || (w.Probe? && !s.nodes[pc.at].flag) {
      EnrolledStays(tree, s, s', th, pc.tok, pc.at);
      if w.Probe? { EnrolledUp(tree, s', th, pc.tok, pc.at); }
    }
  }

  predicate Waits(pc: Pc) {
    pc.Enabling? || pc.Probing? || pc.Asleep? || ((pc.Walk? || pc.Caching?) && pc.call.ToSleep?)
  }

  /** Only a waiter's own moves take it on. */
  lemma OtherMovesDoNotWait(tree: Tree, s: State, step: Step)
    requires Enabled(tree, s, step) && !step.OfCheck? && !step.OfWait?
    ensures !Waits(At(Apply(tree, s, step), step.th))
  {
  }

  lemma StepEnrolment(tree: Tree, s: State, step: Step)
    requires Enabled(tree, s, step) && Enrolment(tree, s, step.th, At(s, step.th))
    ensures Enrolment(tree, Apply(tree, s, step), step.th, At(Apply(tree, s, step), step.th))
  {
    if step.OfCheck? {
      CheckEnrolment(tree, s, step.th, step.c);
    } else if step.OfWait? {
      WaitEnrolment(tree, s, step.th, step.w);
    } else {
      OtherMovesDoNotWait(tree, s, step);
    }
  }

  /** Nothing another thread does undoes an enrolment. */
  lemma OtherKeepsEnrolment(tree: Tree, s: State, s': State, th: ThreadId)
    requires Enrolment(tree, s, th, At(s, th)) && At(s', th) == At(s, th)
    requires forall z: Token :: EnrolledAt(s, th, z) ==> EnrolledAt(s', th, z)
    ensures Enrolment(tree, s', th, At(s', th))
  {
    var pc := At(s, th);
    if pc.Enabling? || pc.Probing? { EnrolledStays(tree, s, s', th, pc.tok, pc.at); }
    if pc.Asleep? { EnrolledStays(tree, s, s', th, pc.tok, pc.tok); }
  }

  lemma StepKeepsEnrolled(tree: Tree, s: State, step: Step, th: ThreadId)
    requires Enabled(tree, s, step) && step.th != th
    ensures forall z: Token :: EnrolledAt(s, th, z) ==> EnrolledAt(Apply(tree, s, step), th, z)
  {
  }

  lemma StepKeepsWaiterInv(tree: Tree, s: State, step: Step, th: ThreadId)
    requires Inv(tree, s) && WaiterInv(tree, s, th) && Enabled(tree, s, step)
    ensures Inv(tree, Apply(tree, s, step)) && WaiterInv(tree, Apply(tree, s, step), th)
  {
    var s' := Apply(tree, s, step);
    StepEvolves(tree, s, step);
    if step.th == th {
      StepEnrolment(tree, s, step);
    } else {
      StepKeepsEnrolled(tree, s, step, th);
      OtherKeepsEnrolment(tree, s, s', th);
    }
    forall y | 0 <= y < |tree| ensures WaiterOk(s', th, y) {
      StepWaiterMove(tree, s, step, th, y);
      MoveKeepsWaiterOk(s, step.th, s', th, y);
    }
  }

  // ---------------------------------------------------------------------------
  // Over whole runs
  // ---------------------------------------------------------------------------

  lemma RunKeepsWaiterInv(tree: Tree, states: seq<State>, steps: seq<Step>, k: nat, th: ThreadId)
    requires IsRun(tree, states, steps) && k < |states|
    ensures Inv(tree, states[k]) && WaiterInv(tree, states[k], th)
  {
    var p := s => Inv(tree, s) && WaiterInv(tree, s, th);
    forall s, step, s' | Next(tree)(s, step, s') && p(s) ensures p(s') { StepKeepsWaiterInv(tree, s, step, th); }
    RunKeepsInv(tree, states, steps, 0);
    Stays(Next(tree), p, states, steps, 0, k);
  }

  /** Whenever the notifying threads are done, a waiter asleep on a cancelled token has
      been woken; so one that nothing has woken sleeps on a token that is not cancelled. */
  lemma WaitersAreWoken(tree: Tree, states: seq<State>, steps: seq<Step>, k: nat, th: ThreadId)
    requires IsRun(tree, states, steps) && k < |states| && NotifiersDone(states[k])
    requires At(states[k], th).Asleep? && |states[k].nodes| == |tree|
    requires Cancelled(tree, states[k].nodes, At(states[k], th).tok)
    ensures th in states[k].woken
  {
    RunKeepsWaiterInv(tree, states, steps, k, th);
    var s, tok := states[k], At(states[k], th).tok;
    CancelledMeansCaused(tree, s, tok);
    var y := CauseHasWaiter(tree, s, th, tok);
    assert WaiterOk(s, th, y);
  }

  // ---------------------------------------------------------------------------
  // Coming back
  // ---------------------------------------------------------------------------

  /** The thread is inside is_cancelled on `tok`, called for `call`. */
  predicate Checks(pc: Pc, tok: Token, call: Call) {
    (pc.Walk? || pc.Caching?) && pc.tok == tok && pc.call == call
  }

  lemma CheckKeepsSight(tree: Tree, s: State, step: Step, th: ThreadId, tok: Token, call: Call)
    requires Inv(tree, s) && Enabled(tree, s, step) && InSight(tree, s, th)
    requires Checks(At(s, th), tok, call) && Checks(At(Apply(tree, s, step), th), tok, call)
    ensures InSight(tree, Apply(tree, s, step), th)
  {
    StepEvolves(tree, s, step);
    var pc := At(s, th);
    if pc.Walk? {
      ChainGrows(tree, s.nodes, Apply(tree, s, step).nodes, pc.at);
      if step.th == th { assert step == OfCheck(th, Load); }
    }
  }

  lemma CheckAnswersYes(tree: Tree, s: State, step: Step, tok: Token, call: Call)
    requires Inv(tree, s) && Enabled(tree, s, step) && InSight(tree, s, step.th) && tok < |tree|
    requires Checks(At(s, step.th), tok, call) && !Checks(At(Apply(tree, s, step), step.th), tok, call)
    ensures AnswersCancelled(s, step, tok) && At(Apply(tree, s, step), step.th) == Resolve(tree, tok, call, true)
  {
    assert step.OfCheck?;
  }

  /** is_cancelled, whatever it is called for, answers yes if the token is cancelled when
      it begins. */
  lemma CancelledIsSeen(tree: Tree, states: seq<State>, steps: seq<Step>,
                        b: nat, j: nat, th: ThreadId, tok: Token, call: Call)
    requires IsRun(tree, states, steps) && b <= j < |steps| && tok < |tree|
    requires At(states[b], th) == Walk(tok, tok, call)
    requires |states[b].nodes| == |tree| && Cancelled(tree, states[b].nodes, tok)
    requires forall k :: b <= k <= j ==> Checks(At(states[k], th), tok, call)
    requires steps[j].th == th && !Checks(At(states[j + 1], th), tok, call)
    ensures AnswersCancelled(states[j], steps[j], tok) && At(states[j + 1], th) == Resolve(tree, tok, call, true)
  {
    var next := (s, step, s') =>
        Next(tree)(s, step, s') && Checks(At(s, th), tok, call) && Checks(At(s', th), tok, call);
    var p := s => Inv(tree, s) && InSight(tree, s, th);
    forall s, step, s' | next(s, step, s') && p(s) ensures p(s') {
      StepEvolves(tree, s, step);
      CheckKeepsSight(tree, s, step, th, tok, call);
    }
    RunKeepsInv(tree, states, steps, b);
    Stays(next, p, states, steps, b, j);
    StepOf(tree, states, steps, j);
    CheckAnswersYes(tree, states[j], steps[j], tok, call);
  }

  /** A waiter that comes to a cancelled token, or is woken on one, returns; it does not
      sleep, or go back to sleep. */
  lemma WokenWaitersReturn(tree: Tree, states: seq<State>, steps: seq<Step>,
                           b: nat, j: nat, th: ThreadId, tok: Token, call: Call)
    requires IsRun(tree, states, steps) && b <= j < |steps| && (call == ToWait || call == ToLeave) && tok < |tree|
    requires At(states[b], th) == Walk(tok, tok, call)
    requires |states[b].nodes| == |tree| && Cancelled(tree, states[b].nodes, tok)
    requires forall k :: b <= k <= j ==> Checks(At(states[k], th), tok, call)
    requires steps[j].th == th && !Checks(At(states[j + 1], th), tok, call)
    ensures At(states[j + 1], th) == Ready
  {
    CancelledIsSeen(tree, states, steps, b, j, th, tok, call);
  }

  /** And a yes is kept on the token itself: a later is_cancelled finds it at once. */
  lemma AnswerIsCached(tree: Tree, states: seq<State>, steps: seq<Step>, i: nat, j: nat, tok: Token)
    requires IsRun(tree, states, steps) && i < j < |states| && AnswersCancelled(states[i], steps[i], tok)
    ensures tok < |states[j].nodes| && states[j].nodes[tok].flag
  {
    StepOf(tree, states, steps, i);
    RunKeepsInv(tree, states, steps, i);
    assert PcOk(tree, states[i], steps[i].th, At(states[i], steps[i].th));
    FlagStays(tree, states, steps, i + 1, j, tok);
  }

  lemma FlagStays(tree: Tree, states: seq<State>, steps: seq<Step>, i: nat, j: nat, tok: Token)
    requires IsRun(tree, states, steps) && i <= j < |states| && tok < |states[i].nodes| && states[i].nodes[tok].flag
    ensures tok < |states[j].nodes| && states[j].nodes[tok].flag
  {
    var p := s => Inv(tree, s) && tok < |s.nodes| && s.nodes[tok].flag;
    forall s, step, s' | Next(tree)(s, step, s') && p(s) ensures p(s') { StepEvolves(tree, s, step); }
    RunKeepsInv(tree, states, steps, i);
    Stays(Next(tree), p, states, steps, i, j);
  }

  /** In this step cancelled_async on `tok` returns. */
  predicate WaitReturns(s: State, step: Step, s': State, tok: Token) {
    var pc := At(s, step.th);
    && (pc.Walk? || pc.Caching?) && pc.tok == tok && (pc.call.ToWait? || pc.call.ToSleep? || pc.call.ToLeave?)
    && At(s', step.th).Ready?
  }

  lemma ReturningSawCancelled(tree: Tree, s: State, step: Step, tok: Token)
    requires Enabled(tree, s, step) && WaitReturns(s, step, Apply(tree, s, step), tok)
    ensures AnswersCancelled(s, step, tok)
  {
    assert step.OfCheck?;
  }

  /** It returns only on a token that is cancelled, then and ever after. */
  lemma WaitersReturnOnlyWhenCancelled(tree: Tree, states: seq<State>, steps: seq<Step>, i: nat, j: nat, tok: Token)
    requires IsRun(tree, states, steps) && i < j < |states| && tok < |tree|
    requires WaitReturns(states[i], steps[i], states[i + 1], tok)
    ensures |states[j].nodes| == |tree| && Cancelled(tree, states[j].nodes, tok)
  {
    StepOf(tree, states, steps, i);
    ReturningSawCancelled(tree, states[i], steps[i], tok);
    CancelTakesEffect(tree, states, steps, i, j, tok, tok);
  }
}
