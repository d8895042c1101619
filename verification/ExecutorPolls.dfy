/**
 What each answer of a polled future leads to, over every run, and the order in which
 the ready queue is served.
 */
module ExecutorPolls {
  import opened Runs
  import opened TaskProtocol
  import opened ExecutorTasks
  import opened ExecutorSafety
  import opened ExecutorRuns

  predicate IsMoveOf(step: Step, th: ThreadId) {
    IsMove(step) && step.th == th
  }

  /** `th` is not back at its poll loop in any state after `i` and before `j`. */
  predicate BusyBetween(states: seq<System>, i: nat, j: nat, th: ThreadId)
    requires j <= |states|
  {
    forall k :: i < k < j ==> !At(states[k], th).Ready?
  }

  // ---------------------------------------------------------------------------
  // A future that is finished
  // ---------------------------------------------------------------------------

  /** The thread is finishing `t` with `outcome`, and then goes back to what it was at. */
  predicate Finishes(pc: Pc, t: TaskId, back: Return, outcome: Outcome) {
    || (pc == Finishing(t, outcome) && back.ToPool?)
    || pc == DroppingFuture(t, back, outcome)
    || pc == TakingNotifier(t, back, outcome)
    || pc == Publishing(t, back, outcome)
  }

  /** The task is DONE, its future dropped, and `outcome` published, once and nothing else. */
  predicate CompletedWith(s: System, t: TaskId, outcome: Outcome) {
    IsDone(s, t) && Released(s.tasks[t]) && PublishedOf(s, t) == [outcome]
  }

  /** What was published is counted. */
  predicate CountOk(s: System, t: TaskId) {
    |PublishedOf(s, t)| == CompletionsOf(s, t)
  }

  function CompletionsOf(s: System, t: TaskId): nat {
    if t in s.tasks then s.tasks[t].completions else 0
  }

  /** Nothing is published from `s` to `s'`. */
  predicate Silent(s: System, s': System, t: TaskId) {
    s'.published == s.published && CompletionsOf(s', t) == CompletionsOf(s, t)
  }

  lemma QueueIsSilent(s: System, th: ThreadId, q: QueueMove, t: TaskId)
    requires QueueEnabled(s, th, q)
    ensures Silent(s, QueueApply(s, th, q), t)
  {
  }

  lemma PollIsSilent(s: System, th: ThreadId, p: PollMove, t: TaskId)
    requires PollEnabled(s, th, p)
    ensures Silent(s, PollApply(s, th, p), t)
  {
  }

  lemma WakeIsSilent(s: System, th: ThreadId, w: WakeMove, t: TaskId)
    requires WakeEnabled(s, th, w)
    ensures Silent(s, WakeApply(s, th, w), t)
  {
  }

  lemma AbortIsSilent(s: System, th: ThreadId, a: AbortMove, t: TaskId)
    requires AbortEnabled(s, th, a)
    ensures Silent(s, AbortApply(s, th, a), t)
  {
  }

  lemma ReleaseKeepsCount(s: System, th: ThreadId, r: ReleaseMove, t: TaskId)
    requires ReleaseEnabled(s, th, r) && CountOk(s, t)
    ensures CountOk(ReleaseApply(s, th, r), t)
  {
  }

  lemma StepKeepsCount(s: System, step: Step, t: TaskId)
    requires Enabled(s, step) && CountOk(s, t)
    ensures CountOk(Apply(s, step), t)
  {
    match step
    case OfQueue(th, q) => QueueIsSilent(s, th, q, t);
    case OfPoll(th, p) => PollIsSilent(s, th, p, t);
    case OfRelease(th, r) => ReleaseKeepsCount(s, th, r, t);
    case OfWake(th, w) => WakeIsSilent(s, th, w, t);
    case OfAbort(th, a) => AbortIsSilent(s, th, a, t);
    case _ =>
  }

  lemma RunKeepsCount(states: seq<System>, steps: seq<Step>, k: nat, t: TaskId)
    requires IsRun(states, steps) && k < |states|
    ensures SystemInv(states[k]) && CountOk(states[k], t)
  {
    var p := s => SystemInv(s) && CountOk(s, t);
    forall s, step, s' | Next()(s, step, s') && p(s) ensures p(s') {
      StepKeepsInv(s, step);
      StepKeepsCount(s, step, t);
    }
    RunKeepsInv(states, steps, 0);
    Stays(Next(), p, states, steps, 0, k);
  }

  ghost predicate FinishOk(s: System, th: ThreadId, t: TaskId, back: Return, outcome: Outcome) {
    && SystemInv(s) && CountOk(s, t)
    && (Finishes(At(s, th), t, back, outcome) || (At(s, th) == GoBack(back) && CompletedWith(s, t, outcome)))
  }

  lemma FinishMoves(s: System, step: Step, th: ThreadId, t: TaskId, back: Return, outcome: Outcome)
    requires SystemInv(s) && CountOk(s, t) && Enabled(s, step) && IsMoveOf(step, th)
    requires Finishes(At(s, th), t, back, outcome)
    ensures Finishes(At(Apply(s, step), th), t, back, outcome) ||
            (At(Apply(s, step), th) == GoBack(back) && CompletedWith(Apply(s, step), t, outcome))
  {
    FinisherSteps(s, step, th, t, back, outcome);
    if !At(s, th).Finishing? {
      FinisherFacts(s, th, t, back, outcome);
      ReleaseFinishes(s, th, step.r, t, back, outcome);
    }
  }

  lemma FinisherSteps(s: System, step: Step, th: ThreadId, t: TaskId, back: Return, outcome: Outcome)
    requires Enabled(s, step) && IsMoveOf(step, th) && Finishes(At(s, th), t, back, outcome)
    ensures if At(s, th).Finishing? then step == OfPoll(th, StoreDone) else step.OfRelease?
  {
  }

  lemma FinisherFacts(s: System, th: ThreadId, t: TaskId, back: Return, outcome: Outcome)
    requires SystemInv(s) && Finishes(At(s, th), t, back, outcome) && !At(s, th).Finishing?
    ensures IsDone(s, t) && StageOk(RoleOf(At(s, th), t), s.tasks[t])
  {
    assert TaskInv(s, t) && Mentions(At(s, th), t);
    assert Releases(RolesOf(s, t)(th));
  }

  lemma ReleaseFinishes(s: System, th: ThreadId, r: ReleaseMove, t: TaskId, back: Return, outcome: Outcome)
    requires CountOk(s, t) && ReleaseEnabled(s, th, r) && Finishes(At(s, th), t, back, outcome)
    requires IsDone(s, t) && StageOk(RoleOf(At(s, th), t), s.tasks[t])
    ensures Finishes(At(ReleaseApply(s, th, r), th), t, back, outcome) ||
            (At(ReleaseApply(s, th, r), th) == GoBack(back) && CompletedWith(ReleaseApply(s, th, r), t, outcome))
  {
  }

  lemma StepKeepsFinish(s: System, step: Step, th: ThreadId, t: TaskId, back: Return, outcome: Outcome)
    requires FinishOk(s, th, t, back, outcome) && At(s, th) != GoBack(back) && Enabled(s, step)
    ensures FinishOk(Apply(s, step), th, t, back, outcome)
  {
    StepKeepsInv(s, step);
    StepKeepsCount(s, step, t);
    if IsMoveOf(step, th) { FinishMoves(s, step, th, t, back, outcome); } else { OtherThreadsStay(s, step, th); }
  }

  lemma FinishingCompletes(states: seq<System>, steps: seq<Step>, i: nat, j: nat, th: ThreadId,
                           t: TaskId, back: Return, outcome: Outcome)
    requires IsRun(states, steps) && i < j < |states| && Finishes(At(states[i], th), t, back, outcome)
    requires forall k :: i <= k < j ==> At(states[k], th) != GoBack(back)
    ensures Finishes(At(states[j], th), t, back, outcome) ||
            (At(states[j], th) == GoBack(back) && CompletedWith(states[j], t, outcome))
  {
    var next := (s, step, s') => Next()(s, step, s') && At(s, th) != GoBack(back);
    forall s, step, s' | next(s, step, s') && FinishOk(s, th, t, back, outcome)
      ensures FinishOk(s', th, t, back, outcome)
    {
      StepKeepsFinish(s, step, th, t, back, outcome);
    }
    RunKeepsCount(states, steps, i, t);
    Stays(next, s => FinishOk(s, th, t, back, outcome), states, steps, i, j);
  }

  /** A future that is ready, or panicked, ends its task: when the thread is back at its
      poll loop the task is DONE, its future dropped, and that very outcome published,
      once. */
  lemma FinishedFutureCompletes(states: seq<System>, steps: seq<Step>, i: nat, j: nat, th: ThreadId, t: TaskId,
                                outcome: Outcome)
    requires IsRun(states, steps) && i < j < |states|
    requires At(states[i], th) == RunningFuture(t) && steps[i] == OfPoll(th, ReturnFinished(outcome))
    requires BusyBetween(states, i, j, th) && At(states[j], th).Ready?
    ensures IsDone(states[j], t) && Released(states[j].tasks[t]) && PublishedOf(states[j], t) == [outcome]
  {
    StepOf(states, steps, i);
    FinishingCompletes(states, steps, i + 1, j, th, t, ToPool, outcome);
  }

  /** A shutdown that takes a task to DONE completes it as aborted before it goes on. */
  lemma AbortedTaskCompletes(states: seq<System>, steps: seq<Step>, i: nat, j: nat, th: ThreadId, t: TaskId)
    requires IsRun(states, steps) && i < j < |states| && steps[i] == OfAbort(th, AbortSwap)
    requires t in states[i].tasks && states[i].tasks[t].state != Done && IsDone(states[i + 1], t)
    requires (forall k :: i < k < j ==> !At(states[k], th).AbortLoading?) && At(states[j], th).AbortLoading?
    ensures IsDone(states[j], t) && Released(states[j].tasks[t]) && PublishedOf(states[j], t) == [Aborted]
  {
    StepOf(states, steps, i);
    var pc := At(states[i], th);
    FinishingCompletes(states, steps, i + 1, j, th, t, ToAbort(pc.todo, pc.next), Aborted);
  }

  // ---------------------------------------------------------------------------
  // Where completions come from
  // ---------------------------------------------------------------------------

  /** The thread will publish `outcome` for `t`. */
  predicate WillPublish(pc: Pc, t: TaskId, outcome: Outcome) {
    (pc.Finishing? || pc.DroppingFuture? || pc.TakingNotifier? || pc.Publishing?) && pc.t == t && pc.outcome == outcome
  }

  /** In this step the future of `t` answers `outcome`, or a shutdown aborts `t`. */
  predicate Decides(s: System, step: Step, t: TaskId, outcome: Outcome) {
    || (step.OfPoll? && step.p == ReturnFinished(outcome) && At(s, step.th) == RunningFuture(t))
    || (&& step.OfAbort? && step.a.AbortSwap? && At(s, step.th).AbortSwapping? && outcome.Aborted?
        && At(s, step.th).next < |At(s, step.th).todo| && At(s, step.th).todo[At(s, step.th).next] == t)
  }

  ghost predicate Decided(states: seq<System>, steps: seq<Step>, k: nat, t: TaskId, outcome: Outcome)
    requires k <= |steps| < |states|
  {
    exists i :: 0 <= i < k && Decides(states[i], steps[i], t, outcome)
  }

  ghost predicate Undecided(s: System, t: TaskId, outcome: Outcome) {
    SystemInv(s) && outcome !in PublishedOf(s, t) && forall th :: !WillPublish(At(s, th), t, outcome)
  }

  /** A thread about to poll finds the future in its slot. */
  lemma EntersWithFuture(s: System, th: ThreadId)
    requires SystemInv(s) && At(s, th).EnteringPoll?
    ensures At(s, th).t in s.tasks && s.tasks[At(s, th).t].future
  {
    var t := At(s, th).t;
    assert TaskInv(s, t) && Mentions(At(s, th), t);
    assert RolesOf(s, t)(th).Runs?;
  }

  lemma PollerDecided(s: System, th: ThreadId, p: PollMove, t: TaskId, outcome: Outcome)
    requires PollEnabled(s, th, p) && WillPublish(At(PollApply(s, th, p), th), t, outcome)
    requires p.EnterPoll? ==> s.tasks[At(s, th).t].future
    ensures WillPublish(At(s, th), t, outcome) || Decides(s, OfPoll(th, p), t, outcome)
  {
  }

  lemma ReleaserDecided(s: System, th: ThreadId, r: ReleaseMove, t: TaskId, outcome: Outcome)
    requires ReleaseEnabled(s, th, r) && WillPublish(At(ReleaseApply(s, th, r), th), t, outcome)
    ensures WillPublish(At(s, th), t, outcome)
  {
  }

  lemma AborterDecided(s: System, th: ThreadId, a: AbortMove, t: TaskId, outcome: Outcome)
    requires AbortEnabled(s, th, a) && WillPublish(At(AbortApply(s, th, a), th), t, outcome)
    ensures Decides(s, OfAbort(th, a), t, outcome)
  {
  }

  lemma OthersPublishNone(s: System, step: Step, t: TaskId, outcome: Outcome)
    requires Enabled(s, step) && (step.OfQueue? || step.OfWake?)
    ensures !WillPublish(At(Apply(s, step), step.th), t, outcome)
  {
  }

  lemma PublisherDecided(s: System, step: Step, t: TaskId, outcome: Outcome)
    requires SystemInv(s) && Enabled(s, step) && IsMove(step) && WillPublish(At(Apply(s, step), step.th), t, outcome)
    ensures WillPublish(At(s, step.th), t, outcome) || Decides(s, step, t, outcome)
  {
    match step
    case OfPoll(th, p) =>
      if p.EnterPoll? { EntersWithFuture(s, th); }
      PollerDecided(s, th, p, t, outcome);
    case OfRelease(th, r) => ReleaserDecided(s, th, r, t, outcome);
    case OfAbort(th, a) => AborterDecided(s, th, a, t, outcome);
    case _ => OthersPublishNone(s, step, t, outcome);
  }

  lemma StaysUndecided(s: System, step: Step, t: TaskId, outcome: Outcome)
    requires Undecided(s, t, outcome) && Enabled(s, step) && !Decides(s, step, t, outcome)
    ensures Undecided(Apply(s, step), t, outcome)
  {
    var s' := Apply(s, step);
    StepKeepsInv(s, step);
    forall th ensures !WillPublish(At(s', th), t, outcome) {
      if IsMoveOf(step, th) {
        if WillPublish(At(s', th), t, outcome) { PublisherDecided(s, step, t, outcome); }
      } else {
        OtherThreadsStay(s, step, th);
      }
    }
    if IsMove(step) { assert !WillPublish(At(s, step.th), t, outcome); }
    if outcome in PublishedOf(s', t) { PublishedWasWaiting(s, step, t, outcome); }
  }

  lemma PublishedWasWaiting(s: System, step: Step, t: TaskId, outcome: Outcome)
    requires Enabled(s, step) && outcome in PublishedOf(Apply(s, step), t)
    ensures outcome in PublishedOf(s, t) || (IsMove(step) && WillPublish(At(s, step.th), t, outcome))
  {
  }

  /** Whatever completion is published, the task's own future answered it, or a shutdown
      aborted the task; in particular no task is ever polled without its future. */
  lemma CompletionsWereDecided(states: seq<System>, steps: seq<Step>, k: nat, t: TaskId, outcome: Outcome)
    requires IsRun(states, steps) && k < |states| && outcome in PublishedOf(states[k], t)
    ensures Decided(states, steps, k, t, outcome) && !outcome.NoFuture?
  {
    if !Decided(states, steps, k, t, outcome) {
      var next := (s, step, s') => Next()(s, step, s') && !Decides(s, step, t, outcome);
      forall s, step, s' | next(s, step, s') && Undecided(s, t, outcome) ensures Undecided(s', t, outcome) {
        StaysUndecided(s, step, t, outcome);
      }
      RunKeepsInv(states, steps, 0);
      Stays(next, s => Undecided(s, t, outcome), states, steps, 0, k);
    } else {
      var i :| 0 <= i < k && Decides(states[i], steps[i], t, outcome);
      StepOf(states, steps, i);
    }
  }

  // ---------------------------------------------------------------------------
  // A future that is pending
  // ---------------------------------------------------------------------------

  /** The thread is on its way from a pending future of `t` to its poll loop. */
  predicate Settles(pc: Pc, t: TaskId) {
    pc == Returned(t) || pc == Enqueueing(t)
  }

  ghost predicate SettleOk(s: System, th: ThreadId, t: TaskId) {
    SystemInv(s) && (Settles(At(s, th), t) || At(s, th).Ready?)
  }

  lemma SettleMoves(s: System, step: Step, th: ThreadId, t: TaskId)
    requires SystemInv(s) && Enabled(s, step) && IsMoveOf(step, th) && Settles(At(s, th), t)
    ensures Settled(s, step, Apply(s, step), th, t)
  {
    SettlerSteps(s, step, th, t);
    SettlerFacts(s, th, t);
  }

  lemma SettlerSteps(s: System, step: Step, th: ThreadId, t: TaskId)
    requires Enabled(s, step) && IsMoveOf(step, th) && Settles(At(s, th), t)
    ensures step == if At(s, th).Returned? then OfPoll(th, Settle) else OfQueue(th, Enqueue)
  {
  }

  lemma SettlerFacts(s: System, th: ThreadId, t: TaskId)
    requires SystemInv(s) && Settles(At(s, th), t)
    ensures t in s.tasks && (At(s, th).Returned? ==> s.tasks[t].state in {Polling, Queued})
  {
    assert TaskInv(s, t) && Mentions(At(s, th), t);
    assert HoldsTicket(RolesOf(s, t)(th));
    if At(s, th).Returned? { assert RolesOf(s, t)(th).Runs?; }
  }

  /** The thread's step settles a pending task: it makes a POLLING task IDLE and is done;
      finds the task QUEUED, and then enqueues it and is done. */
  predicate Settled(s: System, step: Step, s': System, th: ThreadId, t: TaskId) {
    && t in s.tasks && t in s'.tasks
    && if At(s, th) == Returned(t) then
         && step == OfPoll(th, Settle) && s'.queue == s.queue
         && if s.tasks[t].state == Polling then s'.tasks[t].state == Idle && At(s', th).Ready?
            else s.tasks[t].state == Queued && s'.tasks[t].state == Queued && At(s', th) == Enqueueing(t)
       else
         && At(s, th) == Enqueueing(t) && step == OfQueue(th, Enqueue)
         && s'.queue == s.queue + [t] && s'.tasks == s.tasks && At(s', th).Ready?
  }

  /** After a future returned pending, every step its thread takes until it is back at its
      poll loop settles the task so. */
  lemma PendingFutureSettles(states: seq<System>, steps: seq<Step>, i: nat, k: nat, th: ThreadId, t: TaskId)
    requires IsRun(states, steps) && i < k < |steps|
    requires At(states[i], th) == RunningFuture(t) && steps[i] == OfPoll(th, ReturnPending)
    requires BusyBetween(states, i, k + 1, th) && IsMoveOf(steps[k], th)
    ensures Settled(states[k], steps[k], states[k + 1], th, t)
  {
    SettlingLasts(states, steps, i, k, th, t);
    StepOf(states, steps, k);
    SettleMoves(states[k], steps[k], th, t);
  }

  lemma SettlingLasts(states: seq<System>, steps: seq<Step>, i: nat, k: nat, th: ThreadId, t: TaskId)
    requires IsRun(states, steps) && i < k < |states|
    requires At(states[i], th) == RunningFuture(t) && steps[i] == OfPoll(th, ReturnPending)
    requires BusyBetween(states, i, k, th)
    ensures SettleOk(states[k], th, t)
  {
    var next := (s, step, s') => Next()(s, step, s') && !At(s, th).Ready?;
    forall s, step, s' | next(s, step, s') && SettleOk(s, th, t) ensures SettleOk(s', th, t) {
      StepKeepsInv(s, step);
      if IsMoveOf(step, th) { SettleMoves(s, step, th, t); } else { OtherThreadsStay(s, step, th); }
    }
    StepOf(states, steps, i);
    RunKeepsInv(states, steps, i + 1);
    Stays(next, s => SettleOk(s, th, t), states, steps, i + 1, k);
  }

  /** So none of them finishes the task. */
  lemma PendingFutureIsNotFinished(states: seq<System>, steps: seq<Step>, i: nat, k: nat, th: ThreadId, t: TaskId)
    requires IsRun(states, steps) && i <= k < |steps|
    requires At(states[i], th) == RunningFuture(t) && steps[i] == OfPoll(th, ReturnPending)
    requires BusyBetween(states, i, k + 1, th) && IsMoveOf(steps[k], th)
    ensures IsDone(states[k + 1], t) ==> IsDone(states[k], t)
  {
    if i < k {
      PendingFutureSettles(states, steps, i, k, th, t);
    } else {
      StepOf(states, steps, i);
    }
  }

  // ---------------------------------------------------------------------------
  // First in, first out
  // ---------------------------------------------------------------------------

  /** The task this step enqueues, if it does. */
  function EnqueuedBy(s: System, step: Step): seq<TaskId> {
    if step.OfQueue? && step.q.Enqueue? && At(s, step.th).Enqueueing? then [At(s, step.th).t] else []
  }

  /** The task this step takes for its thread to claim, if it does. */
  function TakenBy(step: Step, s': System): seq<TaskId> {
    if step.OfQueue? && step.q.Dequeue? && At(s', step.th).Claiming? then [At(s', step.th).t] else []
  }

  /** The tasks enqueued in steps `i` to `j`, in order. */
  function EnqueuedIn(states: seq<System>, steps: seq<Step>, i: nat, j: nat): seq<TaskId>
    requires i <= j <= |steps| < |states|
  {
    if i == j then [] else EnqueuedIn(states, steps, i, j - 1) + EnqueuedBy(states[j - 1], steps[j - 1])
  }

  /** The tasks taken off the queue in steps `i` to `j`, in order. */
  function TakenIn(states: seq<System>, steps: seq<Step>, i: nat, j: nat): seq<TaskId>
    requires i <= j <= |steps| < |states|
  {
    if i == j then [] else TakenIn(states, steps, i, j - 1) + TakenBy(steps[j - 1], states[j])
  }

  predicate ClearsQueue(step: Step) {
    step.OfAbort? && step.a.ClearQueue?
  }

  lemma QueueServes(s: System, th: ThreadId, q: QueueMove)
    requires QueueEnabled(s, th, q)
    ensures s.queue + EnqueuedBy(s, OfQueue(th, q)) ==
            TakenBy(OfQueue(th, q), QueueApply(s, th, q)) + QueueApply(s, th, q).queue
  {
    if q.Dequeue? { assert s.queue == [s.queue[0]] + s.queue[1..]; }
    assert s.queue + [] == s.queue && [] + s.queue == s.queue;
  }

  lemma OthersKeepQueue(s: System, step: Step)
    requires Enabled(s, step) && !step.OfQueue? && !ClearsQueue(step)
    ensures Apply(s, step).queue == s.queue
  {
  }

  lemma StepServes(s: System, step: Step)
    requires Enabled(s, step)
    ensures if ClearsQueue(step) then Apply(s, step).queue == []
            else s.queue + EnqueuedBy(s, step) == TakenBy(step, Apply(s, step)) + Apply(s, step).queue
  {
    if step.OfQueue? {
      QueueServes(s, step.th, step.q);
    } else if !ClearsQueue(step) {
      OthersKeepQueue(s, step);
      assert s.queue + [] == [] + s.queue;
    }
  }

  lemma Regrouped(queue: seq<TaskId>, pushed: seq<TaskId>, more: seq<TaskId>,
                  taken: seq<TaskId>, middle: seq<TaskId>, next: seq<TaskId>, last: seq<TaskId>)
    requires queue + pushed == taken + middle && middle + more == next + last
    ensures queue + (pushed + more) == (taken + next) + last
  {
    assert queue + (pushed + more) == queue + pushed + more;
    assert taken + middle + more == taken + (middle + more);
    assert taken + (next + last) == (taken + next) + last;
  }

  /** Until a shutdown clears the queue, tasks are taken off it in the order in which they
      were enqueued, each once and none left out; the others are still queued, in order. */
  lemma {:induction false} FirstInFirstOut(states: seq<System>, steps: seq<Step>, i: nat, j: nat)
    requires IsRun(states, steps) && i <= j < |states|
    requires forall k :: i <= k < j ==> !ClearsQueue(steps[k])
    ensures states[i].queue + EnqueuedIn(states, steps, i, j) == TakenIn(states, steps, i, j) + states[j].queue
    decreases j - i
  {
    if i < j {
      FirstInFirstOut(states, steps, i, j - 1);
      StepOf(states, steps, j - 1);
      StepServes(states[j - 1], steps[j - 1]);
      Regrouped(states[i].queue, EnqueuedIn(states, steps, i, j - 1), EnqueuedBy(states[j - 1], steps[j - 1]),
                TakenIn(states, steps, i, j - 1), states[j - 1].queue,
                TakenBy(steps[j - 1], states[j]), states[j].queue);
    } else {
      assert states[i].queue + [] == [] + states[i].queue;
    }
  }

  // ---------------------------------------------------------------------------
  // The live list
  // ---------------------------------------------------------------------------

  /** In this step `t` is put on the live list. */
  predicate Lists(s: System, step: Step, t: TaskId) {
    step.OfQueue? && step.q.PushLive? && At(s, step.th) == Registering(t)
  }

  ghost predicate ListedBetween(states: seq<System>, steps: seq<Step>, i: nat, j: nat, t: TaskId)
    requires j <= |steps| < |states|
  {
    exists k :: i < k < j && Lists(states[k], steps[k], t)
  }

  lemma OthersListNothing(s: System, step: Step)
    requires Enabled(s, step) && !step.OfQueue?
    ensures Apply(s, step).live == s.live || Apply(s, step).live == []
  {
  }

  lemma OnlyListingLists(s: System, step: Step, t: TaskId)
    requires Enabled(s, step) && !Lists(s, step, t) && t !in s.live
    ensures t !in Apply(s, step).live
  {
    if !step.OfQueue? { OthersListNothing(s, step); }
  }

  /** abort_all empties the live list: what is on it afterwards was registered since. */
  lemma ListedAfterDrain(states: seq<System>, steps: seq<Step>, i: nat, j: nat, t: TaskId)
    requires IsRun(states, steps) && i < j < |states|
    requires steps[i].OfAbort? && steps[i].a.DrainLive? && t in states[j].live
    ensures ListedBetween(states, steps, i, j, t)
  {
    if !ListedBetween(states, steps, i, j, t) {
      var next := (s, step, s') => Next()(s, step, s') && !Lists(s, step, t);
      var p := (s: System) => t !in s.live;
      forall s, step, s' | next(s, step, s') && p(s) ensures p(s') { OnlyListingLists(s, step, t); }
      StepOf(states, steps, i);
      Stays(next, p, states, steps, i + 1, j);
    }
  }
}
