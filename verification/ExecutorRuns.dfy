/**
 The promises of the executor protocol, over every run: one ticket per task, no
 lost wake, one completion per task, and a shutdown that reaches every task.
 */
module ExecutorRuns {
  import opened Runs
  import opened TaskProtocol
  import opened ExecutorTasks
  import opened ExecutorSafety

  /** Every state of every run satisfies the invariant. */
  lemma RunKeepsInv(states: seq<System>, steps: seq<Step>, k: nat)
    requires IsRun(states, steps) && k < |states|
    ensures SystemInv(states[k])
  {
    assert forall th :: At(INITIAL, th) == Ready;
    forall s, step, s' | Next()(s, step, s') && SystemInv(s) ensures SystemInv(s') { StepKeepsInv(s, step); }
    Stays(Next(), s => SystemInv(s), states, steps, 0, k);
  }

  /** Step `k` of a run is enabled and leads to the next state. */
  lemma StepOf(states: seq<System>, steps: seq<Step>, k: nat)
    requires IsRun(states, steps) && k < |steps|
    ensures Enabled(states[k], steps[k]) && states[k + 1] == Apply(states[k], steps[k])
  {
    assert Next()(states[k], steps[k], states[k + 1]);
  }

  // ---------------------------------------------------------------------------
  // One ticket
  // ---------------------------------------------------------------------------

  /** The threads holding the right to enqueue or poll `t`. */
  function Holders(s: System, t: TaskId): set<ThreadId> {
    set th | th in s.threads && HoldsTicket(RoleOf(s.threads[th], t))
  }

  /** Ready-queue entries of `t` plus threads that owe or run a poll of it. */
  function Tickets(s: System, t: TaskId): nat {
    multiset(s.queue)[t] + |Holders(s, t)|
  }

  lemma HoldersFromRoles(s: System, t: TaskId)
    requires forall a, b :: HoldsTicket(RolesOf(s, t)(a)) && HoldsTicket(RolesOf(s, t)(b)) ==> a == b
    ensures |Holders(s, t)| == if Held(RolesOf(s, t)) then 1 else 0
  {
    assert forall th :: HoldsTicket(RolesOf(s, t)(th)) <==> th in Holders(s, t);
    if Held(RolesOf(s, t)) {
      var th: ThreadId :| HoldsTicket(RolesOf(s, t)(th));
      assert Holders(s, t) == {th};
    } else {
      assert Holders(s, t) == {};
    }
  }

  /** In every reachable state: a task that is QUEUED or POLLING has exactly one
      ticket, one that is IDLE or DONE has none. Once the pool has stopped for good
      and shutdown may have emptied the queue, it still never has two. */
  lemma OneTicket(states: seq<System>, steps: seq<Step>, k: nat, t: TaskId)
    requires IsRun(states, steps) && k < |states| && t in states[k].tasks
    ensures Tickets(states[k], t) <= 1
    ensures !states[k].stopped ==>
              Tickets(states[k], t) == if states[k].tasks[t].state in {Queued, Polling} then 1 else 0
  {
    RunKeepsInv(states, steps, k);
    assert TaskInv(states[k], t);
    HoldersFromRoles(states[k], t);
  }

  /** No task is ever polled by two threads, and a thread about to poll finds the
      future in its slot: the "already consumed" branch of poll is dead. */
  lemma PollsAreExclusive(states: seq<System>, steps: seq<Step>, k: nat, t: TaskId, a: ThreadId, b: ThreadId)
    requires IsRun(states, steps) && k < |states|
    requires RoleOf(At(states[k], a), t).Runs?
    ensures RoleOf(At(states[k], b), t).Runs? ==> a == b
    ensures t in states[k].tasks && t !in states[k].queue
    ensures Untouched(states[k].tasks[t]) && !states[k].stopped
  {
    RunKeepsInv(states, steps, k);
    var s := states[k];
    assert TaskInv(s, t) && Mentions(At(s, a), t);
    assert RolesOf(s, t)(a).Runs? && RolesOf(s, t)(b) == RoleOf(At(s, b), t);
  }

  // ---------------------------------------------------------------------------
  // No wake is lost
  // ---------------------------------------------------------------------------

  /** try_wake on `t` decides in this step: it made the task QUEUED, or saw it
      QUEUED or DONE. */
  predicate WakeTakesEffect(s: System, step: Step, t: TaskId)
  {
    && step.OfWake?
    && Enabled(s, step)
    && ((At(s, step.th).Waking? && At(s, step.th).t == t) || (At(s, step.th).Rewaking? && At(s, step.th).t == t))
    && !At(Apply(s, step), step.th).Rewaking?
  }

  /** try_start_poll on `t` succeeds in this step. */
  predicate Begins(s: System, step: Step, t: TaskId) {
    step.OfPoll? && step.p.Claim? && At(s, step.th) == Claiming(t) && t in s.tasks && s.tasks[t].state == Queued
  }

  /** What one step may do to the state of an existing task. */
  predicate StateMoveOk(s: System, step: Step, t: TaskId)
    requires Enabled(s, step) && t in s.tasks
  {
    var s' := Apply(s, step);
    && t in s'.tasks
    && (s.tasks[t].state == Done ==> s'.tasks[t].state == Done && !Begins(s, step, t))
    && (s.tasks[t].state == Queued ==> s'.tasks[t].state in {Queued, Done} || Begins(s, step, t))
  }

  lemma StateMoves(s: System, step: Step, t: TaskId)
    requires SystemInv(s) && Enabled(s, step) && t in s.tasks
    ensures StateMoveOk(s, step, t)
  {
    if IsMove(step) { assert ThreadOk(At(s, step.th), s.stopped); }
    match step
    case OfQueue(_, _) =>
    case OfPoll(_, _) => PollStateMoves(s, step, t);
    case OfRelease(_, _) =>
    case OfWake(_, _) =>
    case OfAbort(_, _) =>
    case _ =>
  }

  lemma PollStateMoves(s: System, step: Step, t: TaskId)
    requires Enabled(s, step) && t in s.tasks && step.OfPoll?
    ensures StateMoveOk(s, step, t)
  {
  }

  lemma WakeLeavesQueued(s: System, step: Step, t: TaskId)
    requires SystemInv(s) && Enabled(s, step) && WakeTakesEffect(s, step, t)
    ensures t in Apply(s, step).tasks && Apply(s, step).tasks[t].state in {Queued, Done}
  {
    assert ThreadOk(At(s, step.th), s.stopped);
  }

  /** A state that is QUEUED or DONE stays so until a poll begins. */
  lemma StaysQueued(states: seq<System>, steps: seq<Step>, i: nat, j: nat, t: TaskId)
    requires IsRun(states, steps) && i <= j < |states|
    requires t in states[i].tasks && states[i].tasks[t].state in {Queued, Done}
    requires forall k :: i <= k < j ==> !Begins(states[k], steps[k], t)
    ensures t in states[j].tasks && states[j].tasks[t].state in {Queued, Done}
  {
    var next := (s, step, s') => Next()(s, step, s') && !Begins(s, step, t);
    var waits := s => SystemInv(s) && t in s.tasks && s.tasks[t].state in {Queued, Done};
    forall s, step, s' | next(s, step, s') && waits(s) ensures waits(s') {
      StepKeepsInv(s, step);
      StateMoves(s, step, t);
    }
    RunKeepsInv(states, steps, i);
    Stays(next, waits, states, steps, i, j);
  }

  /** Once a wake has taken effect, the task stays QUEUED until a poll of it begins
      (or it finishes); and if by then no thread is on its way to enqueue or poll it,
      it is in the ready queue, once. */
  lemma NoLostWake(states: seq<System>, steps: seq<Step>, i: nat, j: nat, t: TaskId)
    requires IsRun(states, steps) && i < j < |states|
    requires WakeTakesEffect(states[i], steps[i], t)
    requires forall k :: i < k < j ==> !Begins(states[k], steps[k], t)
    ensures t in states[j].tasks && states[j].tasks[t].state in {Queued, Done}
    ensures states[j].tasks[t].state == Queued && !states[j].stopped && Holders(states[j], t) == {} ==>
              multiset(states[j].queue)[t] == 1
  {
    RunKeepsInv(states, steps, i);
    StepOf(states, steps, i);
    WakeLeavesQueued(states[i], steps[i], t);
    StaysQueued(states, steps, i + 1, j, t);
    OneTicket(states, steps, j, t);
  }

  // ---------------------------------------------------------------------------
  // One completion
  // ---------------------------------------------------------------------------

  /** A completion is published at most once, and only for a task that is DONE and
      whose future has been dropped. */
  lemma CompletesAtMostOnce(states: seq<System>, steps: seq<Step>, k: nat, t: TaskId)
    requires IsRun(states, steps) && k < |states| && t in states[k].tasks
    ensures states[k].tasks[t].completions <= 1
    ensures states[k].tasks[t].completions == 1 ==> states[k].tasks[t].state == Done && !states[k].tasks[t].future
  {
    RunKeepsInv(states, steps, k);
    assert TaskInv(states[k], t);
  }

  /** DONE is permanent: no later wake changes it and no later poll begins, whatever
      entries racing wakes leave in the queue. */
  lemma DoneIsPermanent(states: seq<System>, steps: seq<Step>, i: nat, j: nat, t: TaskId)
    requires IsRun(states, steps) && i <= j < |states| && t in states[i].tasks && states[i].tasks[t].state == Done
    ensures t in states[j].tasks && states[j].tasks[t].state == Done
    ensures j < |steps| ==> !Begins(states[j], steps[j], t)
  {
    var done := s => SystemInv(s) && t in s.tasks && s.tasks[t].state == Done;
    forall s, step, s' | Next()(s, step, s') && done(s) ensures done(s') {
      StepKeepsInv(s, step);
      StateMoves(s, step, t);
    }
    RunKeepsInv(states, steps, i);
    Stays(Next(), done, states, steps, i, j);
  }

  // ---------------------------------------------------------------------------
  // Shutdown
  // ---------------------------------------------------------------------------

  ghost predicate AllReady(s: System) {
    forall th :: At(s, th).Ready?
  }

  predicate IsDone(s: System, t: TaskId) {
    t in s.tasks && s.tasks[t].state == Done
  }

  /** The tasks that the abort_all at `pc` has passed are DONE. */
  predicate DoneBehind(s: System, pc: Pc) {
    AbortOf(pc).ToAbort? ==>
      forall i :: 0 <= i < AbortOf(pc).next && i < |AbortOf(pc).todo| ==> IsDone(s, AbortOf(pc).todo[i])
  }

  lemma AbortLeavesDone(s: System, th: ThreadId, a: AbortMove)
    requires ThreadOk(At(s, th), s.stopped) && AbortEnabled(s, th, a) && DoneBehind(s, At(s, th))
    requires a.AbortLoad? || a.AbortSwap? ==> FactsFor(s, th, At(s, th).todo[At(s, th).next])
    ensures DoneBehind(AbortApply(s, th, a), At(AbortApply(s, th, a), th))
  {
    var s' := AbortApply(s, th, a);
    assert forall t :: IsDone(s, t) ==> IsDone(s', t);
  }

  lemma ReleaseLeavesDone(s: System, th: ThreadId, r: ReleaseMove)
    requires ThreadOk(At(s, th), s.stopped) && ReleaseEnabled(s, th, r) && DoneBehind(s, At(s, th))
    requires FactsFor(s, th, At(s, th).t)
    ensures DoneBehind(ReleaseApply(s, th, r), At(ReleaseApply(s, th, r), th))
  {
    var s' := ReleaseApply(s, th, r);
    assert forall t :: IsDone(s, t) ==> IsDone(s', t);
    assert IsDone(s, At(s, th).t);
  }

  /** Only abort_all and what it releases is inside an abort_all. */
  lemma OthersDoNotAbort(s: System, step: Step)
    requires Enabled(s, step) && (step.OfQueue? || step.OfPoll? || step.OfWake?)
    ensures !AbortOf(At(Apply(s, step), step.th)).ToAbort?
  {
  }

  lemma StepLeavesDone(s: System, step: Step, th: ThreadId)
    requires SystemInv(s) && Enabled(s, step) && DoneBehind(s, At(s, th))
    ensures DoneBehind(Apply(s, step), At(Apply(s, step), th))
  {
    if IsMove(step) && step.th == th {
      assert ThreadOk(At(s, th), s.stopped);
      match step
      case OfAbort(_, a) =>
        if a.AbortLoad? || a.AbortSwap? { TaskFacts(s, th, At(s, th).todo[At(s, th).next]); }
        AbortLeavesDone(s, th, a);
      case OfRelease(_, r) =>
        TaskFacts(s, th, At(s, th).t);
        ReleaseLeavesDone(s, th, r);
      case _ => OthersDoNotAbort(s, step);
    } else {
      OtherThreadsStay(s, step, th);
      forall t | IsDone(s, t) ensures IsDone(Apply(s, step), t) { StateMoves(s, step, t); }
    }
  }

  lemma TaskFacts(s: System, th: ThreadId, t: TaskId)
    requires SystemInv(s)
    ensures FactsFor(s, th, t)
  {
    assert TaskInv(s, t);
    InvGivesFacts(s, th, t);
  }

  lemma OtherThreadsStay(s: System, step: Step, th: ThreadId)
    requires SystemInv(s) && Enabled(s, step) && !(IsMove(step) && step.th == th)
    ensures At(Apply(s, step), th) == At(s, th)
  {
    if IsMove(step) { MoveKeepsThreads(s, step); }
  }

  lemma RunLeavesDone(states: seq<System>, steps: seq<Step>, k: nat, th: ThreadId)
    requires IsRun(states, steps) && k < |states|
    ensures SystemInv(states[k]) && DoneBehind(states[k], At(states[k], th))
  {
    var p := s => SystemInv(s) && DoneBehind(s, At(s, th));
    forall s, step, s' | Next()(s, step, s') && p(s) ensures p(s') {
      StepKeepsInv(s, step);
      StepLeavesDone(s, step, th);
    }
    RunKeepsInv(states, steps, 0);
    Stays(Next(), p, states, steps, 0, k);
  }

  /** abort_all sets out to abort every task on the live list that is still referenced. */
  lemma AbortAllTakesEveryTask(s: System, th: ThreadId, t: TaskId)
    requires AbortEnabled(s, th, DrainLive) && t in s.live && t in s.tasks && !s.tasks[t].dropped
    ensures t in AbortOf(At(AbortApply(s, th, DrainLive), th)).todo
  {
    UpgradeKeepsReferenced(s.tasks, s.live);
  }

  /** When abort_all returns, every task it set out to abort is DONE, whatever else ran
      meanwhile, and its completion is published, or being published by a thread that got
      there first. */
  lemma AbortAllFinishesItsTasks(states: seq<System>, steps: seq<Step>, k: nat, th: ThreadId, t: TaskId)
    requires IsRun(states, steps) && k < |states|
    requires At(states[k], th).AbortLoading? && At(states[k], th).next >= |At(states[k], th).todo|
    requires t in At(states[k], th).todo
    ensures IsDone(states[k], t)
    ensures Released(states[k].tasks[t]) || exists x :: Releases(RoleOf(At(states[k], x), t))
  {
    RunLeavesDone(states, steps, k, th);
    var s, todo := states[k], At(states[k], th).todo;
    var i :| 0 <= i < |todo| && todo[i] == t;
    assert IsDone(s, AbortOf(At(s, th)).todo[i]);
    assert TaskInv(s, t);
    if !Released(s.tasks[t]) {
      var x: ThreadId :| Releases(RolesOf(s, t)(x));
      assert Releases(RoleOf(At(s, x), t));
    }
  }

  /** And if by then nobody else registers or aborts tasks, nothing is left over: every
      referenced task that is not newly on the live list is DONE and completed. */
  lemma AbortAllLeavesNothing(states: seq<System>, steps: seq<Step>, k: nat, th: ThreadId, t: TaskId)
    requires IsRun(states, steps) && k < |states|
    requires At(states[k], th).AbortLoading? && At(states[k], th).next >= |At(states[k], th).todo|
    requires t in states[k].tasks && !states[k].tasks[t].dropped && t !in states[k].live
    requires forall x :: x != th ==> !At(states[k], x).Registering? && !AbortOf(At(states[k], x)).ToAbort?
    ensures states[k].stopped && states[k].tasks[t].state == Done && Released(states[k].tasks[t])
  {
    RunKeepsInv(states, steps, k);
    var s := states[k];
    assert TaskInv(s, t);
    assert ThreadOk(At(s, th), s.stopped);
    assert !Tracked(s, t);
    forall x ensures !Releases(RolesOf(s, t)(x)) {
      assert ThreadOk(At(s, x), s.stopped);
    }
  }

  /** After shutdown: once the pool has stopped, abort_all has drained the live list
      and every thread has returned, each task that is still referenced is DONE, its
      future is dropped and its completion was published exactly once. */
  lemma ShutdownCompletesEveryTask(states: seq<System>, steps: seq<Step>, k: nat, t: TaskId)
    requires IsRun(states, steps) && k < |states|
    requires states[k].stopped && states[k].live == [] && AllReady(states[k])
    requires t in states[k].tasks && !states[k].tasks[t].dropped
    ensures states[k].tasks[t].state == Done && Released(states[k].tasks[t])
  {
    RunKeepsInv(states, steps, k);
    var s := states[k];
    assert TaskInv(s, t);
    assert !Tracked(s, t);
    assert forall th :: RolesOf(s, t)(th).Bystander?;
  }
}
