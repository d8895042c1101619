/**
 What every interleaving of the executor registry keeps, for every number of tasks
 and threads: each task follows `TaskProtocol`, and shutdown reaches every task.
 */
module ExecutorSafety {
  import opened TaskProtocol
  import opened ExecutorTasks

  // ---------------------------------------------------------------------------
  // The registry as one task sees it
  // ---------------------------------------------------------------------------

  function RoleOf(pc: Pc, t: TaskId): Role {
    match pc
    case Registering(u) => if u == t then Owes else Bystander
    case Enqueueing(u) => if u == t then Owes else Bystander
    case Claiming(u) => if u == t then Owes else Bystander
    case EnteringPoll(u) => if u == t then Runs else Bystander
    case RunningFuture(u) => if u == t then Runs else Bystander
    case Returned(u) => if u == t then Runs else Bystander
    case Finishing(u, _) => if u == t then Runs else Bystander
    case DroppingFuture(u, _, _) => if u == t then DropsFuture else Bystander
    case TakingNotifier(u, _, _) => if u == t then TakesNotifier else Bystander
    case Publishing(u, _, _) => if u == t then Publishes else Bystander
    case _ => Bystander
  }

  function RolesOf(s: System, t: TaskId): Roles {
    (th: ThreadId) => RoleOf(At(s, th), t)
  }

  function ViewOf(s: System, t: TaskId): View
    requires t in s.tasks
  {
    View(s.tasks[t], multiset(s.queue)[t], s.stopped)
  }

  // ---------------------------------------------------------------------------
  // The invariant
  // ---------------------------------------------------------------------------

  /** A program counter is one its thread's code can be at. */
  predicate PcOk(pc: Pc) {
    && (pc.Rewaking? ==> pc.seen == Idle || pc.seen == Polling)
    && (pc.AbortSwapping? ==> pc.seen == Idle || pc.seen == Queued)
    && (AbortOf(pc).ToAbort? ==> AbortOf(pc).next <= |AbortOf(pc).todo|)
    && (pc.DroppingFuture? || pc.TakingNotifier? || pc.Publishing? ==>
          pc.back.ToAbort? ==> pc.back.next < |pc.back.todo| && pc.back.todo[pc.back.next] == pc.t)
  }

  predicate ThreadOk(pc: Pc, stopped: bool) {
    PcOk(pc) && (stopped ==> !InPool(pc)) && (AbortOf(pc).ToAbort? ==> stopped)
  }

  ghost predicate ThreadsOk(s: System) {
    forall th :: ThreadOk(At(s, th), s.stopped)
  }

  /** Only existing, referenced tasks are named. */
  ghost predicate RefsOk(s: System, t: TaskId) {
    && (t !in s.tasks || s.tasks[t].dropped ==> t !in s.queue && forall th :: !Mentions(At(s, th), t))
    && (t !in s.tasks ==> t !in s.live)
  }

  /** An unfinished task is on the live list, or on its way there, or on the list of
      an abort_all that has not reached it. */
  ghost predicate Tracked(s: System, t: TaskId) {
    || t in s.live
    || (exists th :: At(s, th) == Registering(t))
    || (exists th :: ToBeAborted(At(s, th), t))
  }

  /** `t` is in `todo` at `next` or later. */
  predicate Remains(todo: seq<TaskId>, next: nat, t: TaskId) {
    exists i :: next <= i < |todo| && todo[i] == t
  }

  /** abort_all, at this program counter, has still to deal with `t`. */
  predicate ToBeAborted(pc: Pc, t: TaskId) {
    AbortOf(pc).ToAbort? && Remains(AbortOf(pc).todo, AbortOf(pc).next, t)
  }

  ghost predicate TaskInv(s: System, t: TaskId) {
    && RefsOk(s, t)
    && (t in s.tasks ==>
          && Inv(RolesOf(s, t), ViewOf(s, t))
          && (s.tasks[t].state == Done || s.tasks[t].dropped || Tracked(s, t)))
  }

  ghost predicate SystemInv(s: System) {
    ThreadsOk(s) && forall t :: TaskInv(s, t)
  }

  // ---------------------------------------------------------------------------
  // Every step keeps it
  // ---------------------------------------------------------------------------

  /** A move of `th` moves `th` only, to a place its code can be at. */
  predicate ThreadMoveOk(s: System, th: ThreadId, s': System) {
    s'.threads == s.threads[th := At(s', th)] && s'.stopped == s.stopped && ThreadOk(At(s', th), s.stopped)
  }

  /** A move of `th` is an access of `t`'s protocol, or creates `t`. */
  predicate TaskMoveOk(s: System, th: ThreadId, s': System, t: TaskId) {
    if t in s.tasks
    then t in s'.tasks && Access(RoleOf(At(s, th), t), ViewOf(s, t), RoleOf(At(s', th), t), ViewOf(s', t))
    else t in s'.tasks ==> s'.tasks[t] == FRESH && At(s', th) == Registering(t) && s'.queue == s.queue
  }

  lemma QueueMovesThread(s: System, th: ThreadId, q: QueueMove)
    requires ThreadOk(At(s, th), s.stopped) && QueueEnabled(s, th, q)
    ensures ThreadMoveOk(s, th, QueueApply(s, th, q))
  {
  }

  lemma QueueMovesTask(s: System, th: ThreadId, q: QueueMove, t: TaskId)
    requires ThreadOk(At(s, th), s.stopped) && QueueEnabled(s, th, q)
    ensures TaskMoveOk(s, th, QueueApply(s, th, q), t)
  {
    match q
    case Register(_) =>
    case PushLive(_) =>
    case Enqueue => EnqueueMovesTask(s, th, t);
    case Dequeue => DequeueMovesTask(s, th, t);
  }

  lemma EnqueueMovesTask(s: System, th: ThreadId, t: TaskId)
    requires QueueEnabled(s, th, Enqueue)
    ensures TaskMoveOk(s, th, QueueApply(s, th, Enqueue), t)
  {
    assert multiset(s.queue + [At(s, th).t]) == multiset(s.queue) + multiset{At(s, th).t};
  }

  lemma DequeueMovesTask(s: System, th: ThreadId, t: TaskId)
    requires QueueEnabled(s, th, Dequeue)
    ensures TaskMoveOk(s, th, QueueApply(s, th, Dequeue), t)
  {
    assert s.queue == [s.queue[0]] + s.queue[1..];
    assert multiset(s.queue) == multiset{s.queue[0]} + multiset(s.queue[1..]);
  }

  lemma PollMovesThread(s: System, th: ThreadId, p: PollMove)
    requires ThreadOk(At(s, th), s.stopped) && PollEnabled(s, th, p)
    ensures ThreadMoveOk(s, th, PollApply(s, th, p))
  {
  }

  lemma PollMovesTask(s: System, th: ThreadId, p: PollMove, t: TaskId)
    requires ThreadOk(At(s, th), s.stopped) && PollEnabled(s, th, p)
    ensures TaskMoveOk(s, th, PollApply(s, th, p), t)
  {
  }

  lemma ReleaseMovesThread(s: System, th: ThreadId, r: ReleaseMove)
    requires ThreadOk(At(s, th), s.stopped) && ReleaseEnabled(s, th, r)
    ensures ThreadMoveOk(s, th, ReleaseApply(s, th, r))
  {
  }

  lemma ReleaseMovesTask(s: System, th: ThreadId, r: ReleaseMove, t: TaskId)
    requires ThreadOk(At(s, th), s.stopped) && ReleaseEnabled(s, th, r)
    ensures TaskMoveOk(s, th, ReleaseApply(s, th, r), t)
  {
    match r
    case DropFuture => DropFutureMovesTask(s, th, t);
    case TakeNotifier => TakeNotifierMovesTask(s, th, t);
    case Publish => PublishMovesTask(s, th, t);
  }

  lemma DropFutureMovesTask(s: System, th: ThreadId, t: TaskId)
    requires ThreadOk(At(s, th), s.stopped) && ReleaseEnabled(s, th, DropFuture)
    ensures TaskMoveOk(s, th, ReleaseApply(s, th, DropFuture), t)
  {
  }

  lemma TakeNotifierMovesTask(s: System, th: ThreadId, t: TaskId)
    requires ThreadOk(At(s, th), s.stopped) && ReleaseEnabled(s, th, TakeNotifier)
    ensures TaskMoveOk(s, th, ReleaseApply(s, th, TakeNotifier), t)
  {
  }

  lemma PublishMovesTask(s: System, th: ThreadId, t: TaskId)
    requires ThreadOk(At(s, th), s.stopped) && ReleaseEnabled(s, th, Publish)
    ensures TaskMoveOk(s, th, ReleaseApply(s, th, Publish), t)
  {
  }

  lemma WakeMovesThread(s: System, th: ThreadId, w: WakeMove)
    requires ThreadOk(At(s, th), s.stopped) && WakeEnabled(s, th, w)
    ensures ThreadMoveOk(s, th, WakeApply(s, th, w))
  {
  }

  lemma WakeMovesTask(s: System, th: ThreadId, w: WakeMove, t: TaskId)
    requires ThreadOk(At(s, th), s.stopped) && WakeEnabled(s, th, w)
    ensures TaskMoveOk(s, th, WakeApply(s, th, w), t)
  {
    match w
    case Wake(_) =>
    case WakeFast => WakeFastMovesTask(s, th, t);
    case WakeRetry => WakeRetryMovesTask(s, th, t);
  }

  lemma WakeFastMovesTask(s: System, th: ThreadId, t: TaskId)
    requires ThreadOk(At(s, th), s.stopped) && WakeEnabled(s, th, WakeFast)
    ensures TaskMoveOk(s, th, WakeApply(s, th, WakeFast), t)
  {
  }

  lemma WakeRetryMovesTask(s: System, th: ThreadId, t: TaskId)
    requires ThreadOk(At(s, th), s.stopped) && WakeEnabled(s, th, WakeRetry)
    ensures TaskMoveOk(s, th, WakeApply(s, th, WakeRetry), t)
  {
  }

  lemma AbortMovesThread(s: System, th: ThreadId, a: AbortMove)
    requires ThreadOk(At(s, th), s.stopped) && AbortEnabled(s, th, a)
    ensures ThreadMoveOk(s, th, AbortApply(s, th, a))
  {
    match a
    case AbortLoad => AbortLoadMovesThread(s, th);
    case AbortSwap => AbortSwapMovesThread(s, th);
    case _ =>
  }

  lemma AbortLoadMovesThread(s: System, th: ThreadId)
    requires ThreadOk(At(s, th), s.stopped) && AbortEnabled(s, th, AbortLoad)
    ensures ThreadMoveOk(s, th, AbortApply(s, th, AbortLoad))
  {
  }

  lemma AbortSwapMovesThread(s: System, th: ThreadId)
    requires ThreadOk(At(s, th), s.stopped) && AbortEnabled(s, th, AbortSwap)
    ensures ThreadMoveOk(s, th, AbortApply(s, th, AbortSwap))
  {
  }

  lemma AbortMovesTask(s: System, th: ThreadId, a: AbortMove, t: TaskId)
    requires ThreadOk(At(s, th), s.stopped) && AbortEnabled(s, th, a)
    ensures TaskMoveOk(s, th, AbortApply(s, th, a), t)
  {
    match a
    case DrainLive =>
    case ClearQueue => ClearQueueMovesTask(s, th, t);
    case AbortLoad => AbortLoadMovesTask(s, th, t);
    case AbortSwap => AbortSwapMovesTask(s, th, t);
    case AbortReturn =>
  }

  lemma ClearQueueMovesTask(s: System, th: ThreadId, t: TaskId)
    requires ThreadOk(At(s, th), s.stopped) && AbortEnabled(s, th, ClearQueue)
    ensures TaskMoveOk(s, th, AbortApply(s, th, ClearQueue), t)
  {
  }

  lemma AbortLoadMovesTask(s: System, th: ThreadId, t: TaskId)
    requires ThreadOk(At(s, th), s.stopped) && AbortEnabled(s, th, AbortLoad)
    ensures TaskMoveOk(s, th, AbortApply(s, th, AbortLoad), t)
  {
  }

  lemma AbortSwapMovesTask(s: System, th: ThreadId, t: TaskId)
    requires ThreadOk(At(s, th), s.stopped) && AbortEnabled(s, th, AbortSwap)
    ensures TaskMoveOk(s, th, AbortApply(s, th, AbortSwap), t)
  {
  }

  /** What `th` may rely on about `t`, by the invariant. */
  predicate FactsFor(s: System, th: ThreadId, t: TaskId) {
    t in s.tasks ==>
      && (s.stopped ==> s.tasks[t].state != Polling)
      && (Releases(RoleOf(At(s, th), t)) ==> s.tasks[t].state == Done)
  }

  /** A move of `th` names no task it had no reference to. */
  predicate RefMoveOk(s: System, th: ThreadId, s': System, t: TaskId) {
    && (Mentions(At(s', th), t) ==> Mentions(At(s, th), t) || t in s.queue || (t in s'.tasks && !s'.tasks[t].dropped))
    && (t in s'.queue ==> t in s.queue || Mentions(At(s, th), t))
    && (t in s'.live ==> t in s.live || Mentions(At(s, th), t))
    && (t in s.tasks ==> t in s'.tasks && s'.tasks[t].dropped == s.tasks[t].dropped)
  }

  /** A move of `th` keeps an unfinished task within shutdown's reach. */
  predicate TrackMoveOk(s: System, th: ThreadId, s': System, t: TaskId) {
    t in s'.tasks && s'.tasks[t].state != Done && !s'.tasks[t].dropped ==>
      && (t in s.live ==> t in s'.live || ToBeAborted(At(s', th), t))
      && (At(s, th) == Registering(t) ==> t in s'.live || At(s', th) == Registering(t))
      && (ToBeAborted(At(s, th), t) ==> ToBeAborted(At(s', th), t))
      && (t !in s.tasks ==> At(s', th) == Registering(t))
  }

  lemma QueueKeepsRefs(s: System, th: ThreadId, q: QueueMove, t: TaskId)
    requires ThreadOk(At(s, th), s.stopped) && QueueEnabled(s, th, q)
    ensures RefMoveOk(s, th, QueueApply(s, th, q), t)
  {
  }

  lemma QueueKeepsTrack(s: System, th: ThreadId, q: QueueMove, t: TaskId)
    requires ThreadOk(At(s, th), s.stopped) && FactsFor(s, th, t) && QueueEnabled(s, th, q)
    ensures TrackMoveOk(s, th, QueueApply(s, th, q), t)
  {
  }

  lemma PollKeepsRefs(s: System, th: ThreadId, p: PollMove, t: TaskId)
    requires ThreadOk(At(s, th), s.stopped) && PollEnabled(s, th, p)
    ensures RefMoveOk(s, th, PollApply(s, th, p), t)
  {
  }

  lemma PollKeepsTrack(s: System, th: ThreadId, p: PollMove, t: TaskId)
    requires ThreadOk(At(s, th), s.stopped) && FactsFor(s, th, t) && PollEnabled(s, th, p)
    ensures TrackMoveOk(s, th, PollApply(s, th, p), t)
  {
  }

  lemma ReleaseKeepsRefs(s: System, th: ThreadId, r: ReleaseMove, t: TaskId)
    requires ThreadOk(At(s, th), s.stopped) && ReleaseEnabled(s, th, r)
    ensures RefMoveOk(s, th, ReleaseApply(s, th, r), t)
  {
  }

  lemma ReleaseKeepsTrack(s: System, th: ThreadId, r: ReleaseMove, t: TaskId)
    requires ThreadOk(At(s, th), s.stopped) && FactsFor(s, th, t) && ReleaseEnabled(s, th, r)
    ensures TrackMoveOk(s, th, ReleaseApply(s, th, r), t)
  {
  }

  lemma WakeKeepsRefs(s: System, th: ThreadId, w: WakeMove, t: TaskId)
    requires ThreadOk(At(s, th), s.stopped) && WakeEnabled(s, th, w)
    ensures RefMoveOk(s, th, WakeApply(s, th, w), t)
  {
  }

  lemma WakeKeepsTrack(s: System, th: ThreadId, w: WakeMove, t: TaskId)
    requires ThreadOk(At(s, th), s.stopped) && FactsFor(s, th, t) && WakeEnabled(s, th, w)
    ensures TrackMoveOk(s, th, WakeApply(s, th, w), t)
  {
  }

  lemma AbortKeepsRefs(s: System, th: ThreadId, a: AbortMove, t: TaskId)
    requires ThreadOk(At(s, th), s.stopped) && AbortEnabled(s, th, a)
    ensures RefMoveOk(s, th, AbortApply(s, th, a), t)
  {
    if a.DrainLive? { UpgradeKeepsReferenced(s.tasks, s.live); }
  }

  lemma AbortKeepsTrack(s: System, th: ThreadId, a: AbortMove, t: TaskId)
    requires ThreadOk(At(s, th), s.stopped) && FactsFor(s, th, t) && AbortEnabled(s, th, a)
    ensures TrackMoveOk(s, th, AbortApply(s, th, a), t)
  {
    match a
    case DrainLive => DrainKeepsTrack(s, th, t);
    case ClearQueue =>
    case AbortLoad => LoadKeepsTrack(s, th, t);
    case AbortSwap => SwapKeepsTrack(s, th, t);
    case AbortReturn =>
  }

  lemma DrainKeepsTrack(s: System, th: ThreadId, t: TaskId)
    requires AbortEnabled(s, th, DrainLive)
    ensures TrackMoveOk(s, th, AbortApply(s, th, DrainLive), t)
  {
    UpgradeKeepsReferenced(s.tasks, s.live);
  }

  lemma LoadKeepsTrack(s: System, th: ThreadId, t: TaskId)
    requires ThreadOk(At(s, th), s.stopped) && FactsFor(s, th, t) && AbortEnabled(s, th, AbortLoad)
    ensures TrackMoveOk(s, th, AbortApply(s, th, AbortLoad), t)
  {
  }

  lemma SwapKeepsTrack(s: System, th: ThreadId, t: TaskId)
    requires ThreadOk(At(s, th), s.stopped) && FactsFor(s, th, t) && AbortEnabled(s, th, AbortSwap)
    ensures TrackMoveOk(s, th, AbortApply(s, th, AbortSwap), t)
  {
  }

  lemma {:induction false} UpgradeKeepsReferenced(tasks: map<TaskId, Task>, live: seq<TaskId>)
    ensures forall t :: t in Upgrade(tasks, live) <==> t in live && t in tasks && !tasks[t].dropped
  {
    if live != [] {
      UpgradeKeepsReferenced(tasks, live[1..]);
      assert live == [live[0]] + live[1..];
    }
  }

  lemma MoveKeepsProtocol(s: System, th: ThreadId, s': System, t: TaskId)
    requires ThreadsOk(s) && TaskInv(s, t) && ThreadMoveOk(s, th, s') && TaskMoveOk(s, th, s', t)
    ensures t in s.tasks ==> t in s'.tasks && (s.tasks[t].state == Done ==> s'.tasks[t].state == Done)
    ensures t in s'.tasks ==> Inv(RolesOf(s', t), ViewOf(s', t))
  {
    assert forall x :: x != th ==> At(s', x) == At(s, x);
    if t in s.tasks {
      AccessKeepsInv(RolesOf(s, t), ViewOf(s, t), th, RolesOf(s', t), ViewOf(s', t));
      DoneIsKept(RolesOf(s, t), ViewOf(s, t), th, RolesOf(s', t), ViewOf(s', t));
    } else if t in s'.tasks {
      FreshTaskInv(RolesOf(s', t), th);
    }
  }

  /** A move with all these properties keeps one task's invariant. */
  lemma MoveKeepsTaskInv(s: System, th: ThreadId, s': System, t: TaskId)
    requires ThreadsOk(s) && TaskInv(s, t)
    requires ThreadMoveOk(s, th, s') && TaskMoveOk(s, th, s', t) && RefMoveOk(s, th, s', t) && TrackMoveOk(s, th, s', t)
    ensures TaskInv(s', t)
  {
    MoveKeepsProtocol(s, th, s', t);
    MoveKeepsReach(s, th, s', t);
  }

  lemma MoveKeepsReach(s: System, th: ThreadId, s': System, t: TaskId)
    requires ThreadsOk(s) && TaskInv(s, t)
    requires ThreadMoveOk(s, th, s') && RefMoveOk(s, th, s', t) && TrackMoveOk(s, th, s', t)
    requires t in s.tasks && s.tasks[t].state == Done ==> t in s'.tasks && s'.tasks[t].state == Done
    ensures RefsOk(s', t)
    ensures t in s'.tasks ==> s'.tasks[t].state == Done || s'.tasks[t].dropped || Tracked(s', t)
  {
    assert forall x :: x != th ==> At(s', x) == At(s, x);
  }

  /** The invariant gives each thread the facts it relies on. */
  lemma InvGivesFacts(s: System, th: ThreadId, t: TaskId)
    requires TaskInv(s, t)
    ensures FactsFor(s, th, t)
  {
    if t in s.tasks { assert Releases(RolesOf(s, t)(th)) == Releases(RoleOf(At(s, th), t)); }
  }

  /** A step of a thread. */
  predicate IsMove(step: Step) { !step.StopPool? && !step.DropTask? }

  lemma MoveKeepsThreads(s: System, step: Step)
    requires ThreadsOk(s) && Enabled(s, step) && IsMove(step)
    ensures ThreadMoveOk(s, step.th, Apply(s, step)) && ThreadsOk(Apply(s, step))
  {
    match step {
      case OfQueue(th, q) => QueueMovesThread(s, th, q);
      case OfPoll(th, p) => PollMovesThread(s, th, p);
      case OfRelease(th, r) => ReleaseMovesThread(s, th, r);
      case OfWake(th, w) => WakeMovesThread(s, th, w);
      case OfAbort(th, a) => AbortMovesThread(s, th, a);
    }
    assert forall x :: x != step.th ==> At(Apply(s, step), x) == At(s, x);
  }

  lemma MoveIsOk(s: System, step: Step, t: TaskId)
    requires Enabled(s, step) && IsMove(step) && ThreadOk(At(s, step.th), s.stopped) && FactsFor(s, step.th, t)
    ensures TaskMoveOk(s, step.th, Apply(s, step), t)
    ensures RefMoveOk(s, step.th, Apply(s, step), t) && TrackMoveOk(s, step.th, Apply(s, step), t)
  {
    match step {
      case OfQueue(th, q) => QueueMovesTask(s, th, q, t); QueueKeepsRefs(s, th, q, t); QueueKeepsTrack(s, th, q, t);
      case OfPoll(th, p) => PollMovesTask(s, th, p, t); PollKeepsRefs(s, th, p, t); PollKeepsTrack(s, th, p, t);
      case OfRelease(th, r) =>
        ReleaseMovesTask(s, th, r, t);
        ReleaseKeepsRefs(s, th, r, t);
        ReleaseKeepsTrack(s, th, r, t);
      case OfWake(th, w) => WakeMovesTask(s, th, w, t); WakeKeepsRefs(s, th, w, t); WakeKeepsTrack(s, th, w, t);
      case OfAbort(th, a) => AbortMovesTask(s, th, a, t); AbortKeepsRefs(s, th, a, t); AbortKeepsTrack(s, th, a, t);
    }
  }

  lemma StepKeepsTaskInv(s: System, step: Step, t: TaskId)
    requires ThreadsOk(s) && TaskInv(s, t) && Enabled(s, step)
    ensures TaskInv(Apply(s, step), t)
  {
    var s' := Apply(s, step);
    if IsMove(step) {
      InvGivesFacts(s, step.th, t);
      MoveKeepsThreads(s, step);
      MoveIsOk(s, step, t);
      MoveKeepsTaskInv(s, step.th, s', t);
    } else {
      OtherStepKeepsTaskInv(s, step, t);
    }
  }

  lemma OtherStepKeepsTaskInv(s: System, step: Step, t: TaskId)
    requires ThreadsOk(s) && TaskInv(s, t) && Enabled(s, step) && !IsMove(step)
    ensures TaskInv(Apply(s, step), t)
  {
    if step.StopPool? { StopKeepsTaskInv(s, t); } else { DropKeepsTaskInv(s, step.t, t); }
  }

  lemma StopKeepsTaskInv(s: System, t: TaskId)
    requires ThreadsOk(s) && TaskInv(s, t) && Enabled(s, StopPool)
    ensures TaskInv(Apply(s, StopPool), t)
  {
    var s' := Apply(s, StopPool);
    assert forall x :: At(s', x) == At(s, x) && !InPool(At(s, x));
    if t in s.tasks { StopKeepsInv(RolesOf(s, t), ViewOf(s, t), RolesOf(s', t)); }
    SameThreadsTrack(s, s', t);
  }

  lemma DropKeepsTaskInv(s: System, u: TaskId, t: TaskId)
    requires ThreadsOk(s) && TaskInv(s, t) && Enabled(s, DropTask(u))
    ensures TaskInv(Apply(s, DropTask(u)), t)
  {
    var s' := Apply(s, DropTask(u));
    assert forall x :: At(s', x) == At(s, x);
    assert u == t ==> forall th :: !Mentions(At(s, th), t);
    if t in s.tasks { AccessKeepsInv(RolesOf(s, t), ViewOf(s, t), 0, RolesOf(s', t), ViewOf(s', t)); }
    SameThreadsTrack(s, s', t);
  }

  lemma SameThreadsTrack(s: System, s': System, t: TaskId)
    requires s'.live == s.live && forall x :: At(s', x) == At(s, x)
    ensures Tracked(s, t) ==> Tracked(s', t)
  {
  }

  lemma StepKeepsInv(s: System, step: Step)
    requires SystemInv(s) && Enabled(s, step)
    ensures SystemInv(Apply(s, step))
  {
    if IsMove(step) {
      MoveKeepsThreads(s, step);
    } else {
      assert forall x :: At(Apply(s, step), x) == At(s, x);
    }
    forall t ensures TaskInv(Apply(s, step), t) { StepKeepsTaskInv(s, step, t); }
  }
}
