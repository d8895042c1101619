/**
 The executor task protocol: tasks whose state (idle, queued, polling, done) is
 driven by compare-and-swap from any number of wakers, pool threads, registering
 threads and shutdown threads.

 A `System` is the shared memory plus one program counter per thread. Every `Step`
 performs at most one atomic access or one critical section, so the runs of the
 system are exactly the interleavings of those accesses. Thread identifiers are
 unbounded; a thread that has not moved is at `Ready`. A future that wakes its own
 task while it is being polled is covered too: that wake is a `Wake` by a thread
 identifier of its own, interleaved while the poller is at `RunningFuture`.
 */
module ExecutorTasks {

  import opened Runs
  import opened TaskProtocol

  type TaskId = nat

  /** Where a thread goes back to once it has released a task: to its poll loop,
      or to the abort_all it runs, which was on task `todo[next]`. */
  datatype Return = ToPool | ToAbort(todo: seq<TaskId>, next: nat)

  /** What an executor future returns. */
  datatype Output = Success(complete: bool) | Failure(error: string)

  /** What a task's completion is published with: what its future returned, its panic, that
      it was polled without a future, or that it was aborted. */
  datatype Outcome = FromFuture(output: Output) | FromPanic(payload: string) | NoFuture | Aborted

  /** Program counters, by the operation they belong to. */
  datatype Pc =
    | Ready
    // register
    | Registering(t: TaskId)
    // enqueue, owed by whoever made the task QUEUED
    | Enqueueing(t: TaskId)
    // a pool thread
    | Claiming(t: TaskId)
    | EnteringPoll(t: TaskId)
    | RunningFuture(t: TaskId)
    | Returned(t: TaskId)
    | Finishing(t: TaskId, outcome: Outcome)
    // release
    | DroppingFuture(t: TaskId, back: Return, outcome: Outcome)
    | TakingNotifier(t: TaskId, back: Return, outcome: Outcome)
    | Publishing(t: TaskId, back: Return, outcome: Outcome)
    // try_wake
    | Waking(t: TaskId)
    | Rewaking(t: TaskId, seen: TaskState)
    // abort_all
    | Clearing(todo: seq<TaskId>)
    | AbortLoading(todo: seq<TaskId>, next: nat)
    | AbortSwapping(todo: seq<TaskId>, next: nat, seen: TaskState)

  /** `published` is every completion each task's notifier was given, in order. */
  datatype System = System(
    tasks: map<TaskId, Task>,
    queue: seq<TaskId>,
    live: seq<TaskId>,
    threads: map<ThreadId, Pc>,
    stopped: bool,
    published: map<TaskId, seq<Outcome>>)

  /** register, enqueue and dequeue. */
  datatype QueueMove = Register(t: TaskId) | PushLive(kept: seq<TaskId>) | Enqueue | Dequeue

  /** try_start_poll and poll. */
  datatype PollMove = Claim | EnterPoll | ReturnPending | ReturnFinished(outcome: Outcome) | Settle | StoreDone

  /** release. */
  datatype ReleaseMove = DropFuture | TakeNotifier | Publish

  /** try_wake. */
  datatype WakeMove = Wake(t: TaskId) | WakeFast | WakeRetry

  /** abort_all and abort. */
  datatype AbortMove = DrainLive | ClearQueue | AbortLoad | AbortSwap | AbortReturn

  datatype Step =
    | OfQueue(th: ThreadId, q: QueueMove)
    | OfPoll(th: ThreadId, p: PollMove)
    | OfRelease(th: ThreadId, r: ReleaseMove)
    | OfWake(th: ThreadId, w: WakeMove)
    | OfAbort(th: ThreadId, a: AbortMove)
    | StopPool
    | DropTask(t: TaskId)

  const INITIAL := System(map[], [], [], map[], false, map[])

  function At(s: System, th: ThreadId): Pc {
    if th in s.threads then s.threads[th] else Ready
  }

  /** The abort_all call this program counter is inside, if any. */
  function AbortOf(pc: Pc): Return {
    match pc
    case Clearing(todo) => ToAbort(todo, 0)
    case AbortLoading(todo, next) => ToAbort(todo, next)
    case AbortSwapping(todo, next, _) => ToAbort(todo, next)
    case DroppingFuture(_, back, _) => back
    case TakingNotifier(_, back, _) => back
    case Publishing(_, back, _) => back
    case _ => ToPool
  }

  /** The thread holds a strong reference to `t`. */
  predicate Mentions(pc: Pc, t: TaskId) {
    || (!pc.Ready? && !pc.Clearing? && !pc.AbortLoading? && !pc.AbortSwapping? && pc.t == t)
    || (AbortOf(pc).ToAbort? && t in AbortOf(pc).todo)
  }

  /** The thread is a pool thread inside its poll loop. */
  predicate InPool(pc: Pc) {
    || pc.Claiming? || pc.EnteringPoll? || pc.RunningFuture? || pc.Returned? || pc.Finishing?
    || ((pc.DroppingFuture? || pc.TakingNotifier? || pc.Publishing?) && pc.back.ToPool?)
  }

  // ---------------------------------------------------------------------------
  // Steps
  // ---------------------------------------------------------------------------

  /** The strong references a weak list can still be upgraded to. */
  function Upgrade(tasks: map<TaskId, Task>, live: seq<TaskId>): seq<TaskId> {
    if live == [] then []
    else if live[0] in tasks && !tasks[live[0]].dropped then [live[0]] + Upgrade(tasks, live[1..])
    else Upgrade(tasks, live[1..])
  }

  /** What LiveTasks::push may keep: entries of the list, and at least every task
      that is unfinished and still referenced. */
  predicate Keeps(s: System, kept: seq<TaskId>) {
    && (forall u :: u in kept ==> u in s.live)
    && (forall u :: u in s.live && u in s.tasks && !s.tasks[u].dropped && s.tasks[u].state != Done ==> u in kept)
  }

  function Goto(s: System, th: ThreadId, pc: Pc): System {
    s.(threads := s.threads[th := pc])
  }

  function SetTask(s: System, t: TaskId, task: Task): System {
    s.(tasks := s.tasks[t := task])
  }

  function SetState(s: System, t: TaskId, state: TaskState): System
    requires t in s.tasks
  {
    SetTask(s, t, s.tasks[t].(state := state))
  }

  function PublishedOf(s: System, t: TaskId): seq<Outcome> {
    if t in s.published then s.published[t] else []
  }

  /** The notifier of `t` is given its completion. */
  function Completed(s: System, t: TaskId, outcome: Outcome): System {
    s.(published := s.published[t := PublishedOf(s, t) + [outcome]])
  }

  /** Where release returns to. */
  function GoBack(back: Return): Pc {
    match back
    case ToPool => Ready
    case ToAbort(todo, next) => AbortLoading(todo, next + 1)
  }

  /** What try_wake does after a failed exchange that observed `seen`. */
  function AfterFailedWake(t: TaskId, seen: TaskState): Pc {
    if seen == Idle || seen == Polling then Rewaking(t, seen) else Ready
  }

  /** What abort does with a state it observed. */
  function AfterAbortSaw(todo: seq<TaskId>, next: nat, seen: TaskState): Pc {
    if seen == Done || seen == Polling then AbortLoading(todo, next + 1) else AbortSwapping(todo, next, seen)
  }

  predicate QueueEnabled(s: System, th: ThreadId, q: QueueMove) {
    var pc := At(s, th);
    match q
    case Register(t) => pc.Ready? && t !in s.tasks
    case PushLive(kept) => pc.Registering? && Keeps(s, kept)
    case Enqueue => pc.Enqueueing?
    case Dequeue => pc.Ready? && !s.stopped && s.queue != []
  }

  function QueueApply(s: System, th: ThreadId, q: QueueMove): System
    requires QueueEnabled(s, th, q)
  {
    var pc := At(s, th);
    match q
    case Register(t) => Goto(SetTask(s, t, FRESH), th, Registering(t))
    case PushLive(kept) => Goto(s.(live := kept + [pc.t]), th, Enqueueing(pc.t))
    case Enqueue => Goto(s.(queue := s.queue + [pc.t]), th, Ready)
    case Dequeue => Goto(s.(queue := s.queue[1..]), th, Claiming(s.queue[0]))
  }

  predicate PollEnabled(s: System, th: ThreadId, p: PollMove) {
    var pc := At(s, th);
    match p
    case Claim => pc.Claiming? && pc.t in s.tasks
    case EnterPoll => pc.EnteringPoll? && pc.t in s.tasks
    case ReturnPending => pc.RunningFuture?
    case ReturnFinished(outcome) => pc.RunningFuture? && (outcome.FromFuture? || outcome.FromPanic?)
    case Settle => pc.Returned? && pc.t in s.tasks
    case StoreDone => pc.Finishing? && pc.t in s.tasks
  }

  function PollApply(s: System, th: ThreadId, p: PollMove): System
    requires PollEnabled(s, th, p)
  {
    var pc := At(s, th);
    var t := pc.t;
    match p
    case Claim =>
      if s.tasks[t].state == Queued then Goto(SetState(s, t, Polling), th, EnteringPoll(t)) else Goto(s, th, Ready)
    case EnterPoll => Goto(s, th, if s.tasks[t].future then RunningFuture(t) else Finishing(t, NoFuture))
    case ReturnPending => Goto(s, th, Returned(t))
    case ReturnFinished(outcome) => Goto(s, th, Finishing(t, outcome))
    case Settle =>
      if s.tasks[t].state == Polling then Goto(SetState(s, t, Idle), th, Ready) else Goto(s, th, Enqueueing(t))
    case StoreDone => Goto(SetState(s, t, Done), th, DroppingFuture(t, ToPool, pc.outcome))
  }

  predicate ReleaseEnabled(s: System, th: ThreadId, r: ReleaseMove) {
    var pc := At(s, th);
    match r
    case DropFuture => pc.DroppingFuture? && pc.t in s.tasks
    case TakeNotifier => pc.TakingNotifier? && pc.t in s.tasks
    case Publish => pc.Publishing? && pc.t in s.tasks
  }

  function ReleaseApply(s: System, th: ThreadId, r: ReleaseMove): System
    requires ReleaseEnabled(s, th, r)
  {
    var pc := At(s, th);
    var task := s.tasks[pc.t];
    match r
    case DropFuture => Goto(SetTask(s, pc.t, task.(future := false)), th, TakingNotifier(pc.t, pc.back, pc.outcome))
    case TakeNotifier =>
      if task.notifier
      then Goto(SetTask(s, pc.t, task.(notifier := false)), th, Publishing(pc.t, pc.back, pc.outcome))
      else Goto(s, th, GoBack(pc.back))
    case Publish =>
      Goto(Completed(SetTask(s, pc.t, task.(completions := task.completions + 1)), pc.t, pc.outcome),
           th, GoBack(pc.back))
  }

  predicate WakeEnabled(s: System, th: ThreadId, w: WakeMove) {
    var pc := At(s, th);
    match w
    case Wake(t) => pc.Ready? && t in s.tasks && !s.tasks[t].dropped
    case WakeFast => pc.Waking? && pc.t in s.tasks
    case WakeRetry => pc.Rewaking? && pc.t in s.tasks
  }

  function WakeApply(s: System, th: ThreadId, w: WakeMove): System
    requires WakeEnabled(s, th, w)
  {
    var pc := At(s, th);
    match w
    case Wake(t) => Goto(s, th, Waking(t))
    case WakeFast =>
      if s.tasks[pc.t].state == Idle
      then Goto(SetState(s, pc.t, Queued), th, Enqueueing(pc.t))
      else Goto(s, th, AfterFailedWake(pc.t, s.tasks[pc.t].state))
    case WakeRetry =>
      if s.tasks[pc.t].state == pc.seen
      then Goto(SetState(s, pc.t, Queued), th, if pc.seen == Idle then Enqueueing(pc.t) else Ready)
      else Goto(s, th, AfterFailedWake(pc.t, s.tasks[pc.t].state))
  }

  predicate AbortEnabled(s: System, th: ThreadId, a: AbortMove) {
    var pc := At(s, th);
    match a
    case DrainLive => pc.Ready? && s.stopped
    case ClearQueue => pc.Clearing?
    case AbortLoad => pc.AbortLoading? && pc.next < |pc.todo| && pc.todo[pc.next] in s.tasks
    case AbortSwap => pc.AbortSwapping? && pc.next < |pc.todo| && pc.todo[pc.next] in s.tasks
    case AbortReturn => pc.AbortLoading? && pc.next >= |pc.todo|
  }

  function AbortApply(s: System, th: ThreadId, a: AbortMove): System
    requires AbortEnabled(s, th, a)
  {
    var pc := At(s, th);
    match a
    case DrainLive => Goto(s.(live := []), th, Clearing(Upgrade(s.tasks, s.live)))
    case ClearQueue => Goto(s.(queue := []), th, AbortLoading(pc.todo, 0))
    case AbortLoad => Goto(s, th, AfterAbortSaw(pc.todo, pc.next, s.tasks[pc.todo[pc.next]].state))
    case AbortSwap =>
      var t := pc.todo[pc.next];
      if s.tasks[t].state == pc.seen
      then Goto(SetState(s, t, Done), th, DroppingFuture(t, ToAbort(pc.todo, pc.next), Aborted))
      else Goto(s, th, AfterAbortSaw(pc.todo, pc.next, s.tasks[t].state))
    case AbortReturn => Goto(s, th, Ready)
  }

  /** Every thread of the pool has been joined. */
  predicate PoolIdle(s: System) {
    forall th :: th in s.threads ==> !InPool(s.threads[th])
  }

  predicate Unreferenced(s: System, t: TaskId) {
    t !in s.queue && forall th :: th in s.threads ==> !Mentions(s.threads[th], t)
  }

  predicate Enabled(s: System, step: Step) {
    match step
    case OfQueue(th, q) => QueueEnabled(s, th, q)
    case OfPoll(th, p) => PollEnabled(s, th, p)
    case OfRelease(th, r) => ReleaseEnabled(s, th, r)
    case OfWake(th, w) => WakeEnabled(s, th, w)
    case OfAbort(th, a) => AbortEnabled(s, th, a)
    case StopPool => !s.stopped && PoolIdle(s)
    case DropTask(t) => t in s.tasks && Unreferenced(s, t)
  }

  function Apply(s: System, step: Step): System
    requires Enabled(s, step)
  {
    match step
    case OfQueue(th, q) => QueueApply(s, th, q)
    case OfPoll(th, p) => PollApply(s, th, p)
    case OfRelease(th, r) => ReleaseApply(s, th, r)
    case OfWake(th, w) => WakeApply(s, th, w)
    case OfAbort(th, a) => AbortApply(s, th, a)
    case StopPool => s.(stopped := true)
    case DropTask(t) => SetTask(s, t, s.tasks[t].(dropped := true))
  }

  function Next(): (System, Step, System) -> bool {
    (s, step, s') => Enabled(s, step) && s' == Apply(s, step)
  }

  /** A run: the states and the steps between them, from the empty registry. */
  ghost predicate IsRun(states: seq<System>, steps: seq<Step>) {
    && |states| == |steps| + 1
    && states[0] == INITIAL
    && Linked(Next(), states, steps, 0, |steps|)
  }
}
