/**
 The life of one executor task as its threads see it: each thread has a role in the
 task's protocol, and every atomic access changes the acting thread's role, the
 task's record and its number of ready-queue entries together.

 This is the protocol's core argument, free of the registry around it:
 `AccessKeepsInv` shows that the roles of any number of threads stay consistent.
 */
module TaskProtocol {

  type ThreadId = nat

  datatype TaskState = Idle | Queued | Polling | Done

  /** One task: its state word, whether its future and notifier slots are still
      full, how often its completion was published, and whether its last strong
      reference is gone. */
  datatype Task = Task(state: TaskState, future: bool, notifier: bool, completions: nat, dropped: bool)

  /** What a thread is doing for the task. `Owes` is the right, and the duty, to
      bring the task to a poll: a thread registering it, about to enqueue it, or
      about to claim it. `Runs` is a poll in progress. */
  datatype Role = Bystander | Owes | Runs | DropsFuture | TakesNotifier | Publishes

  /** The shared part: the task, its ready-queue entries, and whether every pool
      thread has stopped for good. */
  datatype View = View(task: Task, entries: nat, stopped: bool)

  type Roles = ThreadId -> Role

  const FRESH := Task(Queued, true, true, 0, false)

  predicate HoldsTicket(r: Role) { r.Owes? || r.Runs? }

  predicate Releases(r: Role) { r.DropsFuture? || r.TakesNotifier? || r.Publishes? }

  /** One atomic access by a thread whose role goes from `r` to `r'`. */
  predicate Access(r: Role, v: View, r': Role, v': View) {
    var s, s' := v.task.state, v'.task.state;
    // an access that does not touch this task
    || (r' == r && v' == v)
    // enqueue, dequeue
    || (r.Owes? && r'.Bystander? && v' == v.(entries := v.entries + 1))
    || (r.Bystander? && r'.Owes? && v.entries > 0 && !v.stopped && v' == v.(entries := v.entries - 1))
    // try_start_poll
    || (r.Owes? && r'.Runs? && s.Queued? && !v.stopped && v' == v.(task := v.task.(state := Polling)))
    || (r.Owes? && r'.Bystander? && !s.Queued? && !v.stopped && v' == v)
    // the end of poll, on Pending and on Ready or a panic
    || (r.Runs? && r'.Bystander? && s.Polling? && v' == v.(task := v.task.(state := Idle)))
    || (r.Runs? && r'.Owes? && !s.Polling? && v' == v)
    || (r.Runs? && r'.DropsFuture? && v' == v.(task := v.task.(state := Done)))
    // release
    || (r.DropsFuture? && r'.TakesNotifier? && v' == v.(task := v.task.(future := false)))
    || (r.TakesNotifier? && r'.Publishes? && v.task.notifier && v' == v.(task := v.task.(notifier := false)))
    || (r.TakesNotifier? && r'.Bystander? && !v.task.notifier && v' == v)
    || (r.Publishes? && r'.Bystander? && v' == v.(task := v.task.(completions := v.task.completions + 1)))
    // try_wake
    || (r.Bystander? && r'.Owes? && s.Idle? && v' == v.(task := v.task.(state := Queued)))
    || (r.Bystander? && r'.Bystander? && s.Polling? && v' == v.(task := v.task.(state := Queued)))
    // abort_all
    || (r' == r && v.stopped && v' == v.(entries := 0))
    || (r.Bystander? && r'.DropsFuture? && v.stopped && (s.Idle? || s.Queued?) &&
        v' == v.(task := v.task.(state := Done)))
    // the last strong reference goes
    || (r' == r && v' == v.(task := v.task.(dropped := true)))
  }

  // ---------------------------------------------------------------------------
  // The invariant
  // ---------------------------------------------------------------------------

  ghost predicate Held(roles: Roles) { exists th :: HoldsTicket(roles(th)) }

  /** At most one ticket: a queue entry or a thread that owes or runs a poll. */
  ghost predicate AtMostOneTicket(roles: Roles, v: View) {
    && (forall a, b :: HoldsTicket(roles(a)) && HoldsTicket(roles(b)) ==> a == b)
    && v.entries <= 1
    && (v.entries == 1 ==> !Held(roles))
  }

  /** What the task's state says about its ticket. */
  ghost predicate TicketFitsState(roles: Roles, v: View) {
    && (forall th :: roles(th).Runs? ==> !v.stopped)
    && match v.task.state
       case Idle => v.entries == 0 && !Held(roles)
       case Queued => v.stopped || v.entries == 1 || Held(roles)
       case Polling => v.entries == 0 && exists th :: roles(th).Runs?
       case Done => v.stopped || (v.entries == 0 && !Held(roles))
  }

  /** The future and the notifier are emptied in that order, after DONE, by one
      thread, which then publishes the completion. */
  ghost predicate ReleaseOk(roles: Roles, task: Task) {
    && (forall a, b :: Releases(roles(a)) && Releases(roles(b)) ==> a == b)
    && (forall th :: Releases(roles(th)) ==> task.state.Done? && StageOk(roles(th), task))
    && (if task.state.Done? then Released(task) || exists th :: Releases(roles(th)) else Untouched(task))
  }

  predicate StageOk(r: Role, task: Task) {
    task.completions == 0 && task.future == r.DropsFuture? && task.notifier == !r.Publishes?
  }

  predicate Untouched(task: Task) { task.future && task.notifier && task.completions == 0 }

  predicate Released(task: Task) { !task.future && !task.notifier && task.completions == 1 }

  ghost predicate Inv(roles: Roles, v: View) {
    AtMostOneTicket(roles, v) && TicketFitsState(roles, v) && ReleaseOk(roles, v.task)
  }

  // ---------------------------------------------------------------------------
  // Every access keeps it
  // ---------------------------------------------------------------------------

  /** Only `th`'s role changes. */
  ghost predicate OnlyMoves(roles: Roles, th: ThreadId, roles': Roles) {
    forall x :: x != th ==> roles'(x) == roles(x)
  }

  lemma AccessKeepsTickets(roles: Roles, v: View, th: ThreadId, roles': Roles, v': View)
    requires Inv(roles, v) && OnlyMoves(roles, th, roles') && Access(roles(th), v, roles'(th), v')
    ensures AtMostOneTicket(roles', v')
  {
  }

  lemma AccessKeepsFit(roles: Roles, v: View, th: ThreadId, roles': Roles, v': View)
    requires Inv(roles, v) && OnlyMoves(roles, th, roles') && Access(roles(th), v, roles'(th), v')
    ensures TicketFitsState(roles', v')
  {
  }

  lemma AccessKeepsRelease(roles: Roles, v: View, th: ThreadId, roles': Roles, v': View)
    requires Inv(roles, v) && OnlyMoves(roles, th, roles') && Access(roles(th), v, roles'(th), v')
    ensures ReleaseOk(roles', v'.task)
  {
  }

  /** Any access of any thread keeps the invariant. */
  lemma AccessKeepsInv(roles: Roles, v: View, th: ThreadId, roles': Roles, v': View)
    requires Inv(roles, v) && OnlyMoves(roles, th, roles') && Access(roles(th), v, roles'(th), v')
    ensures Inv(roles', v')
  {
    AccessKeepsTickets(roles, v, th, roles', v');
    AccessKeepsFit(roles, v, th, roles', v');
    AccessKeepsRelease(roles, v, th, roles', v');
  }

  /** No access undoes DONE. */
  lemma DoneIsKept(roles: Roles, v: View, th: ThreadId, roles': Roles, v': View)
    requires Inv(roles, v) && Access(roles(th), v, roles'(th), v')
    ensures v.task.state.Done? ==> v'.task.state.Done?
  {
  }

  /** Stopping the pool keeps it too, once no poll is in progress. */
  lemma StopKeepsInv(roles: Roles, v: View, roles': Roles)
    requires Inv(roles, v) && forall th :: roles'(th) == roles(th) && !roles(th).Runs?
    ensures Inv(roles', v.(stopped := true))
  {
  }

  /** A new task starts with one ticket, owed by the thread that registers it. */
  lemma FreshTaskInv(roles: Roles, th: ThreadId)
    requires roles(th).Owes? && forall x :: x != th ==> roles(x).Bystander?
    ensures forall stopped :: Inv(roles, View(FRESH, 0, stopped))
  {
  }
}
