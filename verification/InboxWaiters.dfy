/**
 An accepting establish that looks before it sleeps: no arrival goes unnoticed.
 */
module InboxWaiters {
  import opened Options
  import opened Runs
  import opened Inbox

  type ThreadId = nat

  /** A waiter enables its notification, looks, then awaits; queue pushes under the lock,
      then notifies. */
  datatype Pc =
    | Ready
    | Enabling(key: Key)
    | Looking(key: Key)
    | Asleep(key: Key)
    | Telling

  /** `enabled` holds the waiters notify_waiters reaches, `woken` those it reached. */
  datatype State = State(box: Box, threads: map<ThreadId, Pc>, enabled: set<ThreadId>, woken: set<ThreadId>)

  const INITIAL := State(EMPTY_BOX, map[], {}, {})

  function At(s: State, th: ThreadId): Pc {
    if th in s.threads then s.threads[th] else Ready
  }

  datatype Move = Accept(key: Key) | Enable | Look | Wake | Push(key: Key, a: Accepted) | Tell
  datatype Step = Step(th: ThreadId, move: Move)

  predicate Enabled(s: State, step: Step) {
    var pc := At(s, step.th);
    match step.move
    case Accept(_) => pc.Ready?
    case Enable => pc.Enabling?
    case Look => pc.Looking?
    case Wake => pc.Asleep? && step.th in s.woken
    case Push(_, _) => pc.Ready?
    case Tell => pc.Telling?
  }

  function Goto(s: State, th: ThreadId, pc: Pc): State {
    s.(threads := s.threads[th := pc])
  }

  /** The waiter's notification is dropped, whether delivered or not. */
  function Forget(s: State, th: ThreadId): State {
    s.(enabled := s.enabled - {th}, woken := s.woken - {th})
  }

  function Apply(s: State, step: Step): State
    requires Enabled(s, step)
  {
    var th, pc := step.th, At(s, step.th);
    match step.move
    case Accept(key) => Goto(s, th, Enabling(key))
    case Enable => Goto(s.(enabled := s.enabled + {th}), th, Looking(pc.key))
    case Look =>
      var s' := s.(box := Popped(s.box, pc.key));
      if Result(s.box, pc.key).Some? then Goto(Forget(s', th), th, Ready) else Goto(s', th, Asleep(pc.key))
    case Wake => Goto(Forget(s, th), th, Enabling(pc.key))
    case Push(key, a) => Goto(s.(box := Queued(s.box, key, a)), th, Telling)
    case Tell => Goto(s.(enabled := {}, woken := s.woken + s.enabled), th, Ready)
  }

  function Next(): (State, Step, State) -> bool {
    (s, step, s') => Enabled(s, step) && s' == Apply(s, step)
  }

  ghost predicate IsRun(states: seq<State>, steps: seq<Step>) {
    && |states| == |steps| + 1
    && states[0] == INITIAL
    && Linked(Next(), states, steps, 0, |steps|)
  }

  // ---------------------------------------------------------------------------
  // No arrival is missed
  // ---------------------------------------------------------------------------

  /** A waiter past enabling will be reached or was; and while it sleeps unreached with a
      stream to pop, some push has still to notify. */
  ghost predicate WaiterOk(s: State, th: ThreadId) {
    var pc := At(s, th);
    && (pc.Looking? || pc.Asleep? ==> th in s.enabled || th in s.woken)
    && (pc.Asleep? && th !in s.woken && Result(s.box, pc.key).Some? ==> exists k :: At(s, k) == Telling)
  }

  /** Once nothing can be popped, only an arrival changes that. */
  lemma PopsStayEmpty(b: Box, key: Key, other: Key)
    requires Result(b, key).None?
    ensures Result(Popped(b, other), key).None?
  {
    var queue := QueueOf(b, key);
    assert Stale(queue, HighestOf(b, key.0)) == |queue|;
    if other == key && key in b.queues { assert QueueOf(Popped(b, other), key) == []; }
  }

  lemma StepKeepsWaiter(s: State, step: Step, th: ThreadId)
    requires Enabled(s, step) && WaiterOk(s, th)
    ensures WaiterOk(Apply(s, step), th)
  {
    var s' := Apply(s, step);
    assert forall x :: x != step.th ==> At(s', x) == At(s, x);
    if step.move.Push? { assert At(s', step.th) == Telling; }
    if step.move.Look? && At(s', th).Asleep? && Result(s.box, At(s', th).key).None? {
      PopsStayEmpty(s.box, At(s', th).key, At(s, step.th).key);
    }
    if !step.move.Tell? && exists k :: At(s, k) == Telling {
      var k: ThreadId :| At(s, k) == Telling;
      assert At(s', k) == Telling;
    }
  }

  lemma RunKeepsWaiter(states: seq<State>, steps: seq<Step>, k: nat, th: ThreadId)
    requires IsRun(states, steps) && k < |states|
    ensures WaiterOk(states[k], th)
  {
    forall s, step, s' | Next()(s, step, s') && WaiterOk(s, th) ensures WaiterOk(s', th) {
      StepKeepsWaiter(s, step, th);
    }
    Stays(Next(), s => WaiterOk(s, th), states, steps, 0, k);
  }

  /** A waiter sleeps only if no arrival is left un-notified: whenever every push has
      notified, a waiter that is asleep and not woken has nothing to pop. */
  lemma SleepersMissNothing(states: seq<State>, steps: seq<Step>, k: nat, th: ThreadId)
    requires IsRun(states, steps) && k < |states|
    requires At(states[k], th).Asleep? && th !in states[k].woken
    requires forall x :: At(states[k], x) != Telling
    ensures Result(states[k].box, At(states[k], th).key).None?
  {
    RunKeepsWaiter(states, steps, k, th);
  }

  /** A waiter's look takes its stream and is done, or finds none and sleeps. */
  lemma LooksThenSleeps(states: seq<State>, steps: seq<Step>, k: nat, th: ThreadId, key: Key)
    requires IsRun(states, steps) && k < |steps| && steps[k] == Step(th, Look) && At(states[k], th) == Looking(key)
    ensures states[k + 1].box == Popped(states[k].box, key)
    ensures At(states[k + 1], th) == if Result(states[k].box, key).Some? then Ready else Asleep(key)
  {
    assert Next()(states[k], steps[k], states[k + 1]);
  }

  ghost predicate ToldBetween(steps: seq<Step>, i: nat, j: nat)
    requires j <= |steps|
  {
    exists k :: i < k < j && steps[k].move.Tell?
  }

  /** And it is woken once for each time it is told: between two wakes there is a push's
      notification. */
  lemma WakesWereTold(states: seq<State>, steps: seq<Step>, i: nat, j: nat, th: ThreadId)
    requires IsRun(states, steps) && i < j < |steps| && steps[i] == Step(th, Wake) && steps[j] == Step(th, Wake)
    ensures ToldBetween(steps, i, j)
  {
    if !ToldBetween(steps, i, j) {
      var next := (s: State, step: Step, s': State) => Next()(s, step, s') && !step.move.Tell?;
      var p := (s: State) => th !in s.woken;
      assert Next()(states[i], steps[i], states[i + 1]) && Next()(states[j], steps[j], states[j + 1]);
      Stays(next, p, states, steps, i + 1, j);
    }
  }
}
